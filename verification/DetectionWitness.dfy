/** A two-tool pattern mined from seventeen successful sessions: thirty-four events, two more than a record may cite. */
module DetectionWitness {
  import opened Common
  import opened Records
  import opened Miner
  import opened Ranking
  import opened Evaluation
  import opened Proposals
  import Learning
  import opened Outcomes

  const SESSIONS := 17

  function Name(i: nat): (s: string)
    ensures |s| == i
  {
    seq(i, _ => 's')
  }

  function PairTrace(i: nat): Trace { Trace(["x", "y"], [2 * i + 1, 2 * i + 2]) }

  /** The collapsed sequences of `n` sessions, each running `x` and then `y`. */
  function Sessions(n: nat): map<string, Trace> {
    if n == 0 then map[] else Sessions(n - 1)[Name(n - 1) := PairTrace(n - 1)]
  }

  lemma {:induction false} SessionAt(n: nat, sid: string)
    requires sid in Sessions(n)
    ensures |sid| < n && Sessions(n)[sid] == PairTrace(|sid|)
  {
    if sid != Name(n - 1) { SessionAt(n - 1, sid); }
  }

  lemma {:induction false} NamedIn(n: nat, i: nat)
    requires i < n
    ensures Name(i) in Sessions(n) && Sessions(n)[Name(i)] == PairTrace(i)
  {
    if i < n - 1 {
      NamedIn(n - 1, i);
      assert |Name(i)| != |Name(n - 1)|;
    }
  }

  lemma {:induction false} SameLength(n: nat, a: string, b: string)
    requires a in Sessions(n) && b in Sessions(n) && |a| == |b|
    ensures a == b
  {
    if a != Name(n - 1) && b != Name(n - 1) {
      SameLength(n - 1, a, b);
    } else {
      if a in Sessions(n - 1) { SessionAt(n - 1, a); }
      if b in Sessions(n - 1) { SessionAt(n - 1, b); }
    }
  }

  lemma {:induction false} SessionCount(n: nat)
    ensures |Sessions(n).Keys| == n
  {
    if n > 0 {
      SessionCount(n - 1);
      if Name(n - 1) in Sessions(n - 1) { SessionAt(n - 1, Name(n - 1)); }
      assert Sessions(n).Keys == Sessions(n - 1).Keys + {Name(n - 1)};
    }
  }

  function Ids(n: nat): (ids: seq<int>) { seq(n, i => i + 1) }

  const RUN := ["x", "y"]

  function Found(): Pattern { Pattern(RUN, SESSIONS, Ids(2 * SESSIONS), []) }

  lemma RunOccurs(i: nat)
    ensures FirstAt(PairTrace(i).tools, RUN, 0) && Contains(PairTrace(i).tools, RUN)
    ensures LeftmostIds(PairTrace(i), RUN, PairTrace(i).ids)
  {
    var t := PairTrace(i);
    assert t.tools[0..0 + |RUN|] == RUN && OccursAt(t.tools, RUN, 0);
    assert t.ids[0..0 + |RUN|] == t.ids;
  }

  function AllIds(n: nat): map<string, seq<int>> { map sid | sid in Sessions(n) :: Sessions(n)[sid].ids }

  lemma AllContain(n: nat, sid: string)
    requires sid in Sessions(n)
    ensures Contains(Sessions(n)[sid].tools, RUN) && LeftmostIds(Sessions(n)[sid], RUN, AllIds(n)[sid])
  {
    SessionAt(n, sid);
    RunOccurs(|sid|);
  }

  lemma AllGathered(n: nat)
    ensures Gathered(Sessions(n), RUN, AllIds(n)) && Containing(Sessions(n), RUN) == Sessions(n).Keys
  {
    forall sid | sid in Sessions(n)
      ensures Contains(Sessions(n)[sid].tools, RUN) && LeftmostIds(Sessions(n)[sid], RUN, AllIds(n)[sid])
    {
      AllContain(n, sid);
    }
  }

  lemma IdsFlatten(n: nat)
    ensures Elements(Ids(2 * n)) == Flatten(AllIds(n))
  {
    forall x ensures x in Elements(Ids(2 * n)) <==> x in Flatten(AllIds(n)) {
      InFlatten(AllIds(n), x);
      if x in Ids(2 * n) { IdIsPaired(n, x); }
      if sid :| sid in AllIds(n) && x in AllIds(n)[sid] { PairedIsId(n, sid, x); }
    }
  }

  /** Every id belongs to the session of its pair. */
  lemma IdIsPaired(n: nat, x: int)
    requires x in Ids(2 * n)
    ensures x > 0 && Name((x - 1) / 2) in AllIds(n) && x in AllIds(n)[Name((x - 1) / 2)]
  {
    var i: nat := (x - 1) / 2;
    NamedIn(n, i);
    assert PairTrace(i).ids[(x - 1) % 2] == x;
  }

  lemma PairedIsId(n: nat, sid: string, x: int)
    requires sid in AllIds(n) && x in AllIds(n)[sid]
    ensures x in Ids(2 * n)
  {
    SessionAt(n, sid);
    assert Ids(2 * n)[x - 1] == x;
  }

  lemma NothingFails(p: seq<string>)
    ensures Containing(map[], p) == {} && Gathered(map[], p, map[]) && Elements<int>([]) == Flatten(map[])
  {}

  /** A run that all of the sessions contain, and that never failed. */
  lemma Assembled(good: map<string, Trace>, p: seq<string>, n: nat, ids: seq<int>, m: map<string, seq<int>>)
    requires Minable(p) && Containing(good, p) == good.Keys && |good.Keys| == n >= MIN_SESSIONS && Gathered(good, p, m)
    requires Increasing(ids) && |ids| == |p| * n && Elements(ids) == Flatten(m)
    ensures Scores(good, map[], Pattern(p, n, ids, []))
  {
    NothingFails(p);
    assert |p| * 0 == 0;
  }

  lemma RunIsMinable()
    ensures Minable(RUN) && |RUN| == 2
  {
    TwoDiffer(RUN);
  }

  lemma FoundScores()
    ensures Scores(Sessions(SESSIONS), map[], Found())
  {
    SessionCount(SESSIONS);
    AllGathered(SESSIONS);
    IdsFlatten(SESSIONS);
    RunIsMinable();
    Assembled(Sessions(SESSIONS), RUN, SESSIONS, Ids(2 * SESSIONS), AllIds(SESSIONS));
  }

  lemma SessionsAreUnique(n: nat)
    ensures UniqueEvents(Sessions(n))
  {
    forall sid | sid in Sessions(n) ensures Aligned(Sessions(n)[sid])
        && Distinct(Sessions(n)[sid].ids) { SessionAt(n, sid); }
    forall a, b, i, j | a in Sessions(n) && b in Sessions(n) && a != b && 0 <= i < |Sessions(n)[a].ids|
        && 0 <= j < |Sessions(n)[b].ids|
      ensures Sessions(n)[a].ids[i] != Sessions(n)[b].ids[j]
    {
      SessionAt(n, a);
      SessionAt(n, b);
      if |a| == |b| { SameLength(n, a, b); }
    }
  }

  // ── The candidate ──────────────────────────────────────────────────────

  const PLACE := Learning.Slot("workflow", "n", Project, Some("w"), None)

  function RowAt(x: nat): Learning.Row
    requires x > 0
  {
    Learning.Row("w", None, Change, Success, 0, Some(Name((x - 1) / 2)))
  }

  function Table(): Learning.Ledger {
    var events := map x | 1 <= x <= 2 * SESSIONS :: RowAt(x);
    var row := Learning.Candidate(PLACE, "p", Ids(2 * SESSIONS), [], 76, Learning.Proposed, 0, None);
    Learning.Ledger(map["c" := row], map[], events)
  }

  lemma TableProposes()
    ensures Proposes(Table(), "c", Found())
  {}

  lemma TableHoldsEvidence()
    ensures Evidence(Sessions(SESSIONS), Found().support, Learning.MembersOf(Table().events, Found().support))
  {
    var ids, sup := Found().support, Learning.MembersOf(Table().events, Found().support);
    MembersPointwise(Table().events, ids);
    forall i | 0 <= i < |sup|
      ensures && sup[i].id == ids[i] && sup[i].group != Ignored && sup[i].session.Some?
              && sup[i].session.value in Sessions(SESSIONS) && sup[i].id in Sessions(SESSIONS)[sup[i].session.value].ids
    {
      IdIsPaired(SESSIONS, ids[i]);
    }
  }

  /** The pattern qualifies, no failed session contains it, and its candidate ends neither accepted nor deferred. */
  lemma SeventeenSessionsGetStuck()
    ensures Scores(Sessions(SESSIONS), map[], Found()) && Containing(map[], RUN) == {}
    ensures EndsAs(Learning.Evaluate(Table(), "c", "r", 0), "c", Learning.Evaluating)
  {
    FoundScores();
    SessionsAreUnique(SESSIONS);
    NothingFails(RUN);
    TableProposes();
    TableHoldsEvidence();
    UncontradictedIsAcceptedIff(Sessions(SESSIONS), map[], Found(), Table(), "c", "r", 0);
  }
}
