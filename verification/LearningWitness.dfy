/** A run from the empty tables whose last evaluation breaks off and leaves an inference without an accepted owner. */
module LearningWitness {
  import opened Common
  import opened Records
  import opened Miner
  import opened Evaluation
  import opened Learning
  import opened Outcomes

  const EVENTS := 33

  function SessionAt(i: int): string { if i % 3 == 0 then "a" else if i % 3 == 1 then "b" else "c" }

  function RowAt(i: int): Row { Row("w", None, Decision, Success, 0, Some(SessionAt(i))) }

  function Ids(n: nat): (ids: seq<int>) { seq(n, i => i + 1) }

  function Observed(n: nat): map<int, Row> { map i | 1 <= i <= n :: RowAt(i) }

  const PLACE := Slot("preference", "n", Project, Some("w"), None)

  function Propose5(): Op { Detect("c", PLACE, "p", Ids(5), [], 50, 0) }

  function Propose33(): Op { Detect("c", PLACE, "p", Ids(EVENTS) + [99], [], 50, 0) }

  /** Thirty-three events; a proposal citing five of them; its evaluation; a refresh citing all of them and one
      event that does not exist; the evaluation again. */
  function StuckRun(): seq<Op> {
    Observing(EVENTS) + [Propose5()] + [Assess("c", "r1", 0)] + [Propose33()] + [Assess("c", "r2", 0)]
  }

  function Observing(n: nat): seq<Op> { seq(n, i => Observe(i + 1, RowAt(i + 1))) }

  function Nothing(): Ledger { Ledger(map[], map[], map[]) }

  // ── The evidence is good ───────────────────────────────────────────────

  lemma IdsStand(n: nat)
    requires n <= EVENTS
    ensures Increasing(Ids(n)) && forall id | id in Ids(n) :: Counts(Observed(EVENTS), PLACE, id)
  {}

  lemma Spread(n: nat)
    requires 5 <= n <= EVENTS
    ensures Judge(false, MembersOf(Observed(EVENTS), Ids(n)), 0, 0) == Verdict.Accepted
  {
    var ms := MembersOf(Observed(EVENTS), Ids(n));
    IdsStand(n);
    MembersPointwise(Observed(EVENTS), Ids(n));
    forall m | m in ms ensures m.group == Decision && m.session.Some? {
      var i :| 0 <= i < |ms| && ms[i] == m;
    }
    ThreeSessions(ms);
    EvidenceScores(ms, 0);
    ScoreIsEnough(ms);
  }

  lemma ThreeSessions(ms: seq<Member>)
    requires |ms| >= 3 && ms[0].session == Some("b") && ms[1].session == Some("c") && ms[2].session == Some("a")
    ensures Diversity(ms) >= 3
  {
    var sids := set m <- ms | m.session.Some? :: m.session.value;
    assert ms[0] in ms && ms[1] in ms && ms[2] in ms;
    assert {"a", "b", "c"} <= sids;
    SubsetSize({"a", "b", "c"}, sids);
  }

  lemma ScoreIsEnough(ms: seq<Member>)
    requires |ms| >= MIN_SUPPORT && Base(ms, 0, 0) >= 0.76
    ensures Judge(false, ms, 0, 0) == Verdict.Accepted
  {
    var x := Clamped(Base(ms, 0, 0));
    assert x * 100.0 + 0.5 >= 76.0;
  }

  // ── The run ────────────────────────────────────────────────────────────

  function Before1(): Ledger { Ledger(map[], map[], Observed(EVENTS)) }

  function Row1(): Candidate { Candidate(PLACE, "p", Ids(5), [], 50, Proposed, CANDIDATE_TTL, None) }

  function After1(): Ledger { Before1().(candidates := map["c" := Row1()]) }

  /** Accepted for the first time: one candidate owns one inference. */
  ghost predicate Accepted1(l: Ledger) {
    && Sound(l) && l.events == Observed(EVENTS) && l.records.Keys == {"r1"} && Inferred(l, "r1") && "c" in l.candidates
    && l.candidates["c"].stage == Stage.Accepted && l.candidates["c"].inference == Some("r1")
        && l.candidates["c"].slot == PLACE
  }

  lemma {:induction false} ObservingFills(n: nat)
    ensures Run(Nothing(), Observing(n)) == Ledger(map[], map[], Observed(n))
  {
    if n == 0 {
      assert Observed(0) == map[];
    } else {
      ObservingFills(n - 1);
      assert Observing(n)[..n - 1] == Observing(n - 1);
      assert Observed(n) == Observed(n - 1)[n := RowAt(n)];
    }
  }

  lemma RunAppends(l: Ledger, ops: seq<Op>, op: Op)
    ensures Run(l, ops + [op]) == Step(Run(l, ops), op)
  {
    assert (ops + [op])[..|ops|] == ops;
  }

  lemma RunTo(l: Ledger, ops: seq<Op>, op: Op, mid: Ledger)
    requires Run(l, ops) == mid
    ensures Run(l, ops + [op]) == Step(mid, op)
  {
    RunAppends(l, ops, op);
  }

  /** The only candidate, accepted for the first time, owns the only inference. */
  lemma OnlyOneAccepted(l: Ledger, id: string, newId: string, now: nat)
    requires id in l.candidates && l.candidates.Keys == {id} && l.records == map[]
    requires l.candidates[id].stage == Proposed && l.candidates[id].inference.None?
    requires VerdictFor(l, l.candidates[id], now) == Verdict.Accepted
        && |VoicedFor(l.events, l.candidates[id])| <= MAX_CITATIONS
    ensures var t := Evaluate(l, id, newId, now);
            && Sound(t) && t.events == l.events && t.records.Keys == {newId} && Inferred(t, newId) && id in t.candidates
            && t.candidates[id].stage == Stage.Accepted && t.candidates[id].inference == Some(newId)
            && t.candidates[id].slot == l.candidates[id].slot
  {
    assert !Unchanged(l, l.candidates[id]) && !Overflows(l, id, now) && !Occupied(l, l.candidates[id].slot);
    assert Sound(l);
    AssessKeeps(l, id, newId, now);
  }

  lemma FirstIsFavoured()
    ensures VerdictFor(After1(), Row1(), 0) == Verdict.Accepted && VoicedFor(After1().events, Row1()) == Ids(5)
  {
    IdsStand(5);
    StandingIsVoiced(After1().events, Row1());
    Spread(5);
  }

  lemma FirstIsAccepted()
    ensures Accepted1(Step(After1(), Assess("c", "r1", 0)))
  {
    FirstIsFavoured();
    OnlyOneAccepted(After1(), "c", "r1", 0);
  }

  /** An accepted row as a refresh leaves it. */
  function Refreshed(c: Candidate, sup: seq<int>): Candidate {
    c.(supporting := sup, contradicting := [], confidence := 50, expiresAt := CANDIDATE_TTL)
  }

  lemma LargeEvidenceOverflows(l: Ledger, id: string, ids: seq<int>, x: int, now: nat)
    requires id in l.candidates && l.candidates[id].stage == Stage.Accepted && l.candidates[id].contradicting == []
    requires l.candidates[id].supporting == ids + [x] && Increasing(ids) && x !in l.events && |ids| > MAX_CITATIONS
    requires forall y | y in ids :: Counts(l.events, l.candidates[id].slot, y)
    requires Judge(l.candidates[id].slot.scope == Global, MembersOf(l.events, ids), 0, now) == Verdict.Accepted
    ensures Overflows(l, id, now)
  {
    MissingIsDropped(l.events, l.candidates[id], ids, x);
    assert |ids + [x]| != |ids|;
  }

  lemma RefreshIs(l: Ledger)
    requires Accepted1(l)
    ensures Step(l, Propose33())
            == l.(candidates := l.candidates["c" := Refreshed(l.candidates["c"], Ids(EVENTS) + [99])])
  {}

  lemma RefreshOverflows(l: Ledger)
    requires Accepted1(l)
    ensures Overflows(l.(candidates := l.candidates["c" := Refreshed(l.candidates["c"], Ids(EVENTS) + [99])]), "c", 0)
  {
    IdsStand(EVENTS);
    Spread(EVENTS);
    LargeEvidenceOverflows(l.(candidates := l.candidates["c" := Refreshed(l.candidates["c"], Ids(EVENTS) + [99])]), "c",
        Ids(EVENTS), 99, 0);
  }

  lemma SecondBreaksOff(l: Ledger)
    requires Accepted1(l)
    ensures !Sound(Step(Step(l, Propose33()), Assess("c", "r2", 0)))
  {
    StepKeeps(l, Propose33());
    RefreshIs(l);
    RefreshOverflows(l);
    AssessKeepsIff(Step(l, Propose33()), "c", "r2", 0);
  }

  lemma FirstProposal()
    ensures Step(Before1(), Propose5()) == After1()
  {}

  /** The run ends with an active inference whose only claimant is no longer accepted. */
  lemma BrokenOffEvaluationBreaksOwnership()
    ensures Sound(Nothing()) && !Sound(Run(Nothing(), StuckRun()))
  {
    var os, a1, a2 := Observing(EVENTS), Assess("c", "r1", 0), Assess("c", "r2", 0);
    ObservingFills(EVENTS);
    FirstProposal();
    FirstIsAccepted();
    RunTo(Nothing(), os, Propose5(), Before1());
    RunTo(Nothing(), os + [Propose5()], a1, After1());
    Finish(Nothing(), os + [Propose5()] + [a1], Step(After1(), a1));
  }

  lemma Finish(l: Ledger, ops: seq<Op>, mid: Ledger)
    requires Run(l, ops) == mid && Accepted1(mid)
    ensures !Sound(Run(l, ops + [Propose33()] + [Assess("c", "r2", 0)]))
  {
    SecondBreaksOff(mid);
    RunTo(l, ops, Propose33(), mid);
    RunTo(l, ops + [Propose33()], Assess("c", "r2", 0), Step(mid, Propose33()));
  }
}
