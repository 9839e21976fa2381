/** What evaluating a candidate comes to, in terms of the sets of events on its two sides. */
module Assessments {
  import opened Common
  import opened Records
  import opened Miner
  import opened Evaluation
  import opened Learning
  import opened Outcomes

  // ── The two sides ──────────────────────────────────────────────────────

  /** The event lies where the hypothesis applies. */
  predicate Belongs(slot: Slot, e: Row) {
    slot.scope == Global || (slot.workspace == Some(e.workspace) && (slot.scope == Task ==> e.task == slot.task))
  }

  /** The stored events in scope that the candidate cites in its favour. */
  ghost function InFavour(l: Ledger, c: Candidate): set<int> {
    set id | id in c.supporting && id in l.events && Belongs(c.slot, l.events[id])
  }

  /** Those it cites against itself and not in its favour. */
  ghost function InOpposition(l: Ledger, c: Candidate): set<int> {
    set id | id in c.contradicting && id !in c.supporting && id in l.events && Belongs(c.slot, l.events[id])
  }

  lemma IncreasingCounts(ids: seq<int>)
    requires Increasing(ids)
    ensures |Elements(ids)| == |ids|
  {
    assert Distinct(ids);
    DistinctCountsOnce(ids);
  }

  lemma SidesAreVoiced(l: Ledger, c: Candidate)
    ensures var yes, no := VoicedFor(l.events, c), VoicedAgainst(l.events, c);
            && Increasing(yes) && Elements(yes) == InFavour(l, c) && |yes| == |InFavour(l, c)|
            && Increasing(no) && Elements(no) == InOpposition(l, c) && |no| == |InOpposition(l, c)|
            && forall id | id in yes :: id in l.events
  {
    VoicedIsGrounded(l.events, c);
    forall id | id in l.events ensures Counts(l.events, c.slot, id) <==> Belongs(c.slot, l.events[id]) {}
    forall id ensures id in VoicedFor(l.events, c) <==> id in InFavour(l, c) {}
    forall id ensures id in VoicedAgainst(l.events, c) <==> id in InOpposition(l, c) {}
    assert Elements(VoicedFor(l.events, c)) == InFavour(l, c);
    assert Elements(VoicedAgainst(l.events, c)) == InOpposition(l, c);
    SortIdsSorts(Kept(l.events, c.slot, Cited(c), Opposes(c)));
    IncreasingCounts(VoicedFor(l.events, c));
    IncreasingCounts(VoicedAgainst(l.events, c));
  }

  // ── How strong the support is ──────────────────────────────────────────

  function Count(ids: set<int>, counted: int -> bool): nat { |set id | id in ids && counted(id)| }

  lemma CountNext(ids: set<int>, x: int, counted: int -> bool)
    requires x !in ids
    ensures Count(ids + {x}, counted) == Count(ids, counted) + if counted(x) then 1 else 0
  {
    assert (set id | id in ids + {x} && counted(id))
        == (set id | id in ids && counted(id)) + if counted(x) then {x} else {};
  }

  /** Decisions, and validations and errors that came out one way or the other. */
  function Telling(events: map<int, Row>): int -> bool {
    id => id in events && (events[id].group == Decision
                           || (events[id].group in {Validation, Error} && events[id].polarity != Neutral))
  }

  /** Changes, and validations and errors that came out neither way. */
  function Middling(events: map<int, Row>): int -> bool {
    id => id in events && (events[id].group == Change
                           || (events[id].group in {Validation, Error} && events[id].polarity == Neutral))
  }

  function Slight(events: map<int, Row>): int -> bool { id => id in events && events[id].group == Observation }

  /** Of the last thirty days. */
  function Lately(events: map<int, Row>, now: nat): int -> bool {
    id => id in events && now <= events[id].createdAt + 2_592_000
  }

  ghost function SessionsOn(events: map<int, Row>, ids: set<int>): set<Option<string>> {
    set id | id in ids && id in events :: events[id].session
  }

  ghost function PlacesOf(events: map<int, Row>, ids: set<int>): set<string> {
    set id | id in ids && id in events :: events[id].workspace
  }

  /** A quarter for numbers, up to five events; a fifth for their average weight; a tenth each for the recent share and
      for diversity, up to three sessions; and the rest for agreement. */
  function Blend(s: nat, against: nat, weight: real, lately: nat, sessions: nat): real
    requires s > 0
  {
    0.25 * (if s >= 5 then 1.0 else s as real / 5.0)
    + 0.2 * (weight / s as real)
    + 0.35 * ((s - against) as real / (s + against) as real)
    + 0.1 * (lately as real / s as real)
    + 0.1 * (if sessions >= 3 then 1.0 else sessions as real / 3.0)
  }

  lemma BaseIsBlend(sup: seq<Member>, c: nat, now: nat)
    requires sup != []
    ensures Base(sup, c, now) == Blend(|sup|, c, TotalWeight(sup), Recent(sup, now), Diversity(sup))
  {
    assert (|sup| - c) as real == |sup| as real - c as real;
    assert (|sup| + c) as real == |sup| as real + c as real;
  }

  /** A telling event counts in full, a middling one for six tenths, a slight one for three. */
  function Weighed(telling: nat, middling: nat, slight: nat): real {
    telling as real + 0.6 * middling as real + 0.3 * slight as real
  }

  ghost function Merit(events: map<int, Row>, ids: set<int>, against: nat, now: nat): real
    requires ids != {}
  {
    var weight := Weighed(Count(ids, Telling(events)), Count(ids, Middling(events)), Count(ids, Slight(events)));
    Blend(|ids|, against, weight, Count(ids, Lately(events, now)), |SessionsOn(events, ids)|)
  }

  /** In hundredths, between 5 and 95, halves rounded up. */
  function Rounded(x: real): int { if x <= 0.05 then 5 else if x >= 0.95 then 95 else (100.0 * x + 0.5).Floor }

  lemma ConfidenceRounds(sup: seq<Member>, c: nat, now: nat)
    requires sup != []
    ensures Confidence(sup, c, now) == Rounded(Base(sup, c, now))
  {
  }

  ghost function Strength(events: map<int, Row>, ids: set<int>, against: nat, now: nat): int {
    if ids == {} then 5 else Rounded(Merit(events, ids, against, now))
  }

  lemma MembersNext(events: map<int, Row>, ids: seq<int>)
    requires ids != [] && ids[|ids| - 1] in events
    ensures var n := |ids| - 1;
            MembersOf(events, ids) == MembersOf(events, ids[..n]) + [MemberAt(events[ids[n]], ids[n])]
  {
  }

  lemma WeightIs(events: map<int, Row>, x: int)
    requires x in events
    ensures Weight(events[x].group, events[x].polarity)
            == Weighed(if Telling(events)(x) then 1 else 0, if Middling(events)(x) then 1 else 0,
                       if Slight(events)(x) then 1 else 0)
  {
  }

  lemma WeighedAdds(a: nat, b: nat, c: nat, x: nat, y: nat, z: nat)
    ensures Weighed(a + x, b + y, c + z) == Weighed(a, b, c) + Weighed(x, y, z)
  {
  }

  lemma {:induction false} WeightsAdd(events: map<int, Row>, ids: seq<int>)
    requires Distinct(ids) && forall id | id in ids :: id in events
    ensures TotalWeight(MembersOf(events, ids))
            == Weighed(Count(Elements(ids), Telling(events)), Count(Elements(ids), Middling(events)),
                       Count(Elements(ids), Slight(events)))
  {
    if ids == [] {
      assert Elements(ids) == {};
    } else {
      var n := |ids| - 1;
      var front, x := Elements(ids[..n]), ids[n];
      assert Elements(ids) == front + {x} && x !in front;
      WeightsAdd(events, ids[..n]);
      MembersNext(events, ids);
      CountNext(front, x, Telling(events));
      CountNext(front, x, Middling(events));
      CountNext(front, x, Slight(events));
      WeightIs(events, x);
      WeighedAdds(Count(front, Telling(events)), Count(front, Middling(events)), Count(front, Slight(events)),
                  if Telling(events)(x) then 1 else 0, if Middling(events)(x) then 1 else 0,
                  if Slight(events)(x) then 1 else 0);
    }
  }

  lemma {:induction false} RecentCounts(events: map<int, Row>, ids: seq<int>, now: nat)
    requires Distinct(ids) && forall id | id in ids :: id in events
    ensures Recent(MembersOf(events, ids), now) == Count(Elements(ids), Lately(events, now))
  {
    if ids == [] {
      assert Elements(ids) == {};
    } else {
      var n := |ids| - 1;
      var front, x := Elements(ids[..n]), ids[n];
      assert Elements(ids) == front + {x} && x !in front;
      RecentCounts(events, ids[..n], now);
      MembersNext(events, ids);
      CountNext(front, x, Lately(events, now));
    }
  }

  /** What the members show is what the events show. */
  lemma {:induction false} MembersShow(events: map<int, Row>, ids: seq<int>)
    requires forall id | id in ids :: id in events
    ensures (set m <- MembersOf(events, ids) :: m.session) == SessionsOn(events, Elements(ids))
    ensures (set m <- MembersOf(events, ids) :: m.workspace) == PlacesOf(events, Elements(ids))
  {
    var ms := MembersOf(events, ids);
    if ids != [] {
      var n := |ids| - 1;
      var front, x := ids[..n], ids[n];
      assert Elements(ids) == Elements(front) + {x};
      MembersShow(events, front);
      MembersNext(events, ids);
      var before := MembersOf(events, front);
      assert (set m <- ms :: m.session) == (set m <- before :: m.session) + {events[x].session};
      assert (set m <- ms :: m.workspace) == (set m <- before :: m.workspace) + {events[x].workspace};
      assert SessionsOn(events, Elements(ids)) == SessionsOn(events, Elements(front)) + {events[x].session};
      assert PlacesOf(events, Elements(ids)) == PlacesOf(events, Elements(front)) + {events[x].workspace};
    }
  }

  lemma DiversityCounts(ms: seq<Member>)
    ensures Diversity(ms) == |set m <- ms :: m.session|
  {
    var on := set m <- ms :: m.session;
    var named, linked := set m <- ms | m.session.Some? :: m.session.value, set o | o in on && o.Some?;
    forall s ensures s in named <==> Some(s) in linked {}
    SameSize(named, linked);
    assert on == linked + if None in on then {None} else {};
  }

  lemma {:induction false} SameSize(named: set<string>, linked: set<Option<string>>)
    requires forall s :: s in named <==> Some(s) in linked
    requires None !in linked
    ensures |named| == |linked|
  {
    if named == {} {
      forall o: Option<string> | o.Some? ensures o !in linked { assert o.value !in named; }
      assert linked == {};
    } else {
      var s :| s in named;
      SameSize(named - {s}, linked - {Some(s)});
    }
  }

  lemma BaseIsMerit(events: map<int, Row>, ids: seq<int>, against: nat, now: nat)
    requires ids != [] && Distinct(ids) && forall id | id in ids :: id in events
    ensures MembersOf(events, ids) != [] && Elements(ids) != {}
    ensures Base(MembersOf(events, ids), against, now) == Merit(events, Elements(ids), against, now)
  {
    MembersPointwise(events, ids);
    DistinctCountsOnce(ids);
    assert ids[0] in Elements(ids);
    BaseIsBlend(MembersOf(events, ids), against, now);
    WeightsAdd(events, ids);
    RecentCounts(events, ids, now);
    MembersShow(events, ids);
    DiversityCounts(MembersOf(events, ids));
  }

  /** The confidence that is computed is the strength of the sides. */
  lemma ConfidenceIsStrength(events: map<int, Row>, ids: seq<int>, against: nat, now: nat)
    requires Distinct(ids) && forall id | id in ids :: id in events
    ensures Confidence(MembersOf(events, ids), against, now) == Strength(events, Elements(ids), against, now)
  {
    if ids == [] {
      assert Elements(ids) == {};
    } else {
      BaseIsMerit(events, ids, against, now);
      ConfidenceRounds(MembersOf(events, ids), against, now);
    }
  }

  // ── What an evaluation decides ─────────────────────────────────────────

  /** A global hypothesis needs five supporting events, or events from two workspaces. */
  ghost predicate Wide(l: Ledger, c: Candidate) {
    c.slot.scope == Global ==> |InFavour(l, c)| >= 5 || |PlacesOf(l.events, InFavour(l, c))| >= 2
  }

  /** Three events or more, wide enough, and more of them against it than for it. */
  ghost predicate Refuted(l: Ledger, c: Candidate) {
    |InFavour(l, c)| >= 3 && Wide(l, c) && |InOpposition(l, c)| > |InFavour(l, c)|
  }

  /** Three events or more, wide enough, fewer than half as many against it, and strong enough. */
  ghost predicate Favoured(l: Ledger, c: Candidate, now: nat) {
    && |InFavour(l, c)| >= 3 && Wide(l, c) && 2 * |InOpposition(l, c)| < |InFavour(l, c)|
    && Strength(l.events, InFavour(l, c), |InOpposition(l, c)|, now) >= 55
  }

  lemma LadderByCounts(global: bool, sup: seq<Member>, c: nat, now: nat)
    ensures var s, wide := |sup|, !global || |sup| >= 5 || Workspaces(sup) >= 2;
            && (Judge(global, sup, c, now) == Verdict.Rejected <==> s >= 3 && wide && c > s)
            && (Judge(global, sup, c, now) == Verdict.Accepted <==>
                  s >= 3 && wide && 2 * c < s && Confidence(sup, c, now) >= 55)
  {
  }

  lemma SidesAreMembers(l: Ledger, c: Candidate, now: nat)
    ensures var sup, against := MembersOf(l.events, VoicedFor(l.events, c)), |InOpposition(l, c)|;
            && |sup| == |InFavour(l, c)| && Workspaces(sup) == |PlacesOf(l.events, InFavour(l, c))|
            && |VoicedAgainst(l.events, c)| == against
            && Confidence(sup, against, now) == Strength(l.events, InFavour(l, c), against, now)
  {
    var yes := VoicedFor(l.events, c);
    SidesAreVoiced(l, c);
    MembersPointwise(l.events, yes);
    MembersShow(l.events, yes);
    ConfidenceIsStrength(l.events, yes, |InOpposition(l, c)|, now);
  }

  lemma VerdictBySides(l: Ledger, c: Candidate, now: nat)
    ensures VerdictFor(l, c, now) == Verdict.Rejected <==> Refuted(l, c)
    ensures VerdictFor(l, c, now) == Verdict.Accepted <==> Favoured(l, c, now)
    ensures Score(l, c, now) == Strength(l.events, InFavour(l, c), |InOpposition(l, c)|, now)
  {
    SidesAreMembers(l, c, now);
    LadderByCounts(c.slot.scope == Global, MembersOf(l.events, VoicedFor(l.events, c)), |InOpposition(l, c)|, now);
  }

  /** The candidate is stored and neither rejected, superseded nor expired. */
  predicate Undecided(l: Ledger, id: string) {
    id in l.candidates && l.candidates[id].stage !in {Stage.Rejected, Stage.Superseded, Stage.Expired}
  }

  /** Its inference is in place already, for exactly this evidence. */
  ghost predicate InPlace(l: Ledger, c: Candidate) {
    && c.inference.Some? && Holds(l, c.slot, c.inference.value)
    && Increasing(c.supporting) && Elements(c.supporting) == InFavour(l, c)
  }

  /** The record is the active inference of the slot. */
  predicate Holds(l: Ledger, slot: Slot, r: string) {
    r in l.records && l.records[r].slot == slot && l.records[r].authority == AiInferred && l.records[r].status == Active
  }

  lemma InPlaceIffUnchanged(l: Ledger, c: Candidate)
    requires OnePerSlot(l)
    ensures Unchanged(l, c) <==> InPlace(l, c)
  {
    SidesAreVoiced(l, c);
    if c.inference.Some? && Holds(l, c.slot, c.inference.value) {
      assert ActiveIn(l, c.slot, c.inference.value) && Inferred(l, c.inference.value);
      assert Inferred(l, Occupant(l, c.slot));
    }
    if Increasing(c.supporting) && Elements(c.supporting) == InFavour(l, c) {
      SameIncreasing(c.supporting, VoicedFor(l.events, c));
    }
  }

  lemma SameIncreasing(a: seq<int>, b: seq<int>)
    requires Increasing(a) && Increasing(b) && Elements(a) == Elements(b)
    ensures a == b
  {
    SortedUnique((x: int, y: int) => x < y, a, b);
  }

  /** Rejected exactly when refuted; accepted, or left evaluating for want of room, exactly when favoured; and deferred
      otherwise. It is left evaluating exactly when its inference is not in place and would cite more than 32 events. */
  lemma EvaluationDecides(l: Ledger, id: string, newId: string, now: nat)
    requires OnePerSlot(l) && Undecided(l, id)
    ensures var c, t := l.candidates[id], Evaluate(l, id, newId, now);
            && id in t.candidates
            && var stage := t.candidates[id].stage;
            && (stage == Stage.Rejected <==> Refuted(l, c))
            && (stage == Evaluating <==> Favoured(l, c, now) && !InPlace(l, c) && |InFavour(l, c)| > 32)
            && (stage == Stage.Accepted <==> Favoured(l, c, now) && (InPlace(l, c) || |InFavour(l, c)| <= 32))
            && (stage == Stage.Deferred <==> !Refuted(l, c) && !Favoured(l, c, now))
  {
    VerdictBySides(l, l.candidates[id], now);
    SidesAreVoiced(l, l.candidates[id]);
    InPlaceIffUnchanged(l, l.candidates[id]);
  }

  // ── What an evaluation leaves ──────────────────────────────────────────

  /** The row keeps what it is about and records its two sides, sorted, and their strength. */
  ghost predicate Reassessed(l: Ledger, c: Candidate, n: Candidate, now: nat) {
    && n.slot == c.slot && n.proposition == c.proposition && n.expiresAt == c.expiresAt
    && Increasing(n.supporting) && Elements(n.supporting) == InFavour(l, c)
    && Increasing(n.contradicting) && Elements(n.contradicting) == InOpposition(l, c)
    && n.confidence == Strength(l.events, InFavour(l, c), |InOpposition(l, c)|, now)
  }

  lemma JudgedIsReassessed(l: Ledger, c: Candidate, stage: Stage, now: nat)
    ensures Reassessed(l, c, Judged(l, c, stage, now), now)
  {
    SidesAreVoiced(l, c);
    VerdictBySides(l, c, now);
  }

  /** A candidate that is not favoured keeps its reference; the inference an accepted one had is rejected with it. */
  lemma LapseLeaves(l: Ledger, id: string, newId: string, now: nat)
    requires Undecided(l, id) && !Favoured(l, l.candidates[id], now)
    ensures var c, t := l.candidates[id], Evaluate(l, id, newId, now);
            && id in t.candidates
            && var n := t.candidates[id];
            && t.candidates == l.candidates[id := n] && t.events == l.events
            && Reassessed(l, c, n, now) && n.inference == c.inference
            && t.records ==
               if c.stage == Stage.Accepted && c.inference.Some? && c.inference.value in l.records
                  && l.records[c.inference.value].status == Active
               then l.records[c.inference.value := l.records[c.inference.value].(status := RecordStatus.Rejected)]
               else l.records
  {
    VerdictBySides(l, l.candidates[id], now);
    JudgedIsReassessed(l, l.candidates[id], Stage.Deferred, now);
    JudgedIsReassessed(l, l.candidates[id], Stage.Rejected, now);
  }

  /** A favoured candidate whose inference is in place is only brought up to date. */
  lemma StandingLeaves(l: Ledger, id: string, newId: string, now: nat)
    requires OnePerSlot(l) && Undecided(l, id) && Favoured(l, l.candidates[id], now) && InPlace(l, l.candidates[id])
    ensures var c, t := l.candidates[id], Evaluate(l, id, newId, now);
            && id in t.candidates
            && var n := t.candidates[id];
            && t == l.(candidates := l.candidates[id := n]) && Reassessed(l, c, n, now) && n.inference == c.inference
  {
    VerdictBySides(l, l.candidates[id], now);
    InPlaceIffUnchanged(l, l.candidates[id]);
    JudgedIsReassessed(l, l.candidates[id], Stage.Accepted, now);
  }

  /** Without room nothing is written but the stage. */
  lemma OverflowLeaves(l: Ledger, id: string, newId: string, now: nat)
    requires OnePerSlot(l) && Undecided(l, id) && Favoured(l, l.candidates[id], now)
    requires !InPlace(l, l.candidates[id]) && |InFavour(l, l.candidates[id])| > 32
    ensures Evaluate(l, id, newId, now)
            == l.(candidates := l.candidates[id := l.candidates[id].(stage := Evaluating)])
  {
    VerdictBySides(l, l.candidates[id], now);
    SidesAreVoiced(l, l.candidates[id]);
    InPlaceIffUnchanged(l, l.candidates[id]);
  }

  /** The records with the new inference: of the candidate's slot, wording and evidence, for half a year, superseding
      the active inference of the slot if there is one. */
  ghost predicate Inferring(l: Ledger, t: Ledger, n: Candidate, newId: string, now: nat) {
    && t.records.Keys == l.records.Keys + {newId}
    && (forall r | r in l.records ::
          t.records[r]
          == if Holds(l, n.slot, r) then l.records[r].(status := RecordStatus.Superseded) else l.records[r])
    && var i := t.records[newId];
    && i == Inference(n.slot, n.proposition, AiInferred, Active, n.supporting, n.confidence, i.supersedes,
                      now + 15_552_000)
    && (forall r :: i.supersedes == Some(r) <==> Holds(l, n.slot, r))
  }

  /** A favoured candidate with room is given a new inference. */
  lemma AcceptanceLeaves(l: Ledger, id: string, newId: string, now: nat)
    requires OnePerSlot(l) && Undecided(l, id) && Favoured(l, l.candidates[id], now) && newId !in l.records
    requires !InPlace(l, l.candidates[id]) && |InFavour(l, l.candidates[id])| <= 32
    ensures var c, t := l.candidates[id], Evaluate(l, id, newId, now);
            && id in t.candidates
            && var n := t.candidates[id];
            && t.candidates == l.candidates[id := n] && t.events == l.events
            && Reassessed(l, c, n, now) && n.inference == Some(newId) && Inferring(l, t, n, newId, now)
  {
    var c, t := l.candidates[id], Evaluate(l, id, newId, now);
    VerdictBySides(l, c, now);
    SidesAreVoiced(l, c);
    InPlaceIffUnchanged(l, c);
    JudgedIsReassessed(l, c, Stage.Accepted, now);
    PersistedIsInferring(l, t, c, newId, now);
  }

  lemma PersistedIsInferring(l: Ledger, t: Ledger, c: Candidate, newId: string, now: nat)
    requires OnePerSlot(l) && newId !in l.records && t.records == Persisted(l, c, newId, now)
    ensures Inferring(l, t, Judged(l, c, Stage.Accepted, now), newId, now)
  {
    forall r ensures Holds(l, c.slot, r) <==> Occupied(l, c.slot) && r == Occupant(l, c.slot) {
      if Holds(l, c.slot, r) {
        assert ActiveIn(l, c.slot, r);
        assert Inferred(l, r) && Inferred(l, Occupant(l, c.slot));
      }
    }
  }

  /** A candidate that was decided is not evaluated again. */
  lemma DecidedIsLeft(l: Ledger, id: string, newId: string, now: nat)
    requires !Undecided(l, id)
    ensures Evaluate(l, id, newId, now) == l
  {
  }

  // ── The other steps ────────────────────────────────────────────────────

  /** A user's rejection rejects the candidate and its active inference, whatever its stage. */
  lemma UserRejectionLeaves(l: Ledger, id: string)
    requires id in l.candidates
    ensures var c, t := l.candidates[id], Refuse(l, id);
            && t.candidates == l.candidates[id := c.(stage := Stage.Rejected)] && t.events == l.events
            && t.records.Keys == l.records.Keys
            && forall r | r in l.records ::
                 t.records[r] == if c.inference == Some(r) && l.records[r].status == Active
                                 then l.records[r].(status := RecordStatus.Rejected) else l.records[r]
  {
  }

  /** A confirmation by the user supersedes the candidate, and its active inference by a confirmed copy of it. */
  lemma ConfirmationLeaves(l: Ledger, id: string, said: bool, newId: string)
    requires newId !in l.records
    ensures var t := Confirm(l, id, said, newId);
            if said && id in l.candidates && l.candidates[id].stage == Stage.Accepted
               && l.candidates[id].inference.Some? && l.candidates[id].inference.value in l.records
               && l.records[l.candidates[id].inference.value].status == Active
            then
              var c, r := l.candidates[id], l.candidates[id].inference.value; var was := l.records[r];
              && t.candidates == l.candidates[id := c.(stage := Stage.Superseded, inference := Some(newId))]
              && t.events == l.events
              && t.records == l.records[r := was.(status := RecordStatus.Superseded)]
                                       [newId := Inference(was.slot, was.content, UserConfirmed, Active, was.evidence,
                                                           90, Some(r), was.expiresAt)]
            else t == l
  {
  }

  /** A detection writes an open row for ninety days over one that is open, refreshes an accepted one, and leaves a
      decided one alone. */
  lemma DetectionLeaves(
      l: Ledger, id: string, slot: Slot, proposition: string, sup: seq<int>, con: seq<int>, confidence: int, now: nat)
    ensures var t := Propose(l, id, slot, proposition, sup, con, confidence, now);
            t == if id in l.candidates && l.candidates[id].stage in {Stage.Rejected, Stage.Superseded, Stage.Expired}
                 then l
                 else if id in l.candidates && l.candidates[id].stage == Stage.Accepted
                 then l.(candidates := l.candidates[id := l.candidates[id].(
                        supporting := sup, contradicting := con, confidence := confidence,
                        expiresAt := now + 7_776_000)])
                 else l.(candidates := l.candidates[id :=
                        Candidate(slot, proposition, sup, con, confidence, Proposed, now + 7_776_000, None)])
  {
  }

  /** Past their time open candidates expire, and active inferences do; nothing else does. */
  lemma ExpiryLeaves(l: Ledger, now: nat)
    ensures var t := ExpireRecords(ExpireCandidates(l, now), now);
            && t.candidates.Keys == l.candidates.Keys && t.records.Keys == l.records.Keys && t.events == l.events
            && (forall id | id in l.candidates ::
                  var c := l.candidates[id];
                  t.candidates[id] == if c.stage in {Proposed, Evaluating, Stage.Deferred} && c.expiresAt < now
                                      then c.(stage := Stage.Expired) else c)
            && (forall r | r in l.records ::
                  var i := l.records[r];
                  t.records[r] == if i.status == Active && i.expiresAt < now
                                  then i.(status := RecordStatus.Expired) else i)
  {
  }
}
