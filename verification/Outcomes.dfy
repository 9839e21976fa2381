/** What becomes of a mined pattern once it is a learning candidate: verdict and write together. */
module Outcomes {
  import opened Common
  import opened Records
  import opened Miner
  import Ranking
  import opened Evaluation
  import opened Proposals
  import opened Learning

  // ── Evidence that all stands ───────────────────────────────────────────

  lemma {:induction false} KeptConcat(events: map<int, Row>, slot: Slot, a: seq<int>, b: seq<int>, wanted: int -> bool)
    ensures Kept(events, slot, a + b, wanted) == Kept(events, slot, a, wanted) + Kept(events, slot, b, wanted)
  {
    if b == [] {
      assert a + b == a;
    } else {
      KeptConcat(events, slot, a, b[..|b| - 1], wanted);
      assert (a + b)[..|a + b| - 1] == a + b[..|b| - 1];
    }
  }

  lemma {:induction false} KeptAll(events: map<int, Row>, slot: Slot, ids: seq<int>, wanted: int -> bool)
    requires forall id | id in ids :: Counts(events, slot, id) && wanted(id)
    ensures Kept(events, slot, ids, wanted) == ids
  {
    if ids != [] {
      assert ids == ids[..|ids| - 1] + [ids[|ids| - 1]];
      KeptAll(events, slot, ids[..|ids| - 1], wanted);
    }
  }

  lemma {:induction false} KeptNone(events: map<int, Row>, slot: Slot, ids: seq<int>, wanted: int -> bool)
    requires forall id | id in ids :: !wanted(id)
    ensures Kept(events, slot, ids, wanted) == []
  {
    if ids != [] {
      assert ids == ids[..|ids| - 1] + [ids[|ids| - 1]];
      KeptNone(events, slot, ids[..|ids| - 1], wanted);
    }
  }

  /** Sorted, disjoint evidence that exists in scope. */
  ghost predicate Stands(events: map<int, Row>, c: Candidate) {
    && Increasing(c.supporting) && Increasing(c.contradicting)
    && (forall id | id in c.supporting :: Counts(events, c.slot, id) && id !in c.contradicting)
    && (forall id | id in c.contradicting :: Counts(events, c.slot, id))
  }

  lemma StandingSupports(events: map<int, Row>, c: Candidate)
    requires Stands(events, c)
    ensures VoicedFor(events, c) == c.supporting
  {
    KeptConcat(events, c.slot, c.supporting, c.contradicting, Supports(c));
    KeptAll(events, c.slot, c.supporting, Supports(c));
    KeptNone(events, c.slot, c.contradicting, Supports(c));
    assert c.supporting + [] == c.supporting;
    SortIdsFixes(c.supporting);
  }

  lemma StandingOpposes(events: map<int, Row>, c: Candidate)
    requires Stands(events, c)
    ensures VoicedAgainst(events, c) == c.contradicting
  {
    KeptConcat(events, c.slot, c.supporting, c.contradicting, Opposes(c));
    KeptNone(events, c.slot, c.supporting, Opposes(c));
    KeptAll(events, c.slot, c.contradicting, Opposes(c));
    assert [] + c.contradicting == c.contradicting;
    SortIdsFixes(c.contradicting);
  }

  /** Voicing changes nothing of it. */
  lemma StandingIsVoiced(events: map<int, Row>, c: Candidate)
    requires Stands(events, c)
    ensures VoicedFor(events, c) == c.supporting && VoicedAgainst(events, c) == c.contradicting
  {
    StandingSupports(events, c);
    StandingOpposes(events, c);
  }

  lemma KeptMissing(events: map<int, Row>, slot: Slot, x: int, wanted: int -> bool)
    requires x !in events
    ensures Kept(events, slot, [x], wanted) == []
  {
    assert [x][..0] == [];
  }

  lemma KeptButMissing(events: map<int, Row>, slot: Slot, ids: seq<int>, x: int, wanted: int -> bool)
    requires x !in events && forall id | id in ids :: Counts(events, slot, id) && wanted(id)
    ensures Kept(events, slot, ids + [x], wanted) == ids
  {
    KeptConcat(events, slot, ids, [x], wanted);
    KeptAll(events, slot, ids, wanted);
    KeptMissing(events, slot, x, wanted);
  }

  /** An id that does not exist is dropped, the others stay. */
  lemma MissingIsDropped(events: map<int, Row>, c: Candidate, ids: seq<int>, x: int)
    requires c.supporting == ids + [x] && c.contradicting == [] && Increasing(ids) && x !in events
    requires forall id | id in ids :: Counts(events, c.slot, id)
    ensures VoicedFor(events, c) == ids && VoicedAgainst(events, c) == []
  {
    assert Cited(c) == ids + [x];
    assert VoicedFor(events, c) == ids by {
      KeptButMissing(events, c.slot, ids, x, Supports(c));
      SortIdsFixes(ids);
    }
    KeptNone(events, c.slot, ids + [x], Opposes(c));
  }

  function MemberAt(e: Row, id: int): Member { Member(id, e.group, e.polarity, e.createdAt, e.session, e.workspace) }

  lemma {:induction false} MembersPointwise(events: map<int, Row>, ids: seq<int>)
    requires forall id | id in ids :: id in events
    ensures |MembersOf(events, ids)| == |ids|
    ensures forall i | 0 <= i < |ids| ::
              ids[i] in events && MembersOf(events, ids)[i] == MemberAt(events[ids[i]], ids[i])
  {
    if ids != [] {
      var n := |ids| - 1;
      assert ids == ids[..n] + [ids[n]];
      MembersPointwise(events, ids[..n]);
    }
  }

  /** The cut at a hundred commutes with looking the events up. */
  lemma MembersOfCut(events: map<int, Row>, ids: seq<int>)
    requires forall id | id in ids :: id in events
    ensures MembersOf(events, FirstHundred(ids)) == FirstHundred(MembersOf(events, ids))
  {
    var cut := FirstHundred(ids);
    assert forall i | 0 <= i < |cut| :: cut[i] == ids[i];
    MembersPointwise(events, ids);
    MembersPointwise(events, cut);
  }

  // ── Evaluating a fresh candidate ───────────────────────────────────────

  function StageFor(v: Verdict, citations: nat): Stage {
    match v
    case Accepted => if citations <= MAX_CITATIONS then Stage.Accepted else Evaluating
    case Deferred(_) => Stage.Deferred
    case Rejected => Stage.Rejected
  }

  ghost predicate EndsAs(l: Ledger, id: string, stage: Stage) { id in l.candidates && l.candidates[id].stage == stage }

  lemma FavouredStage(l: Ledger, id: string, newId: string, now: nat)
    requires Evaluable(l, id) && l.candidates[id].inference.None?
        && VerdictFor(l, l.candidates[id], now) == Verdict.Accepted
    ensures |VoicedFor(l.events, l.candidates[id])| <= MAX_CITATIONS ==>
        EndsAs(Evaluate(l, id, newId, now), id, Stage.Accepted)
    ensures |VoicedFor(l.events, l.candidates[id])| > MAX_CITATIONS ==>
        EndsAs(Evaluate(l, id, newId, now), id, Evaluating)
  {
    assert !Unchanged(l, l.candidates[id]);
  }

  lemma LapsedStage(l: Ledger, id: string, newId: string, now: nat)
    requires Evaluable(l, id) && VerdictFor(l, l.candidates[id], now) != Verdict.Accepted
    ensures EndsAs(Evaluate(l, id, newId, now), id, StageFor(VerdictFor(l, l.candidates[id], now), 0))
  {}

  /** A candidate without an inference ends where its verdict says, unless acceptance would cite too much. */
  lemma FreshStage(l: Ledger, id: string, newId: string, now: nat)
    requires Evaluable(l, id) && l.candidates[id].inference.None? && Stands(l.events, l.candidates[id])
    ensures EndsAs(Evaluate(l, id, newId, now), id,
        StageFor(VerdictFor(l, l.candidates[id], now), |l.candidates[id].supporting|))
  {
    StandingIsVoiced(l.events, l.candidates[id]);
    if VerdictFor(l, l.candidates[id], now) == Verdict.Accepted {
      FavouredStage(l, id, newId, now);
    } else {
      LapsedStage(l, id, newId, now);
    }
  }

  // ── Mined patterns ─────────────────────────────────────────────────────

  /** The candidate the detector writes for a pattern: fresh, with both sides of the evidence cut at a hundred. */
  ghost predicate Proposes(l: Ledger, id: string, q: Ranking.Pattern) {
    && id in l.candidates
    && var c := l.candidates[id];
    && c.stage == Proposed && c.inference.None?
    && c.supporting == FirstHundred(q.support) && c.contradicting == FirstHundred(q.contra)
    && (forall x | x in q.support :: Counts(l.events, c.slot, x) && x !in q.contra)
    && (forall x | x in q.contra :: Counts(l.events, c.slot, x))
  }

  /** What a pattern's evidence is like once it has passed the gates. */
  ghost predicate Gated(q: Ranking.Pattern) {
    Increasing(q.support) && Increasing(q.contra) && |q.support| >= 6 && 2 * |q.contra| < |q.support|
  }

  lemma ScoredIsGated(good: map<string, Trace>, failed: map<string, Trace>, q: Ranking.Pattern)
    requires Ranking.Scores(good, failed, q)
    ensures Gated(q)
  {
    SupportIsLarge(good, failed, q);
  }

  lemma ProposalStands(q: Ranking.Pattern, l: Ledger, id: string)
    requires Gated(q) && Proposes(l, id, q)
    ensures Stands(l.events, l.candidates[id])
  {
    CutIsPart(q.support);
    CutIsPart(q.contra);
  }

  lemma CutIsPart(ids: seq<int>)
    requires Increasing(ids)
    ensures Increasing(FirstHundred(ids)) && forall x | x in FirstHundred(ids) :: x in ids
  {}

  lemma ProposalIsJudged(q: Ranking.Pattern, l: Ledger, id: string, now: nat)
    requires Gated(q) && Proposes(l, id, q)
    ensures VerdictFor(l, l.candidates[id], now)
            == Judge(l.candidates[id].slot.scope == Global, FirstHundred(MembersOf(l.events, q.support)),
                |FirstHundred(q.contra)|, now)
  {
    ProposalStands(q, l, id);
    StandingIsVoiced(l.events, l.candidates[id]);
    MembersOfCut(l.events, q.support);
  }

  lemma ProposalStage(q: Ranking.Pattern, l: Ledger, id: string, newId: string, now: nat)
    requires Gated(q) && Proposes(l, id, q)
    ensures EndsAs(Evaluate(l, id, newId, now), id, StageFor(VerdictFor(l, l.candidates[id], now), |q.support|))
  {
    ProposalStands(q, l, id);
    FreshStage(l, id, newId, now);
  }

  /** The verdict on what has passed the gates, after the cut: never a rejection, and weak at worst exactly when the cut
      does not hide the majority. */
  lemma NeverRejected(q: Ranking.Pattern, l: Ledger, id: string, now: nat)
    requires Gated(q) && Proposes(l, id, q)
    ensures var v := VerdictFor(l, l.candidates[id], now);
            && v != Verdict.Rejected
            && (v in {Verdict.Accepted, Verdict.Deferred(Weak)} <==> |q.support| <= MAX_EVIDENCE || |q.contra| < 50)
  {
    ProposalIsJudged(q, l, id, now);
    MembersPointwise(l.events, q.support);
    var con: seq<Member> := seq(|q.contra|, i => Member(0, Ignored, Neutral, 0, None, ""));
    DetectorsAgreeWithJudge(l.candidates[id].slot.scope == Global, MembersOf(l.events, q.support), con, now);
  }

  // ── The end-to-end results ─────────────────────────────────────────────

  lemma UncontradictedIsFavoured(
      good: map<string, Trace>, failed: map<string, Trace>, q: Ranking.Pattern, l: Ledger, id: string, now: nat)
    requires Ranking.UniqueEvents(good) && Ranking.Scores(good, failed, q) && Ranking.Containing(failed, q.tools) == {}
    requires Proposes(l, id, q) && Evidence(good, q.support, MembersOf(l.events, q.support))
    ensures VerdictFor(l, l.candidates[id], now) == Verdict.Accepted
  {
    ScoredIsGated(good, failed, q);
    ProposalIsJudged(q, l, id, now);
    UncontradictedVerdict(good, failed, q, MembersOf(l.events, q.support), l.candidates[id].slot.scope == Global, now);
  }

  /** From the detector to the table: an uncontradicted pattern becomes an accepted candidate exactly when it cites no
      more events than a record may; above that the evaluation breaks off and leaves it evaluating. */
  lemma UncontradictedIsAcceptedIff(
      good: map<string, Trace>, failed: map<string, Trace>, q: Ranking.Pattern, l: Ledger, id: string, newId: string,
      now: nat)
    requires Ranking.UniqueEvents(good) && Ranking.Scores(good, failed, q) && Ranking.Containing(failed, q.tools) == {}
    requires Proposes(l, id, q) && Evidence(good, q.support, MembersOf(l.events, q.support))
    ensures var t := Evaluate(l, id, newId, now);
            && (EndsAs(t, id, Stage.Accepted) <==> |q.support| <= MAX_CITATIONS)
            && (EndsAs(t, id, Evaluating) <==> |q.support| > MAX_CITATIONS)
  {
    ScoredIsGated(good, failed, q);
    UncontradictedIsFavoured(good, failed, q, l, id, now);
    ProposalStage(q, l, id, newId, now);
  }

  /** Any pattern the detector proposes ends accepted, deferred, or stuck half-way, never rejected: stuck exactly
      when the verdict is in its favour and it cites more events than a record may. */
  lemma ProposalOutcome(
      good: map<string, Trace>, failed: map<string, Trace>, q: Ranking.Pattern, l: Ledger, id: string, newId: string,
      now: nat)
    requires Ranking.Scores(good, failed, q) && Proposes(l, id, q)
    ensures var t, v := Evaluate(l, id, newId, now), VerdictFor(l, l.candidates[id], now);
            && (v in {Verdict.Accepted, Verdict.Deferred(Weak)} <==> |q.support| <= MAX_EVIDENCE || |q.contra| < 50)
            && (EndsAs(t, id, Stage.Accepted) <==> v == Verdict.Accepted && |q.support| <= MAX_CITATIONS)
            && (EndsAs(t, id, Evaluating) <==> v == Verdict.Accepted && |q.support| > MAX_CITATIONS)
            && (EndsAs(t, id, Stage.Deferred) <==> v != Verdict.Accepted)
  {
    ScoredIsGated(good, failed, q);
    NeverRejected(q, l, id, now);
    ProposalStage(q, l, id, newId, now);
  }
}
