/** From fetched events to the candidate table: the detector's write and the evaluation that follows it. */
module Detections {
  import opened Common
  import opened Records
  import opened Miner
  import opened Ranking
  import SkillReuse
  import opened Evaluation
  import opened Proposals
  import Learning
  import opened Outcomes

  /** The ledger holds the fetched events, in the scope of the detection and of kinds that count. */
  ghost predicate HoldsFetched(l: Learning.Ledger, slot: Learning.Slot, events: seq<ReuseEvent>) {
    forall i | 0 <= i < |events| ::
      && Learning.Counts(l.events, slot, events[i].id) && l.events[events[i].id].session == Some(events[i].session)
      && l.events[events[i].id].group != Ignored
  }

  /** An id gathered from some sessions is that of a fetched event of one of them. */
  lemma GatheredIsFetched(
      events: seq<ReuseEvent>, traces: map<string, Trace>, p: seq<string>, ids: seq<int>, x: int) returns (n: nat)
    requires SkillReuse.UniqueIds(events) && x in ids
    requires forall sid | sid in traces :: traces[sid] == SkillReuse.SessionTrace(events, sid)
    requires exists m :: Gathered(traces, p, m) && Elements(ids) == Flatten(m)
    ensures n < |events| && events[n].id == x && events[n].session in traces && x in traces[events[n].session].ids
  {
    var sid := GatheredIsTraced(traces, p, ids, x);
    n := TracedIsFetched(events, sid, x);
  }

  lemma GatheredIsTraced(traces: map<string, Trace>, p: seq<string>, ids: seq<int>, x: int) returns (sid: string)
    requires x in ids && exists m :: Gathered(traces, p, m) && Elements(ids) == Flatten(m)
    ensures sid in traces && x in traces[sid].ids
  {
    var m :| Gathered(traces, p, m) && Elements(ids) == Flatten(m);
    assert x in Elements(ids);
    InFlatten(m, x);
    sid :| sid in m && x in m[sid];
    var t := traces[sid];
    var at: nat :| FirstAt(t.tools, p, at) && at + |p| <= |t.ids| && m[sid] == t.ids[at..at + |p|];
  }

  lemma TracedIsFetched(events: seq<ReuseEvent>, sid: string, x: int) returns (n: nat)
    requires SkillReuse.UniqueIds(events) && x in SkillReuse.SessionTrace(events, sid).ids
    ensures n < |events| && events[n].id == x && events[n].session == sid
  {
    var t := SkillReuse.SessionTrace(events, sid);
    var k :| 0 <= k < |t.ids| && t.ids[k] == x;
    SkillReuse.TraceIds(events, sid);
    n :| 0 <= n < |events| && events[n].session == sid && events[n].id == t.ids[k];
  }

  /** Support comes from successful sessions, contradiction from failed ones: no event is on both sides. */
  lemma SidesAreApart(events: seq<ReuseEvent>, q: Pattern, x: int)
    requires SkillReuse.UniqueIds(events)
    requires Scores(SkillReuse.GoodTraces(events), SkillReuse.FailedTraces(events), q) && x in q.support
    ensures x !in q.contra
  {
    var n := GatheredIsFetched(events, SkillReuse.GoodTraces(events), q.tools, q.support, x);
    if x in q.contra {
      var k := GatheredIsFetched(events, SkillReuse.FailedTraces(events), q.tools, q.contra, x);
      OneSession(events, n, k);
      NotBoth(events, events[n].session);
    }
  }

  lemma OneSession(events: seq<ReuseEvent>, n: nat, k: nat)
    requires SkillReuse.UniqueIds(events) && n < |events| && k < |events| && events[n].id == events[k].id
    ensures events[n].session == events[k].session
  {}

  lemma NotBoth(events: seq<ReuseEvent>, sid: string)
    ensures !(sid in SkillReuse.GoodTraces(events) && sid in SkillReuse.FailedTraces(events))
  {}

  lemma SidesCount(events: seq<ReuseEvent>, q: Pattern, l: Learning.Ledger, slot: Learning.Slot)
    requires SkillReuse.UniqueIds(events) && HoldsFetched(l, slot, events)
    requires Scores(SkillReuse.GoodTraces(events), SkillReuse.FailedTraces(events), q)
    ensures forall x | x in q.support :: Learning.Counts(l.events, slot, x) && x !in q.contra
    ensures forall x | x in q.contra :: Learning.Counts(l.events, slot, x)
  {
    forall x | x in q.support ensures Learning.Counts(l.events, slot, x) && x !in q.contra {
      var n := GatheredIsFetched(events, SkillReuse.GoodTraces(events), q.tools, q.support, x);
      SidesAreApart(events, q, x);
    }
    forall x | x in q.contra ensures Learning.Counts(l.events, slot, x) {
      var n := GatheredIsFetched(events, SkillReuse.FailedTraces(events), q.tools, q.contra, x);
    }
  }

  lemma SupportIsEvidence(events: seq<ReuseEvent>, q: Pattern, l: Learning.Ledger, slot: Learning.Slot)
    requires SkillReuse.UniqueIds(events) && HoldsFetched(l, slot, events)
    requires Scores(SkillReuse.GoodTraces(events), SkillReuse.FailedTraces(events), q)
    ensures Evidence(SkillReuse.GoodTraces(events), q.support, Learning.MembersOf(l.events, q.support))
  {
    var good, sup := SkillReuse.GoodTraces(events), Learning.MembersOf(l.events, q.support);
    SidesCount(events, q, l, slot);
    MembersPointwise(l.events, q.support);
    forall i | 0 <= i < |sup|
      ensures && sup[i].id == q.support[i] && sup[i].group != Ignored
              && sup[i].session.Some? && sup[i].session.value in good && sup[i].id in good[sup[i].session.value].ids
    {
      var n := GatheredIsFetched(events, good, q.tools, q.support, q.support[i]);
    }
  }

  /** The detector writes a new candidate, or rewrites one that is still open. */
  predicate Open(l: Learning.Ledger, id: string) {
    id in l.candidates ==> l.candidates[id].stage in {Learning.Proposed, Learning.Evaluating, Learning.Stage.Deferred}
  }

  function Written(
      l: Learning.Ledger, id: string, slot: Learning.Slot, proposition: string, q: Pattern, confidence: int, now: nat)
    : Learning.Ledger
  {
    Learning.Propose(l, id, slot, proposition, FirstHundred(q.support), FirstHundred(q.contra), confidence, now)
  }

  /** What the detector writes for a pattern it found is the candidate that the outcome theorems speak of. */
  lemma DetectedIsProposed(
      events: seq<ReuseEvent>, q: Pattern, l: Learning.Ledger, id: string, slot: Learning.Slot, proposition: string,
      confidence: int, now: nat)
    requires SkillReuse.UniqueIds(events) && HoldsFetched(l, slot, events) && Open(l, id)
    requires Scores(SkillReuse.GoodTraces(events), SkillReuse.FailedTraces(events), q)
    ensures var t := Written(l, id, slot, proposition, q, confidence, now);
            && t.events == l.events && Proposes(t, id, q)
            && Evidence(SkillReuse.GoodTraces(events), q.support, Learning.MembersOf(t.events, q.support))
  {
    SidesCount(events, q, l, slot);
    WrittenProposes(l, id, slot, proposition, q, confidence, now);
    SupportIsEvidence(events, q, l, slot);
  }

  lemma WrittenProposes(
      l: Learning.Ledger, id: string, slot: Learning.Slot, proposition: string, q: Pattern, confidence: int, now: nat)
    requires Open(l, id) && forall x | x in q.support :: Learning.Counts(l.events, slot, x) && x !in q.contra
    requires forall x | x in q.contra :: Learning.Counts(l.events, slot, x)
    ensures var t := Written(l, id, slot, proposition, q, confidence, now); t.events == l.events && Proposes(t, id, q)
  {}

  /** Detect, write, evaluate: a pattern found in the fetched events, contained in no failed session, ends accepted
      exactly when it cites no more events than a record may, and is left evaluating exactly when it cites more. */
  lemma DetectedIsAcceptedIff(
      events: seq<ReuseEvent>, q: Pattern, l: Learning.Ledger, id: string, slot: Learning.Slot, proposition: string,
      confidence: int, newId: string, now: nat)
    requires SkillReuse.UniqueIds(events) && HoldsFetched(l, slot, events) && Open(l, id)
    requires Scores(SkillReuse.GoodTraces(events), SkillReuse.FailedTraces(events), q)
    requires Containing(SkillReuse.FailedTraces(events), q.tools) == {}
    ensures var t := Learning.Evaluate(Written(l, id, slot, proposition, q, confidence, now), id, newId, now);
            && (EndsAs(t, id, Learning.Stage.Accepted) <==> |q.support| <= Learning.MAX_CITATIONS)
            && (EndsAs(t, id, Learning.Evaluating) <==> |q.support| > Learning.MAX_CITATIONS)
  {
    DetectedIsProposed(events, q, l, id, slot, proposition, confidence, now);
    SkillReuse.TracesAreUnique(events);
    UncontradictedIsAcceptedIff(SkillReuse.GoodTraces(events), SkillReuse.FailedTraces(events), q,
                                Written(l, id, slot, proposition, q, confidence, now), id, newId, now);
  }
}
