/** From the detector to the judge: what becomes of the patterns that are proposed. */
module Proposals {
  import opened Common
  import opened Miner
  import opened Ranking
  import opened Evaluation

  /** `sup` are the events behind the pattern's supporting ids, each in the session it was mined from. */
  ghost predicate Evidence(good: map<string, Trace>, support: seq<int>, sup: seq<Member>) {
    && |sup| == |support|
    && forall i | 0 <= i < |sup| ::
         && sup[i].id == support[i] && sup[i].group != Ignored
         && sup[i].session.Some? && sup[i].session.value in good && sup[i].id in good[sup[i].session.value].ids
  }

  ghost function IdsIn(ms: seq<Member>, x: string): set<int> { set m | m in ms && In(m, {x}) :: m.id }

  lemma IdsInNext(front: seq<Member>, last: Member, x: string)
    requires forall m | m in front :: m.id != last.id
    ensures |IdsIn(front + [last], x)| == |IdsIn(front, x)| + if In(last, {x}) then 1 else 0
  {
    var before := IdsIn(front, x);
    assert last.id !in before;
    assert IdsIn(front + [last], x) == if In(last, {x}) then before + {last.id} else before;
  }

  lemma {:induction false} CountByIds(ms: seq<Member>, x: string)
    requires forall i, j | 0 <= i < j < |ms| :: ms[i].id != ms[j].id
    ensures CountIn(ms, {x}) == |IdsIn(ms, x)|
  {
    if ms == [] {
      assert IdsIn(ms, x) == {};
    } else {
      var front, last := ms[..|ms| - 1], ms[|ms| - 1];
      CountByIds(front, x);
      assert ms == front + [last];
      IdsInNext(front, last, x);
    }
  }

  /** An id gathered from the sessions belongs to the session whose trace holds it. */
  lemma GatheredFromOwnSession(good: map<string, Trace>, p: seq<string>, m: map<string, seq<int>>, id: int, x: string)
    requires UniqueEvents(good) && Gathered(good, p, m) && id in Flatten(m) && x in good && id in good[x].ids
    ensures x in m && id in m[x]
  {
    InFlatten(m, id);
    var sid :| sid in m && id in m[sid];
    var at: nat :| FirstAt(good[sid].tools, p, at) && at + |p| <= |good[sid].ids|
        && m[sid] == good[sid].ids[at..at + |p|];
    assert id in good[sid].ids;
    var i :| 0 <= i < |good[sid].ids| && good[sid].ids[i] == id;
    var j :| 0 <= j < |good[x].ids| && good[x].ids[j] == id;
  }

  lemma OwnIdsGathered(
      good: map<string, Trace>, p: seq<string>, support: seq<int>, sup: seq<Member>, m: map<string, seq<int>>,
      s: Member)
    requires UniqueEvents(good) && Evidence(good, support, sup) && Gathered(good, p, m)
        && Elements(support) == Flatten(m)
    requires s in sup
    ensures s.session.Some? && s.session.value in m && s.id in m[s.session.value]
  {
    var i :| 0 <= i < |sup| && sup[i] == s;
    assert support[i] in Elements(support);
    GatheredFromOwnSession(good, p, m, s.id, s.session.value);
  }

  lemma FewPerSession(
      good: map<string, Trace>, p: seq<string>, support: seq<int>, sup: seq<Member>, m: map<string, seq<int>>,
      x: string)
    requires UniqueEvents(good) && Evidence(good, support, sup) && Gathered(good, p, m)
        && Elements(support) == Flatten(m)
    requires Increasing(support)
    ensures CountIn(sup, {x}) <= |p|
  {
    CountByIds(sup, x);
    var own := IdsIn(sup, x);
    if own != {} {
      forall id | id in own ensures x in m && id in m[x] {
        var s :| s in sup && In(s, {x}) && s.id == id;
        OwnIdsGathered(good, p, support, sup, m, s);
      }
      assert |m[x]| == |p| && Distinct(m[x]) by { GatheredCounts(good, p, m); }
      DistinctCountsOnce(m[x]);
      SubsetSize(own, Elements(m[x]));
    }
  }

  lemma SessionIsCited(
      good: map<string, Trace>, p: seq<string>, support: seq<int>, sup: seq<Member>, m: map<string, seq<int>>,
      sid: string)
    requires UniqueEvents(good) && Evidence(good, support, sup) && Gathered(good, p, m)
        && Elements(support) == Flatten(m)
    requires sid in m && p != []
    ensures sid in SessionsOf(sup)
  {
    var at: nat :| FirstAt(good[sid].tools, p, at) && at + |p| <= |good[sid].ids|
        && m[sid] == good[sid].ids[at..at + |p|];
    var id := m[sid][0];
    assert id == good[sid].ids[at];
    InFlatten(m, id);
    assert id in Elements(support);
    var i :| 0 <= i < |support| && support[i] == id;
    SameSession(good, id, sid, sup[i].session.value);
    assert sup[i] in sup;
  }

  lemma SameSession(good: map<string, Trace>, id: int, a: string, b: string)
    requires UniqueEvents(good) && a in good && b in good && id in good[a].ids && id in good[b].ids
    ensures a == b
  {
    var i :| 0 <= i < |good[a].ids| && good[a].ids[i] == id;
    var j :| 0 <= j < |good[b].ids| && good[b].ids[j] == id;
  }

  lemma ProductBounds(n: nat, s: nat, f: nat)
    requires MIN_LEN <= n <= MAX_LEN && s >= MIN_SESSIONS && 2 * f < s
    ensures n * s >= MIN_LEN * MIN_SESSIONS && 2 * (n * f) < n * s && (f == 0 ==> n * f == 0)
  {
    assert n == 2 || n == 3 || n == 4 || n == 5;
  }

  lemma SupportIsLarge(good: map<string, Trace>, failed: map<string, Trace>, q: Pattern)
    requires Scores(good, failed, q)
    ensures |q.support| >= MIN_LEN * MIN_SESSIONS && 2 * |q.contra| < |q.support|
    ensures Containing(failed, q.tools) == {} ==> |q.contra| == 0
  {
    ProductBounds(|q.tools|, q.sessions, |Containing(failed, q.tools)|);
  }

  /** The evidence of a proposal is spread thinly over at least three sessions. */
  lemma ProposalEvidence(good: map<string, Trace>, failed: map<string, Trace>, q: Pattern, sup: seq<Member>)
    requires UniqueEvents(good) && Scores(good, failed, q) && Evidence(good, q.support, sup)
    ensures MinedEvidence(sup) && |SessionsOf(sup)| >= MIN_SESSIONS
  {
    var m :| Gathered(good, q.tools, m) && Elements(q.support) == Flatten(m);
    forall x ensures CountIn(sup, {x}) <= MAX_LEN { FewPerSession(good, q.tools, q.support, sup, m, x); }
    forall s | s in sup ensures s.session.Some? && s.group != Ignored {
      var i :| 0 <= i < |sup| && sup[i] == s;
    }
    forall sid | sid in Containing(good, q.tools) ensures sid in SessionsOf(sup) {
      SessionIsCited(good, q.tools, q.support, sup, m, sid);
    }
    SubsetSize(Containing(good, q.tools), SessionsOf(sup));
  }

  /** The verdict on a proposed pattern that no failed session contradicts is in favour, whatever the age of its
      events and in whatever scope, with a confidence above both floors. */
  lemma UncontradictedVerdict(
      good: map<string, Trace>, failed: map<string, Trace>, q: Pattern, sup: seq<Member>, global: bool, now: nat)
    requires UniqueEvents(good) && Scores(good, failed, q) && Evidence(good, q.support, sup)
        && Containing(failed, q.tools) == {}
    ensures Judge(global, FirstHundred(sup), |FirstHundred(q.contra)|, now) == Accepted
    ensures Confidence(FirstHundred(sup), |FirstHundred(q.contra)|, now) >= 76
  {
    ProposalEvidence(good, failed, q, sup);
    SupportIsLarge(good, failed, q);
    MinedPatternsClearFloors(global, sup, now);
  }

  /** The verdict on any proposed pattern is in favour, or against only for weak confidence, exactly when it has at
      most a hundred supporting ids or fewer than fifty contradicting ones. */
  lemma ProposalVerdict(
      good: map<string, Trace>, failed: map<string, Trace>, q: Pattern, sup: seq<Member>, con: seq<Member>,
      global: bool, now: nat)
    requires Scores(good, failed, q) && |sup| == |q.support| && |con| == |q.contra|
    ensures Judge(global, FirstHundred(sup), |FirstHundred(con)|, now) in {Accepted, Deferred(Weak)}
            <==> |q.support| <= MAX_EVIDENCE || |q.contra| < 50
  {
    SupportIsLarge(good, failed, q);
    DetectorsAgreeWithJudge(global, sup, con, now);
  }
}
