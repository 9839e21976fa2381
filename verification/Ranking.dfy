/** From mined runs to the few that are proposed: gates, ranking and the domination filter. */
module Ranking {
  import opened Common
  import opened Miner

  /** A qualified run with its supporting sessions and its sorted evidence ids on both sides. */
  datatype Pattern = Pattern(tools: seq<string>, sessions: nat, support: seq<int>, contra: seq<int>)

  // ── Evidence ids ───────────────────────────────────────────────────────

  /** Sort and drop repeats. */
  method SortDedup(ids: seq<int>) returns (r: seq<int>)
    ensures Increasing(r) && Elements(r) == Elements(ids) && |r| == |Elements(ids)|
  {
    r := SortIds(ids);
    SortIdsCount(ids);
  }

  ghost function Flatten(m: map<string, seq<int>>): set<int> {
    set sid, i | sid in m && 0 <= i < |m[sid]| :: m[sid][i]
  }

  /** Every session contributes `n` ids of its own. */
  ghost predicate Disjoint(m: map<string, seq<int>>, n: nat) {
    && (forall sid | sid in m :: |m[sid]| == n && Distinct(m[sid]))
    && (forall a, b, i, j | a in m && b in m && a != b && 0 <= i < |m[a]| && 0 <= j < |m[b]| :: m[a][i] != m[b][j])
  }

  lemma InFlatten(m: map<string, seq<int>>, x: int)
    ensures x in Flatten(m) <==> exists sid | sid in m :: x in m[sid]
  {
    if sid :| sid in m && x in m[sid] {
      var i :| 0 <= i < |m[sid]| && m[sid][i] == x;
    }
  }

  lemma FlattenSplits(m: map<string, seq<int>>, sid: string)
    requires sid in m
    ensures Flatten(m) == Flatten(m - {sid}) + Elements(m[sid])
  {
    var rest := m - {sid};
    forall x ensures x in Flatten(m) <==> x in Flatten(rest) + Elements(m[sid]) {
      InFlatten(m, x);
      InFlatten(rest, x);
      if s :| s in m && x in m[s] {
        assert s == sid || (s in rest && rest[s] == m[s]);
      }
      if s :| s in rest && x in rest[s] {
        assert s in m && m[s] == rest[s];
      }
    }
  }

  lemma OwnIdsApart(m: map<string, seq<int>>, n: nat, sid: string)
    requires Disjoint(m, n) && sid in m
    ensures Flatten(m - {sid}) !! Elements(m[sid]) && Disjoint(m - {sid}, n)
  {
    var rest := m - {sid};
    forall x | x in Elements(m[sid]) ensures x !in Flatten(rest) {
      InFlatten(rest, x);
      var j :| 0 <= j < |m[sid]| && m[sid][j] == x;
      forall s | s in rest ensures x !in rest[s] { assert s in m && s != sid && rest[s] == m[s]; }
    }
  }

  lemma FlattenGrows(m: map<string, seq<int>>, n: nat, sid: string)
    requires Disjoint(m, n) && sid in m
    ensures Disjoint(m - {sid}, n) && |Flatten(m)| == |Flatten(m - {sid})| + n && |m| == |m - {sid}| + 1
  {
    OwnIdsApart(m, n, sid);
    FlattenSplits(m, sid);
    DistinctCountsOnce(m[sid]);
    assert m.Keys == (m - {sid}).Keys + {sid};
  }

  lemma {:induction false} FlattenCounts(m: map<string, seq<int>>, n: nat)
    requires Disjoint(m, n)
    ensures |Flatten(m)| == n * |m|
    decreases |m|
  {
    if |m| == 0 {
      assert Flatten(m) == {};
    } else {
      var sid :| sid in m;
      FlattenGrows(m, n, sid);
      FlattenCounts(m - {sid}, n);
      assert n * (|m - {sid}| + 1) == n * |m - {sid}| + n;
    }
  }

  /** Event ids are unique over all sessions. */
  ghost predicate UniqueEvents(traces: map<string, Trace>) {
    && AllAligned(traces)
    && (forall sid | sid in traces :: Distinct(traces[sid].ids))
    && (forall a, b, i, j | a in traces && b in traces && a != b && 0 <= i < |traces[a].ids|
        && 0 <= j < |traces[b].ids| ::
          traces[a].ids[i] != traces[b].ids[j])
  }

  /** The leftmost ids of a run, one entry per session that contains it. */
  ghost predicate Gathered(traces: map<string, Trace>, p: seq<string>, m: map<string, seq<int>>) {
    && (forall sid :: sid in m <==> sid in traces && Contains(traces[sid].tools, p))
    && (forall sid | sid in m :: LeftmostIds(traces[sid], p, m[sid]))
  }

  ghost function Containing(traces: map<string, Trace>, p: seq<string>): set<string> {
    set sid | sid in traces && Contains(traces[sid].tools, p)
  }

  /** Each session that contains the run contributes exactly the run's length in ids. */
  lemma GatheredCounts(traces: map<string, Trace>, p: seq<string>, m: map<string, seq<int>>)
    requires UniqueEvents(traces) && Gathered(traces, p, m)
    ensures Disjoint(m, |p|) && |Flatten(m)| == |p| * |Containing(traces, p)|
  {
    forall sid | sid in m ensures |m[sid]| == |p| && Distinct(m[sid]) {
      var at: nat :| FirstAt(traces[sid].tools, p, at) && m[sid] == traces[sid].ids[at..at + |p|];
    }
    forall a, b, i, j | a in m && b in m && a != b && 0 <= i < |m[a]| && 0 <= j < |m[b]| ensures m[a][i] != m[b][j] {
      var x: nat :| FirstAt(traces[a].tools, p, x) && m[a] == traces[a].ids[x..x + |p|];
      var y: nat :| FirstAt(traces[b].tools, p, y) && m[b] == traces[b].ids[y..y + |p|];
      assert m[a][i] == traces[a].ids[x + i] && m[b][j] == traces[b].ids[y + j];
    }
    FlattenCounts(m, |p|);
    assert m.Keys == Containing(traces, p);
  }

  /** The gate as written, on event counts. */
  predicate Contradicted(s: nat, c: nat) { c > s || (s > 0 && c * 2 >= s) }

  /** The gate in terms of sessions: the failing ones stay under half of the successful ones. */
  lemma GateIsOnSessions(n: nat, good: nat, bad: nat)
    requires MIN_LEN <= n <= MAX_LEN && good >= MIN_SESSIONS
    ensures Contradicted(n * good, n * bad) <==> 2 * bad >= good
  {
    assert n == 2 || n == 3 || n == 4 || n == 5;
  }

  method Collect(m: map<string, seq<int>>) returns (ids: seq<int>)
    ensures Elements(ids) == Flatten(m)
  {
    ids := [];
    var todo := m.Keys;
    while todo != {}
      invariant todo <= m.Keys
      invariant forall x :: x in ids <==> exists sid | sid in m && sid !in todo :: x in m[sid]
      decreases todo
    {
      var sid :| sid in todo;
      ids := ids + m[sid];
      todo := todo - {sid};
    }
    forall x ensures x in Elements(ids) <==> x in Flatten(m) { InFlatten(m, x); }
  }

  /** The failed sessions that contain the run, with the ids of their leftmost occurrence. */
  method Against(failed: map<string, Trace>, p: seq<string>) returns (m: map<string, seq<int>>)
    requires AllAligned(failed) && p != []
    ensures Gathered(failed, p, m)
  {
    m := map[];
    var todo := failed.Keys;
    while todo != {}
      invariant todo <= failed.Keys
      invariant forall sid :: sid in m <==> sid in failed && sid !in todo && Contains(failed[sid].tools, p)
      invariant forall sid | sid in m :: LeftmostIds(failed[sid], p, m[sid])
      decreases todo
    {
      var sid :| sid in todo;
      var at := FindRun(failed[sid].tools, p);
      if at.Some? {
        assert FirstAt(failed[sid].tools, p, at.value);
        m := m[sid := failed[sid].ids[at.value..at.value + |p|]];
      }
      todo := todo - {sid};
    }
  }

  /** `q` is the scored form of a run over the given sessions. */
  ghost predicate Scores(good: map<string, Trace>, failed: map<string, Trace>, q: Pattern) {
    && Minable(q.tools) && q.sessions == |Containing(good, q.tools)| && Passes(good, failed, q.tools)
    && Increasing(q.support) && Increasing(q.contra)
    && |q.support| == |q.tools| * q.sessions && |q.contra| == |q.tools| * |Containing(failed, q.tools)|
    && (exists m :: Gathered(good, q.tools, m) && Elements(q.support) == Flatten(m))
    && (exists m :: Gathered(failed, q.tools, m) && Elements(q.contra) == Flatten(m))
  }

  /** One mined run through the support and contradiction gates. The event-count gate lets it pass
      exactly when twice the failing sessions stay below the successful ones. */
  method Score(good: map<string, Trace>, failed: map<string, Trace>, s: Stat) returns (q: Option<Pattern>)
    requires UniqueEvents(good) && UniqueEvents(failed) && ExactEntry(good, s)
    ensures q.Some? <==> Passes(good, failed, s.tools)
    ensures q.Some? ==> q.value.tools == s.tools && Scores(good, failed, q.value)
  {
    assert s.sessions == Containing(good, s.tools);
    if |s.sessions| < MIN_SESSIONS {
      return None;
    }
    assert Gathered(good, s.tools, s.occurrences);
    GatheredCounts(good, s.tools, s.occurrences);
    var all := Collect(s.occurrences);
    var support := SortDedup(all);
    var against := Against(failed, s.tools);
    GatheredCounts(failed, s.tools, against);
    var others := Collect(against);
    var contra := SortDedup(others);
    GateIsOnSessions(|s.tools|, |s.sessions|, |Containing(failed, s.tools)|);
    if Contradicted(|support|, |contra|) {
      return None;
    }
    q := Some(Pattern(s.tools, |s.sessions|, support, contra));
  }

  // ── Ranking ────────────────────────────────────────────────────────────

  /** More sessions first, then longer, then by name. */
  predicate RankedBefore(a: Pattern, b: Pattern) {
    || a.sessions > b.sessions
    || (a.sessions == b.sessions && |a.tools| > |b.tools|)
    || (a.sessions == b.sessions && |a.tools| == |b.tools| && Before(Join(a.tools), Join(b.tools)))
  }

  /** On the fields: never fewer sessions first; at equal sessions never shorter; at equal length in the dictionary
      order of the joined names. */
  ghost predicate Precedes(a: Pattern, b: Pattern) {
    && a.sessions >= b.sessions
    && (a.sessions == b.sessions ==>
          |a.tools| >= |b.tools| && (|a.tools| == |b.tools| ==> Before(Join(a.tools), Join(b.tools))))
  }

  lemma RankedIffPrecedes(a: Pattern, b: Pattern)
    ensures RankedBefore(a, b) <==> Precedes(a, b)
  {
  }

  lemma RankingIsTotal(ps: set<Pattern>)
    requires forall p, q | p in ps && q in ps && p != q :: Join(p.tools) != Join(q.tools)
    ensures TotalOn(RankedBefore, ps)
  {
    forall x | x in ps ensures !RankedBefore(x, x) { BeforeConnected(Join(x.tools), Join(x.tools)); }
    forall x, y | x in ps && y in ps && x != y ensures RankedBefore(x, y) || RankedBefore(y, x) {
      BeforeConnected(Join(x.tools), Join(y.tools));
    }
    forall x, y, z | x in ps && y in ps && z in ps && RankedBefore(x, y) && RankedBefore(y, z)
      ensures RankedBefore(x, z)
    {
      if Before(Join(x.tools), Join(y.tools)) && Before(Join(y.tools), Join(z.tools)) {
        BeforeTransitive(Join(x.tools), Join(y.tools), Join(z.tools));
      }
    }
  }

  /** The run recurs often enough and fails rarely enough. */
  ghost predicate Passes(good: map<string, Trace>, failed: map<string, Trace>, p: seq<string>) {
    |Containing(good, p)| >= MIN_SESSIONS && 2 * |Containing(failed, p)| < |Containing(good, p)|
  }

  ghost function PassesIn(good: map<string, Trace>, failed: map<string, Trace>): seq<string> -> bool {
    p => Passes(good, failed, p)
  }

  ghost function ExactIn(key: Key, good: map<string, Trace>, k: string): Stat -> bool {
    (s: Stat) => key(s.tools) == k && ExactEntry(good, s)
  }

  ghost function ScoresIn(good: map<string, Trace>, failed: map<string, Trace>): Pattern -> bool {
    q => Scores(good, failed, q)
  }

  /** The entries of `keys` have been scored: those that pass are listed, once each. */
  ghost predicate ListedFrom(
      key: Key, passes: seq<string> -> bool, stats: map<string, Stat>, keys: set<string>, qs: seq<Pattern>)
  {
    && (forall i | 0 <= i < |qs| :: key(qs[i].tools) in keys)
    && (forall i, j | 0 <= i < j < |qs| :: key(qs[i].tools) != key(qs[j].tools))
    && (forall k | k in keys && k in stats && passes(stats[k].tools) :: Listed(qs, stats[k].tools))
  }

  ghost predicate Listed(qs: seq<Pattern>, p: seq<string>) { exists i | 0 <= i < |qs| :: qs[i].tools == p }

  lemma ListedOneMore(
      key: Key, passes: seq<string> -> bool, stats: map<string, Stat>, keys: set<string>, qs: seq<Pattern>, k: string,
      q: Pattern)
    requires ListedFrom(key, passes, stats, keys, qs) && k in stats && k !in keys && key(stats[k].tools) == k
    requires q.tools == stats[k].tools
    ensures ListedFrom(key, passes, stats, keys + {k}, qs + [q])
  {
    var after := qs + [q];
    assert after[|qs|] == q;
    forall x | x in keys + {k} && x in stats && passes(stats[x].tools) ensures Listed(after, stats[x].tools) {
      if x != k {
        var i :| 0 <= i < |qs| && qs[i].tools == stats[x].tools;
        assert after[i] == qs[i];
      }
    }
  }

  method ScoreNext(
      key: Key, good: map<string, Trace>, failed: map<string, Trace>, stats: map<string, Stat>, k: string,
      before: seq<Pattern>, ghost done: set<string>) returns (qs: seq<Pattern>)
    requires UniqueEvents(good) && UniqueEvents(failed) && k in stats && k !in done
    requires ExactIn(key, good, k)(stats[k])
    requires ListedFrom(key, PassesIn(good, failed), stats, done, before) && AllScore(ScoresIn(good, failed), before)
    ensures ListedFrom(key, PassesIn(good, failed), stats, done + {k}, qs) && AllScore(ScoresIn(good, failed), qs)
  {
    var q := Score(good, failed, stats[k]);
    if q.None? {
      ListedNoMore(key, PassesIn(good, failed), stats, done, before, k);
      return before;
    }
    AllScoreOneMore(ScoresIn(good, failed), before, q.value);
    ListedOneMore(key, PassesIn(good, failed), stats, done, before, k, q.value);
    qs := before + [q.value];
  }

  method ScoreAll(
      key: Key, good: map<string, Trace>, failed: map<string, Trace>, stats: map<string, Stat>)
    returns (qs: seq<Pattern>)
    requires UniqueEvents(good) && UniqueEvents(failed) && (forall k | k in stats :: ExactIn(key, good, k)(stats[k]))
    ensures AllScore(ScoresIn(good, failed), qs)
    ensures ListedFrom(key, PassesIn(good, failed), stats, stats.Keys, qs)
  {
    qs := [];
    var todo := stats.Keys;
    ghost var done: set<string> := {};
    while todo != {}
      invariant todo !! done && todo + done == stats.Keys
      invariant ListedFrom(key, PassesIn(good, failed), stats, done, qs) && AllScore(ScoresIn(good, failed), qs)
      decreases todo
    {
      var k :| k in todo;
      qs := ScoreNext(key, good, failed, stats, k, qs, done);
      Moved(todo, done, stats.Keys, k);
      todo, done := todo - {k}, done + {k};
    }
  }

  lemma Moved<T>(todo: set<T>, done: set<T>, all: set<T>, x: T)
    requires todo !! done && todo + done == all && x in todo
    ensures (todo - {x}) !! (done + {x}) && (todo - {x}) + (done + {x}) == all
  {}

  ghost predicate AllScore(scores: Pattern -> bool, qs: seq<Pattern>) { forall i | 0 <= i < |qs| :: scores(qs[i]) }

  lemma AllScoreOneMore(scores: Pattern -> bool, qs: seq<Pattern>, q: Pattern)
    requires AllScore(scores, qs) && scores(q)
    ensures AllScore(scores, qs + [q])
  {}

  lemma ListedNoMore(
      key: Key, passes: seq<string> -> bool, stats: map<string, Stat>, keys: set<string>, qs: seq<Pattern>, k: string)
    requires ListedFrom(key, passes, stats, keys, qs) && k in stats && !passes(stats[k].tools)
    ensures ListedFrom(key, passes, stats, keys + {k}, qs)
  {}

  lemma SameListing(a: seq<Pattern>, b: seq<Pattern>, p: seq<string>)
    requires Elements(a) == Elements(b) && Listed(a, p)
    ensures Listed(b, p)
  {
    var i :| 0 <= i < |a| && a[i].tools == p;
    assert a[i] in Elements(b);
  }

  /** Every run of the successful sessions that passes the gates, best first. */
  ghost predicate Ranked(good: map<string, Trace>, failed: map<string, Trace>, ranked: seq<Pattern>) {
    && Sorted(RankedBefore, ranked)
    && (forall q | q in ranked :: Scores(good, failed, q))
    && (forall p | Occurring(good, good.Keys, p) && Passes(good, failed, p) :: Listed(ranked, p))
  }

  /** A run that passes and is contained in a successful session is ranked. */
  lemma PassingIsRanked(
      good: map<string, Trace>, failed: map<string, Trace>, ranked: seq<Pattern>, p: seq<string>, sid: string)
    returns (q: Pattern)
    requires Ranked(good, failed, ranked) && Minable(p) && Passes(good, failed, p)
    requires sid in good && Contains(good[sid].tools, p)
    ensures q in ranked && q.tools == p && Scores(good, failed, q)
  {
    assert Listed(ranked, p);
    var i :| 0 <= i < |ranked| && ranked[i].tools == p;
    q := ranked[i];
    assert q in ranked;
  }

  method Rank(
      good: map<string, Trace>, failed: map<string, Trace>, stats: map<string, Stat>) returns (ranked: seq<Pattern>)
    requires UniqueEvents(good) && UniqueEvents(failed) && BruteForce(Join, good, stats)
    ensures Ranked(good, failed, ranked)
  {
    var unsorted := ScoreAll(Join, good, failed, stats);
    DistinctNamesRank(unsorted);
    ranked := Sort(RankedBefore, unsorted);
    forall q | q in ranked ensures Scores(good, failed, q) {
      assert q in Elements(unsorted);
      var i :| 0 <= i < |unsorted| && unsorted[i] == q;
    }
    ghost var passes := PassesIn(good, failed);
    forall p | Occurring(good, good.Keys, p) && Passes(good, failed, p) ensures Listed(ranked, p) {
      assert Join(p) in stats && stats[Join(p)].tools == p && passes(p);
      SameListing(unsorted, ranked, p);
    }
  }

  lemma DistinctNamesRank(qs: seq<Pattern>)
    requires forall i, j | 0 <= i < j < |qs| :: Join(qs[i].tools) != Join(qs[j].tools)
    ensures Distinct(qs) && TotalOn(RankedBefore, Elements(qs))
  {
    forall p, q | p in Elements(qs) && q in Elements(qs) && p != q ensures Join(p.tools) != Join(q.tools) {
      var i :| 0 <= i < |qs| && qs[i] == p;
      var j :| 0 <= j < |qs| && qs[j] == q;
    }
    RankingIsTotal(Elements(qs));
  }

  // ── Domination ─────────────────────────────────────────────────────────

  /** `b` is a run inside `a`, which has at least its support. */
  ghost predicate Dominates(a: Pattern, b: Pattern) { a.sessions >= b.sessions && Contains(a.tools, b.tools) }

  /** A later pattern never dominates an earlier one. */
  lemma OnlyEarlierDominate(a: Pattern, b: Pattern)
    requires RankedBefore(a, b)
    ensures !Dominates(b, a)
  {
    if Dominates(b, a) {
      var at: nat :| OccursAt(b.tools, a.tools, at);
      assert |a.tools| == |b.tools| && a.tools == b.tools;
      BeforeConnected(Join(a.tools), Join(b.tools));
    }
  }

  /** Keep the most specific runs, at most three. */
  method KeepUndominated(ranked: seq<Pattern>) returns (kept: seq<Pattern>)
    requires Sorted(RankedBefore, ranked) && forall q | q in ranked :: q.tools != []
    ensures |kept| <= MAX_KEPT && Sorted(RankedBefore, kept) && (forall q | q in kept :: q in ranked)
    ensures forall a, b | a in kept && b in kept && a != b :: !Dominates(a, b)
    ensures |kept| < MAX_KEPT ==> forall q | q in ranked && q !in kept :: exists a | a in kept :: Dominates(a, q)
    ensures forall q | q in ranked && q !in kept ::
              (exists a | a in kept :: Dominates(a, q)) || forall a | a in kept :: RankedBefore(a, q)
  {
    kept := [];
    ghost var n := 0;
    for i := 0 to |ranked|
      invariant n == i && |kept| < MAX_KEPT
      invariant Sorted(RankedBefore, kept) && forall q | q in kept :: q in ranked[..i]
      invariant forall x, y | 0 <= x < y < |kept| :: !Dominates(kept[x], kept[y])
      invariant forall q | q in ranked[..i] && q !in kept :: exists a | a in kept :: Dominates(a, q)
    {
      var dominated := IsDominated(kept, ranked[i]);
      n := i + 1;
      assert ranked[..i + 1] == ranked[..i] + [ranked[i]];
      if !dominated {
        forall a | a in kept ensures RankedBefore(a, ranked[i]) {
          var k :| 0 <= k < i && ranked[k] == a;
        }
        ghost var was := kept;
        kept := kept + [ranked[i]];
        forall q | q in ranked[..i + 1] && q !in kept ensures exists a | a in kept :: Dominates(a, q) {
          var a :| a in was && Dominates(a, q);
          assert a in kept;
        }
      }
      if |kept| >= MAX_KEPT {
        break;
      }
    }
    KeptIsUndominated(ranked, kept, n);
  }

  method IsDominated(kept: seq<Pattern>, q: Pattern) returns (yes: bool)
    requires q.tools != []
    ensures yes <==> exists a | a in kept :: Dominates(a, q)
  {
    for i := 0 to |kept|
      invariant forall k | 0 <= k < i :: !Dominates(kept[k], q)
    {
      if kept[i].sessions >= q.sessions {
        var at := FindRun(kept[i].tools, q.tools);
        if at.Some? {
          assert kept[i] in kept && Dominates(kept[i], q);
          return true;
        }
      }
    }
    yes := false;
  }

  lemma KeptIsUndominated(ranked: seq<Pattern>, kept: seq<Pattern>, n: nat)
    requires n <= |ranked| && Sorted(RankedBefore, ranked) && Sorted(RankedBefore, kept)
    requires (forall q | q in kept :: q in ranked[..n]) && (|kept| < MAX_KEPT ==> n == |ranked|)
    requires forall x, y | 0 <= x < y < |kept| :: !Dominates(kept[x], kept[y])
    requires forall q | q in ranked[..n] && q !in kept :: exists a | a in kept :: Dominates(a, q)
    ensures forall q | q in kept :: q in ranked
    ensures forall a, b | a in kept && b in kept && a != b :: !Dominates(a, b)
    ensures |kept| < MAX_KEPT ==> forall q | q in ranked && q !in kept :: exists a | a in kept :: Dominates(a, q)
    ensures forall q | q in ranked && q !in kept ::
              (exists a | a in kept :: Dominates(a, q)) || forall a | a in kept :: RankedBefore(a, q)
  {
    assert ranked == ranked[..n] + ranked[n..];
    forall a, b | a in kept && b in kept && a != b ensures !Dominates(a, b) {
      var i :| 0 <= i < |kept| && kept[i] == a;
      var j :| 0 <= j < |kept| && kept[j] == b;
      if j < i { OnlyEarlierDominate(b, a); }
    }
    forall q | q in ranked && q !in kept
      ensures (exists a | a in kept :: Dominates(a, q)) || forall a | a in kept :: RankedBefore(a, q)
    {
      if q !in ranked[..n] {
        var j :| n <= j < |ranked| && ranked[j] == q;
        forall a | a in kept ensures RankedBefore(a, q) {
          var i :| 0 <= i < n && ranked[i] == a;
        }
      }
    }
  }
}
