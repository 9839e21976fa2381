/** The reuse detector end to end: from the fetched events to the patterns it proposes. */
module SkillReuse {
  import opened Common
  import opened Miner
  import opened Ranking

  // ── Sessions ───────────────────────────────────────────────────────────

  /** Where the events of one session stand, in order. */
  function Positions(events: seq<ReuseEvent>, sid: string): (r: seq<nat>)
    ensures forall i | 0 <= i < |r| :: r[i] < |events| && events[r[i]].session == sid
    ensures forall i, j | 0 <= i < j < |r| :: r[i] < r[j]
  {
    if events == [] then []
    else
      var n := |events| - 1;
      Positions(events[..n], sid) + if events[n].session == sid then [n] else []
  }

  function Own(events: seq<ReuseEvent>, sid: string): (es: seq<ReuseEvent>) {
    var r := Positions(events, sid);
    seq(|r|, i requires 0 <= i < |r| => events[r[i]])
  }

  function RawTrace(es: seq<ReuseEvent>): Trace {
    Trace(seq(|es|, i requires 0 <= i < |es| => es[i].tool), seq(|es|, i requires 0 <= i < |es| => es[i].id))
  }

  function CollapsedTrace(t: Trace): Trace
    requires |t.tools| == |t.ids|
  {
    var r := RunStarts(t.tools);
    Trace(seq(|r|, i requires 0 <= i < |r| => t.tools[r[i]]), seq(|r|, i requires 0 <= i < |r| => t.ids[r[i]]))
  }

  function SessionTrace(events: seq<ReuseEvent>, sid: string): Trace { CollapsedTrace(RawTrace(Own(events, sid))) }

  function Sessions(events: seq<ReuseEvent>): set<string> { set e <- events :: e.session }

  /** At least one success and no failure. */
  ghost predicate Succeeded(es: seq<ReuseEvent>) {
    (exists e | e in es :: e.polarity == Success) && (forall e | e in es :: e.polarity != Failure)
  }

  ghost predicate Failed(es: seq<ReuseEvent>) { exists e | e in es :: e.polarity == Failure }

  /** The collapsed sequences that may support a run. */
  ghost function GoodTraces(events: seq<ReuseEvent>): map<string, Trace> {
    map sid | sid in Sessions(events) && Succeeded(Own(events, sid)) && |SessionTrace(events, sid).tools| >= MIN_LEN ::
        SessionTrace(events, sid)
  }

  /** The collapsed sequences that may contradict one. */
  ghost function FailedTraces(events: seq<ReuseEvent>): map<string, Trace> {
    map sid | sid in Sessions(events) && Failed(Own(events, sid)) && SessionTrace(events, sid).tools != [] ::
        SessionTrace(events, sid)
  }

  ghost predicate UniqueIds(events: seq<ReuseEvent>) {
    forall i, j | 0 <= i < j < |events| :: events[i].id != events[j].id
  }

  lemma TraceIds(events: seq<ReuseEvent>, sid: string)
    requires UniqueIds(events)
    ensures var t := SessionTrace(events, sid);
            && Aligned(t) && Distinct(t.ids) && Collapsed(t.tools)
            && forall i | 0 <= i < |t.ids| :: exists n | 0 <= n < |events| ::
                events[n].session == sid && events[n].id == t.ids[i]
  {
    var raw := RawTrace(Own(events, sid));
    CollapsedIsCollapsed(raw);
    CollapsedIdsDiffer(events, sid);
  }

  /** Each kept id is that of an event of the session, and no two are the same. */
  lemma CollapsedIdsDiffer(events: seq<ReuseEvent>, sid: string)
    requires UniqueIds(events)
    ensures var t := SessionTrace(events, sid);
            && Distinct(t.ids)
            && forall i | 0 <= i < |t.ids| :: exists n | 0 <= n < |events| ::
                events[n].session == sid && events[n].id == t.ids[i]
  {
    var ps := Positions(events, sid);
    var t, r := SessionTrace(events, sid), RunStarts(RawTrace(Own(events, sid)).tools);
    forall i | 0 <= i < |t.ids| ensures exists n | 0 <= n < |events| ::
        events[n].session == sid && events[n].id == t.ids[i] {
      assert t.ids[i] == events[ps[r[i]]].id;
    }
    forall i, j | 0 <= i < j < |t.ids| ensures t.ids[i] != t.ids[j] {
      assert t.ids[i] == events[ps[r[i]]].id && t.ids[j] == events[ps[r[j]]].id;
    }
  }

  lemma CollapsedIsCollapsed(raw: Trace)
    requires |raw.tools| == |raw.ids|
    ensures Aligned(CollapsedTrace(raw)) && Collapsed(CollapsedTrace(raw).tools)
  {
    var t, r := CollapsedTrace(raw), RunStarts(raw.tools);
    RunsAlternate(raw.tools);
    forall i | 0 < i < |t.tools| ensures t.tools[i - 1] != t.tools[i] {
      assert t.tools[i - 1] == raw.tools[r[i - 1]] && t.tools[i] == raw.tools[r[i]];
    }
  }

  /** Between two run starts nothing changes, so neighbouring runs differ. */
  lemma {:induction false} RunsAlternate(tools: seq<string>)
    ensures var r := RunStarts(tools); (forall i | 0 < i < |r| :: tools[r[i - 1]] != tools[r[i]])
    ensures tools != [] ==>
              RunStarts(tools) != [] && tools[RunStarts(tools)[|RunStarts(tools)| - 1]] == tools[|tools| - 1]
  {
    if tools != [] { RunsAlternate(tools[..|tools| - 1]); }
  }

  lemma TracesAreUnique(events: seq<ReuseEvent>)
    requires UniqueIds(events)
    ensures UniqueEvents(GoodTraces(events)) && UniqueEvents(FailedTraces(events))
  {
    UniqueAcross(events, GoodTraces(events));
    UniqueAcross(events, FailedTraces(events));
  }

  lemma UniqueAcross(events: seq<ReuseEvent>, m: map<string, Trace>)
    requires UniqueIds(events) && forall sid | sid in m :: m[sid] == SessionTrace(events, sid)
    ensures UniqueEvents(m)
  {
    forall sid | sid in m ensures Aligned(m[sid]) && Distinct(m[sid].ids) { TraceIds(events, sid); }
    forall a, b, i, j | a in m && b in m && a != b && 0 <= i < |m[a].ids| && 0 <= j < |m[b].ids|
      ensures m[a].ids[i] != m[b].ids[j]
    {
      TraceIds(events, a);
      TraceIds(events, b);
      var x :| 0 <= x < |events| && events[x].session == a && events[x].id == m[a].ids[i];
      var y :| 0 <= y < |events| && events[y].session == b && events[y].id == m[b].ids[j];
    }
  }

  // ── The detector ───────────────────────────────────────────────────────

  method SessionOf(events: seq<ReuseEvent>, sid: string) returns (es: seq<ReuseEvent>)
    ensures es == Own(events, sid)
  {
    es := [];
    for n := 0 to |events|
      invariant es == Own(events[..n], sid)
    {
      assert events[..n + 1][..n] == events[..n];
      if events[n].session == sid {
        es := es + [events[n]];
      }
    }
    assert events[..|events|] == events;
  }

  /** How one session went, and its collapsed sequence. */
  method ClassifySession(events: seq<ReuseEvent>, sid: string) returns (good: bool, failed: bool, t: Trace)
    requires sid in Sessions(events)
    ensures t == SessionTrace(events, sid)
    ensures good <==> sid in GoodTraces(events)
    ensures failed <==> sid in FailedTraces(events)
  {
    var es := SessionOf(events, sid);
    var polarity := SessionPolarity(es);
    t := CollapseWithIds(RawTrace(es));
    good := polarity == Success && |t.tools| >= MIN_LEN;
    failed := polarity == Failure && t.tools != [];
  }

  ghost function Restricted<T>(m: map<string, T>, keys: set<string>): map<string, T> {
    map k | k in m && k in keys :: m[k]
  }

  lemma RestrictedGrows<T>(m: map<string, T>, keys: set<string>, k: string)
    ensures Restricted(m, keys + {k}) == if k in m then Restricted(m, keys)[k := m[k]] else Restricted(m, keys)
  {}

  lemma RestrictedAll<T>(m: map<string, T>, keys: set<string>)
    requires m.Keys <= keys
    ensures Restricted(m, keys) == m
  {}

  /** Sort the sessions by how they went, collapsing their tool sequences. */
  method SplitSessions(events: seq<ReuseEvent>) returns (good: map<string, Trace>, failed: map<string, Trace>)
    ensures good == GoodTraces(events) && failed == FailedTraces(events)
  {
    good, failed := map[], map[];
    var todo := Sessions(events);
    ghost var done: set<string> := {};
    ghost var g, f := GoodTraces(events), FailedTraces(events);
    while todo != {}
      invariant todo !! done && todo + done == Sessions(events)
      invariant good == Restricted(g, done) && failed == Restricted(f, done)
      decreases todo
    {
      var sid :| sid in todo;
      var ok, bad, t := ClassifySession(events, sid);
      RestrictedGrows(g, done, sid);
      RestrictedGrows(f, done, sid);
      if ok {
        good := good[sid := t];
      }
      if bad {
        failed := failed[sid := t];
      }
      Moved(todo, done, Sessions(events), sid);
      todo, done := todo - {sid}, done + {sid};
    }
    RestrictedAll(g, done);
    RestrictedAll(f, done);
  }

  /** The successful sessions whose collapsed sequence contains the run. */
  ghost function Backers(events: seq<ReuseEvent>, p: seq<string>): set<string> {
    set sid | sid in Sessions(events) && Succeeded(Own(events, sid)) && Contains(SessionTrace(events, sid).tools, p)
  }

  /** The failed ones. */
  ghost function Breakers(events: seq<ReuseEvent>, p: seq<string>): set<string> {
    set sid | sid in Sessions(events) && Failed(Own(events, sid)) && Contains(SessionTrace(events, sid).tools, p)
  }

  lemma ContainingIsBacking(events: seq<ReuseEvent>, p: seq<string>)
    requires |p| >= 2
    ensures Containing(GoodTraces(events), p) == Backers(events, p)
    ensures Containing(FailedTraces(events), p) == Breakers(events, p)
  {
  }

  /** Two to five tools in a row, in at least three successful sessions, with fewer than half as many failing ones. */
  ghost predicate Recurs(events: seq<ReuseEvent>, p: seq<string>) {
    2 <= |p| <= 5 && |Backers(events, p)| >= 3 && 2 * |Breakers(events, p)| < |Backers(events, p)|
  }

  /** Every proposal precedes the run. */
  ghost predicate Outranked(events: seq<ReuseEvent>, kept: seq<Pattern>, p: seq<string>) {
    forall a, q: Pattern | a in kept && q.tools == p && q.sessions == |Backers(events, p)| :: Precedes(a, q)
  }

  /** The run lies inside a proposal that recurs in at least as many sessions. */
  ghost predicate Represented(events: seq<ReuseEvent>, kept: seq<Pattern>, p: seq<string>) {
    exists i | 0 <= i < |kept| :: Contains(kept[i].tools, p) && kept[i].sessions >= |Backers(events, p)|
  }

  /** Propose the repeated successful workflows among the fetched events: each proposal recurs in at
      least three successful sessions with fewer than half as many failing ones, none is redundant, and
      every run that recurs so lies inside a proposal with at least its support, or is left out because
      three proposals all come before it. */
  method DetectReuse(events: seq<ReuseEvent>) returns (kept: seq<Pattern>)
    requires UniqueIds(events) && KeysDistinct(Join, GoodTraces(events))
    ensures |kept| <= 3 && forall i, j | 0 <= i < j < |kept| :: Precedes(kept[i], kept[j])
    ensures forall q | q in kept :: Scores(GoodTraces(events), FailedTraces(events), q)
    ensures forall q | q in kept :: Recurs(events, q.tools) && q.sessions == |Backers(events, q.tools)|
    ensures forall a, b | a in kept && b in kept && a != b :: !Dominates(a, b)
    ensures forall p | Recurs(events, p) ::
              Represented(events, kept, p) || (|kept| == 3 && Outranked(events, kept, p))
  {
    TracesAreUnique(events);
    var good, failed := SplitSessions(events);
    var stats := Mine(Join, good);
    MinerRefinesBruteForce(Join, good, stats);
    var ranked := Rank(good, failed, stats);
    kept := KeepUndominated(ranked);
    forall i, j | 0 <= i < j < |kept| ensures Precedes(kept[i], kept[j]) { RankedIffPrecedes(kept[i], kept[j]); }
    forall q | q in kept ensures Recurs(events, q.tools) && q.sessions == |Backers(events, q.tools)| {
      ScoredRecurs(events, q);
    }
    forall p | Recurs(events, p)
      ensures Represented(events, kept, p) || (|kept| == 3 && Outranked(events, kept, p))
    {
      RecurringIsAccounted(events, good, failed, ranked, kept, p);
    }
  }

  lemma ScoredRecurs(events: seq<ReuseEvent>, q: Pattern)
    requires Scores(GoodTraces(events), FailedTraces(events), q)
    ensures Recurs(events, q.tools) && q.sessions == |Backers(events, q.tools)|
  {
    ContainingIsBacking(events, q.tools);
  }

  /** A run that recurs passes the gates, and some successful session contains it. */
  lemma RecurringPasses(events: seq<ReuseEvent>, p: seq<string>) returns (sid: string)
    requires UniqueIds(events) && Recurs(events, p)
    ensures Minable(p) && Passes(GoodTraces(events), FailedTraces(events), p)
    ensures sid in GoodTraces(events) && Contains(GoodTraces(events)[sid].tools, p)
  {
    ContainingIsBacking(events, p);
    sid :| sid in Backers(events, p);
    assert sid in Containing(GoodTraces(events), p);
    TraceIds(events, sid);
    GateNeverFires(SessionTrace(events, sid).tools, p);
  }

  lemma RecurringIsAccounted(
      events: seq<ReuseEvent>, good: map<string, Trace>, failed: map<string, Trace>, ranked: seq<Pattern>,
      kept: seq<Pattern>, p: seq<string>)
    requires good == GoodTraces(events) && failed == FailedTraces(events)
    requires UniqueIds(events) && Recurs(events, p) && Ranked(good, failed, ranked) && |kept| <= MAX_KEPT
    requires |kept| < MAX_KEPT ==> forall q | q in ranked && q !in kept :: exists a | a in kept :: Dominates(a, q)
    requires forall q | q in ranked && q !in kept ::
               (exists a | a in kept :: Dominates(a, q)) || forall a | a in kept :: RankedBefore(a, q)
    ensures Represented(events, kept, p) || (|kept| == 3 && Outranked(events, kept, p))
  {
    var sid := RecurringPasses(events, p);
    var q := PassingIsRanked(good, failed, ranked, p, sid);
    ScoredRecurs(events, q);
    RankedIsAccounted(events, q, kept);
  }

  lemma RankedIsAccounted(events: seq<ReuseEvent>, q: Pattern, kept: seq<Pattern>)
    requires q.sessions == |Backers(events, q.tools)| && |kept| <= MAX_KEPT
    requires q !in kept ==> (|kept| < MAX_KEPT ==> exists a | a in kept :: Dominates(a, q))
    requires q !in kept ==> (exists a | a in kept :: Dominates(a, q)) || forall a | a in kept :: RankedBefore(a, q)
    ensures Represented(events, kept, q.tools) || (|kept| == 3 && Outranked(events, kept, q.tools))
  {
    if q in kept {
      assert OccursAt(q.tools, q.tools, 0);
      InsideProposal(events, kept, q, q);
    } else if a :| a in kept && Dominates(a, q) {
      InsideProposal(events, kept, a, q);
    } else {
      forall a, r: Pattern | a in kept && r.tools == q.tools && r.sessions == q.sessions ensures Precedes(a, r) {
        RankedIffPrecedes(a, q);
      }
    }
  }

  lemma InsideProposal(events: seq<ReuseEvent>, kept: seq<Pattern>, a: Pattern, q: Pattern)
    requires a in kept && Dominates(a, q) && q.sessions == |Backers(events, q.tools)|
    ensures Represented(events, kept, q.tools)
  {
    var j :| 0 <= j < |kept| && kept[j] == a;
  }
}
