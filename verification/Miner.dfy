/** The workflow miner: tool runs that recur over successful sessions, one vote per session.
    The fast loops are proved against containment, the definition a reader would write. */
module Miner {
  import opened Common

  const MIN_SESSIONS := 3
  const MIN_LEN := 2
  const MAX_LEN := 5
  const MIN_TOOLS := 2
  const MAX_KEPT := 3
  const MAX_EVIDENCE := 100

  datatype Polarity = Success | Failure | Neutral

  /** An in-scope event with its tool name normalized and its outcome label read as a polarity. */
  datatype ReuseEvent = ReuseEvent(id: int, session: string, tool: string, polarity: Polarity)

  /** One session as a tool sequence; `ids[i]` is the event behind `tools[i]`. */
  datatype Trace = Trace(tools: seq<string>, ids: seq<int>)

  ghost predicate Aligned(t: Trace) { |t.tools| == |t.ids| }

  // ── Collapsing runs ────────────────────────────────────────────────────

  predicate StartsRun(tools: seq<string>, i: nat) requires i < |tools| { i == 0 || tools[i] != tools[i - 1] }

  /** The positions where a run of equal tools begins. */
  function RunStarts(tools: seq<string>): (r: seq<nat>)
    ensures forall i | 0 <= i < |r| :: r[i] < |tools| && StartsRun(tools, r[i])
    ensures forall i, j | 0 <= i < j < |r| :: r[i] < r[j]
  {
    if tools == [] then []
    else
      var n := |tools| - 1;
      RunStarts(tools[..n]) + if StartsRun(tools, n) then [n] else []
  }

  lemma {:induction false} RunStartsComplete(tools: seq<string>, i: nat)
    requires i < |tools| && StartsRun(tools, i)
    ensures i in RunStarts(tools)
  {
    if i < |tools| - 1 {
      RunStartsComplete(tools[..|tools| - 1], i);
    }
  }

  /** No two neighbours are equal: what collapsing leaves. */
  ghost predicate Collapsed(tools: seq<string>) {
    forall i | 0 < i < |tools| :: tools[i - 1] != tools[i]
  }

  /** The tools and ids at the given positions. */
  ghost predicate Picks(t: Trace, starts: seq<nat>, tools: seq<string>, ids: seq<int>) {
    && |tools| == |ids| == |starts|
    && forall i | 0 <= i < |starts| :: starts[i] < |t.tools| && starts[i] < |t.ids| && tools[i] == t.tools[starts[i]]
        && ids[i] == t.ids[starts[i]]
  }

  lemma PicksNext(t: Trace, starts: seq<nat>, tools: seq<string>, ids: seq<int>, n: nat)
    requires Aligned(t) && n < |t.tools| && Picks(t, starts, tools, ids)
    ensures Picks(t, starts + [n], tools + [t.tools[n]], ids + [t.ids[n]])
  {}

  lemma RunStartsNext(tools: seq<string>, n: nat)
    requires n < |tools|
    ensures RunStarts(tools[..n + 1]) == RunStarts(tools[..n]) + if StartsRun(tools, n) then [n] else []
  {
    assert tools[..n + 1][..n] == tools[..n];
  }

  lemma CollapsedNext(tools: seq<string>, x: string)
    requires Collapsed(tools) && (tools == [] || tools[|tools| - 1] != x)
    ensures Collapsed(tools + [x])
  {}

  /** Append an event unless it repeats the last tool. */
  function Appended(c: Trace, tool: string, id: int): Trace {
    if c.tools == [] || c.tools[|c.tools| - 1] != tool then Trace(c.tools + [tool], c.ids + [id]) else c
  }

  /** The first `n` events with their repeats dropped. */
  function Collapse(t: Trace, n: nat): Trace
    requires |t.tools| == |t.ids| && n <= |t.tools|
  {
    if n == 0 then Trace([], []) else Appended(Collapse(t, n - 1), t.tools[n - 1], t.ids[n - 1])
  }

  /** `c` is what the first `n` events leave: the starts of their runs. */
  ghost predicate KeepsStarts(t: Trace, n: nat, c: Trace) {
    && n <= |t.tools| && Picks(t, RunStarts(t.tools[..n]), c.tools, c.ids) && Collapsed(c.tools)
    && (n == 0 <==> c.tools == []) && (n > 0 ==> c.tools[|c.tools| - 1] == t.tools[n - 1])
  }

  lemma AppendStart(t: Trace, n: nat, c: Trace)
    requires Aligned(t) && n < |t.tools| && KeepsStarts(t, n, c) && StartsRun(t.tools, n)
    ensures KeepsStarts(t, n + 1, Trace(c.tools + [t.tools[n]], c.ids + [t.ids[n]]))
  {
    RunStartsNext(t.tools, n);
    PicksNext(t, RunStarts(t.tools[..n]), c.tools, c.ids, n);
    CollapsedNext(c.tools, t.tools[n]);
  }

  lemma SkipRepeat(t: Trace, n: nat, c: Trace)
    requires Aligned(t) && n < |t.tools| && KeepsStarts(t, n, c) && !StartsRun(t.tools, n)
    ensures KeepsStarts(t, n + 1, c)
  {
    RunStartsNext(t.tools, n);
  }

  lemma AppendedKeeps(t: Trace, n: nat, c: Trace)
    requires Aligned(t) && n < |t.tools| && KeepsStarts(t, n, c)
    ensures KeepsStarts(t, n + 1, Appended(c, t.tools[n], t.ids[n]))
  {
    if StartsRun(t.tools, n) { AppendStart(t, n, c); } else { SkipRepeat(t, n, c); }
  }

  /** Dropping repeats keeps exactly the run starts. */
  lemma {:induction false} CollapsePicks(t: Trace, n: nat)
    requires Aligned(t) && n <= |t.tools|
    ensures KeepsStarts(t, n, Collapse(t, n))
  {
    if n > 0 {
      CollapsePicks(t, n - 1);
      AppendedKeeps(t, n - 1, Collapse(t, n - 1));
    }
  }

  /** Keep the first event of every run of equal tools. */
  method CollapseWithIds(t: Trace) returns (c: Trace)
    requires Aligned(t)
    ensures Aligned(c) && Collapsed(c.tools) && |c.tools| == |RunStarts(t.tools)|
    ensures forall i | 0 <= i < |c.tools| ::
              c.tools[i] == t.tools[RunStarts(t.tools)[i]] && c.ids[i] == t.ids[RunStarts(t.tools)[i]]
  {
    var tools: seq<string>, ids: seq<int> := [], [];
    for n := 0 to |t.tools|
      invariant Trace(tools, ids) == Collapse(t, n)
    {
      if tools == [] || tools[|tools| - 1] != t.tools[n] {
        tools, ids := tools + [t.tools[n]], ids + [t.ids[n]];
      }
    }
    CollapsePicks(t, |t.tools|);
    assert t.tools[..|t.tools|] == t.tools;
    c := Trace(tools, ids);
  }

  /** Success needs a success and no failure; one failure decides. */
  method SessionPolarity(events: seq<ReuseEvent>) returns (p: Polarity)
    ensures p == Failure <==> exists e | e in events :: e.polarity == Failure
    ensures p == Success <==>
              (exists e | e in events :: e.polarity == Success) && (forall e | e in events :: e.polarity != Failure)
  {
    var sawSuccess := false;
    for i := 0 to |events|
      invariant forall k | 0 <= k < i :: events[k].polarity != Failure
      invariant sawSuccess <==> exists k | 0 <= k < i :: events[k].polarity == Success
    {
      match events[i].polarity
      case Failure => return Failure;
      case Success => sawSuccess := true;
      case Neutral =>
    }
    p := if sawSuccess then Success else Neutral;
  }

  // ── Containment ────────────────────────────────────────────────────────

  predicate OccursAt(tools: seq<string>, p: seq<string>, at: nat) {
    at + |p| <= |tools| && tools[at..at + |p|] == p
  }

  ghost predicate Contains(tools: seq<string>, p: seq<string>) { exists at: nat :: OccursAt(tools, p, at) }

  /** Leftmost occurrence of a non-empty run, if any. */
  method FindRun(tools: seq<string>, p: seq<string>) returns (at: Option<nat>)
    ensures at.Some? ==> p != [] && OccursAt(tools, p, at.value) && forall k: nat | k < at.value ::
        !OccursAt(tools, p, k)
    ensures at.None? <==> p == [] || !Contains(tools, p)
  {
    if p == [] || |tools| < |p| {
      return None;
    }
    for start := 0 to |tools| - |p| + 1
      invariant forall k: nat | k < start :: !OccursAt(tools, p, k)
    {
      if tools[start..start + |p|] == p {
        return Some(start);
      }
    }
    at := None;
  }

  /** The leftmost occurrence as a value, for specifications. */
  ghost predicate FirstAt(tools: seq<string>, p: seq<string>, at: nat) {
    OccursAt(tools, p, at) && forall k: nat | k < at :: !OccursAt(tools, p, k)
  }

  lemma FirstExists(tools: seq<string>, p: seq<string>, hi: nat) returns (at: nat)
    requires OccursAt(tools, p, hi)
    ensures FirstAt(tools, p, at)
    decreases hi
  {
    if k: nat :| k < hi && OccursAt(tools, p, k) {
      at := FirstExists(tools, p, k);
    } else {
      at := hi;
    }
  }

  // ── Keys ───────────────────────────────────────────────────────────────

  /** The map key of a pattern: its tools joined by '>'. */
  function Join(p: seq<string>): string {
    if |p| == 0 then "" else if |p| == 1 then p[0] else p[0] + ">" + Join(p[1..])
  }

  ghost predicate NoSeparator(p: seq<string>) { forall i | 0 <= i < |p| :: '>' !in p[i] }

  lemma {:induction false} JoinInjective(p: seq<string>, q: seq<string>)
    requires p != [] && q != [] && NoSeparator(p) && NoSeparator(q) && Join(p) == Join(q)
    ensures p == q
  {
    HeadOfJoin(p);
    HeadOfJoin(q);
    var j := Join(p);
    if |p| == 1 || |q| == 1 {
      assert '>' in j <==> |p| > 1;
      assert '>' in j <==> |q| > 1;
    } else {
      assert |p[0]| == |q[0]| by {
        assert j[|p[0]|] == '>' && j[|q[0]|] == '>';
        assert forall i | 0 <= i < |p[0]| :: j[i] == p[0][i];
        assert forall i | 0 <= i < |q[0]| :: j[i] == q[0][i];
      }
      assert p[0] == j[..|p[0]|] && q[0] == j[..|q[0]|];
      assert Join(p[1..]) == j[|p[0]| + 1..] && Join(q[1..]) == j[|q[0]| + 1..];
      JoinInjective(p[1..], q[1..]);
      assert p == [p[0]] + p[1..] && q == [q[0]] + q[1..];
    }
  }

  lemma HeadOfJoin(p: seq<string>)
    requires p != [] && NoSeparator(p)
    ensures |Join(p)| >= |p[0]| && Join(p)[..|p[0]|] == p[0]
    ensures |p| > 1 ==> |Join(p)| > |p[0]| && Join(p)[|p[0]|] == '>'
    ensures '>' in Join(p) <==> |p| > 1
  {
    if |p| > 1 { assert Join(p)[|p[0]|] == '>'; }
  }

  // ── Mining ─────────────────────────────────────────────────────────────

  /** Long enough, short enough, and more than one tool. */
  predicate Minable(p: seq<string>) { MIN_LEN <= |p| <= MAX_LEN && |set x | x in p| >= MIN_TOOLS }

  /** On a collapsed sequence the distinct-tool gate never fires. */
  lemma GateNeverFires(tools: seq<string>, p: seq<string>)
    requires Collapsed(tools) && Contains(tools, p) && MIN_LEN <= |p| <= MAX_LEN
    ensures Minable(p)
  {
    var at: nat :| OccursAt(tools, p, at);
    OccursPointwise(tools, p, at, 0);
    OccursPointwise(tools, p, at, 1);
    assert tools[at + 1 - 1] != tools[at + 1];
    TwoDiffer(p);
  }

  lemma OccursPointwise(tools: seq<string>, p: seq<string>, at: nat, k: nat)
    requires OccursAt(tools, p, at) && k < |p|
    ensures p[k] == tools[at + k]
  {
    assert tools[at..at + |p|][k] == tools[at + k];
  }

  lemma TwoDiffer(p: seq<string>)
    requires |p| >= 2 && p[0] != p[1]
    ensures |set x | x in p| >= 2
  {
    assert {p[0], p[1]} <= set x | x in p;
    assert |{p[0], p[1]}| == 2;
    SubsetSize({p[0], p[1]}, set x | x in p);
  }

  lemma SubsetSize<T>(a: set<T>, b: set<T>)
    requires a <= b
    ensures |a| <= |b|
  {
    assert b == a + (b - a);
  }

  /** A mined run: its tools, the sessions that voted for it and each session's event ids. */
  datatype Stat = Stat(tools: seq<string>, sessions: set<string>, occurrences: map<string, seq<int>>)

  /** A window that passed the gates. */
  datatype Ballot = Ballot(w: nat, at: nat)

  predicate InTrace(t: Trace, b: Ballot) {
    MIN_LEN <= b.w <= MAX_LEN && b.at + b.w <= |t.tools| && Minable(t.tools[b.at..b.at + b.w])
  }

  function Window(t: Trace, b: Ballot): seq<string> requires b.at + b.w <= |t.tools| { t.tools[b.at..b.at + b.w] }

  function IdsOf(t: Trace, b: Ballot): seq<int> requires b.at + b.w <= |t.ids| { t.ids[b.at..b.at + b.w] }

  ghost predicate Earlier(a: Ballot, b: Ballot) { a.w < b.w || (a.w == b.w && a.at < b.at) }

  ghost predicate AllIn(t: Trace, bs: seq<Ballot>) { forall b | b in bs :: InTrace(t, b) }

  /** Ballots of `t` in mining order, complete for all windows before `upto`. */
  ghost predicate BallotsUpTo(t: Trace, bs: seq<Ballot>, upto: Ballot) {
    && AllIn(t, bs)
    && (forall b | b in bs :: Earlier(b, upto))
    && (forall i, j | 0 <= i < j < |bs| :: Earlier(bs[i], bs[j]))
    && (forall b: Ballot | InTrace(t, b) && Earlier(b, upto) :: b in bs)
  }

  /** How a pattern is named in the result: any function of its tools; the program joins them. */
  type Key = seq<string> -> string

  ghost function KeysOf(key: Key, t: Trace, bs: seq<Ballot>): set<string>
    requires AllIn(t, bs)
  {
    set b | b in bs :: key(Window(t, b))
  }

  /** A session's vote: a new entry, or its name and ids added to the entry under that key. */
  function Credited(key: Key, stats: map<string, Stat>, sid: string, t: Trace, b: Ballot): Stat
    requires b.at + b.w <= |t.tools| && Aligned(t)
  {
    var k := key(Window(t, b));
    if k in stats
    then Stat(stats[k].tools, stats[k].sessions + {sid},
              if sid in stats[k].occurrences then stats[k].occurrences else stats[k].occurrences[sid := IdsOf(t, b)])
    else Stat(Window(t, b), {sid}, map[sid := IdsOf(t, b)])
  }

  /** Each key's first ballot counts, the rest are repeats within the session. */
  ghost function Tally(key: Key, stats: map<string, Stat>, sid: string, t: Trace, bs: seq<Ballot>): map<string, Stat>
    requires Aligned(t) && AllIn(t, bs)
  {
    if bs == [] then stats
    else
      var front, b := bs[..|bs| - 1], bs[|bs| - 1];
      var m := Tally(key, stats, sid, t, front);
      assert b in bs;
      var k := key(Window(t, b));
      if k in KeysOf(key, t, front) then m else m[k := Credited(key, m, sid, t, b)]
  }

  lemma SkipWindow(t: Trace, bs: seq<Ballot>, b: Ballot)
    requires BallotsUpTo(t, bs, b) && !InTrace(t, b)
    ensures BallotsUpTo(t, bs, Ballot(b.w, b.at + 1))
  {
    forall c: Ballot | InTrace(t, c) && Earlier(c, Ballot(b.w, b.at + 1)) ensures c in bs { assert c != b; }
  }

  lemma CastWindow(key: Key, t: Trace, bs: seq<Ballot>, b: Ballot)
    requires BallotsUpTo(t, bs, b) && InTrace(t, b)
    ensures BallotsUpTo(t, bs + [b], Ballot(b.w, b.at + 1))
    ensures KeysOf(key, t, bs + [b]) == KeysOf(key, t, bs) + {key(Window(t, b))}
  {
    forall c: Ballot | InTrace(t, c) && Earlier(c, Ballot(b.w, b.at + 1)) ensures c in bs + [b] {
      assert c == b || Earlier(c, b);
    }
  }

  lemma EndRow(t: Trace, bs: seq<Ballot>, b: Ballot)
    requires BallotsUpTo(t, bs, b) && b.at + b.w > |t.tools|
    ensures BallotsUpTo(t, bs, Ballot(b.w + 1, 0))
  {}

  /** `stats` and `seen` after the ballots `bs`, which cover the windows before `upto`. */
  ghost predicate Mining(
      key: Key, before: map<string, Stat>, stats: map<string, Stat>, seen: set<string>, sid: string, t: Trace,
      bs: seq<Ballot>, upto: Ballot)
    requires Aligned(t)
  {
    BallotsUpTo(t, bs, upto) && stats == Tally(key, before, sid, t, bs) && seen == KeysOf(key, t, bs)
  }

  lemma MiningCasts(
      key: Key, before: map<string, Stat>, stats: map<string, Stat>, seen: set<string>, sid: string, t: Trace,
      bs: seq<Ballot>, b: Ballot)
    requires Aligned(t) && Mining(key, before, stats, seen, sid, t, bs, b) && InTrace(t, b)
    ensures var k := key(Window(t, b));
            Mining(key, before, if k in seen then stats
                else stats[k := Credited(key, stats, sid, t, b)], seen + {k}, sid, t, bs + [b], Ballot(b.w, b.at + 1))
  {
    CastWindow(key, t, bs, b);
    assert (bs + [b])[..|bs|] == bs;
  }

  /** One vote per key and session. */
  method CastVote(
      key: Key, sid: string, t: Trace, b: Ballot, stats0: map<string, Stat>, seen0: set<string>)
    returns (stats: map<string, Stat>, seen: set<string>)
    requires Aligned(t) && InTrace(t, b)
    ensures var k := key(Window(t, b));
            seen == seen0 + {k} && stats == if k in seen0 then stats0 else stats0[k := Credited(key, stats0, sid, t, b)]
  {
    var k := key(Window(t, b));
    if k in seen0 { return stats0, seen0; }
    return stats0[k := Credited(key, stats0, sid, t, b)], seen0 + {k};
  }

  /** All windows of one length, left to right. */
  method MineRow(
      key: Key, sid: string, t: Trace, w: nat, stats0: map<string, Stat>, seen0: set<string>,
      ghost before: map<string, Stat>, ghost ballots0: seq<Ballot>)
    returns (stats: map<string, Stat>, seen: set<string>, ghost ballots: seq<Ballot>)
    requires Aligned(t) && MIN_LEN <= w <= MAX_LEN && w <= |t.tools|
    requires Mining(key, before, stats0, seen0, sid, t, ballots0, Ballot(w, 0))
    ensures Mining(key, before, stats, seen, sid, t, ballots, Ballot(w + 1, 0))
  {
    stats, seen, ballots := stats0, seen0, ballots0;
    for start := 0 to |t.tools| - w + 1
      invariant Mining(key, before, stats, seen, sid, t, ballots, Ballot(w, start))
    {
      var b := Ballot(w, start);
      if |set x | x in Window(t, b)| < MIN_TOOLS {
        SkipWindow(t, ballots, b);
        continue;
      }
      MiningCasts(key, before, stats, seen, sid, t, ballots, b);
      ballots := ballots + [b];
      stats, seen := CastVote(key, sid, t, b, stats, seen);
    }
    EndRow(t, ballots, Ballot(w, |t.tools| - w + 1));
  }

  /** All windows of one session, shortest first, one vote per key. */
  method MineSession(
      key: Key, sid: string, t: Trace, before: map<string, Stat>)
    returns (stats: map<string, Stat>, ghost ballots: seq<Ballot>)
    requires Aligned(t)
    ensures BallotsUpTo(t, ballots, Ballot(MAX_LEN + 1, 0)) && stats == Tally(key, before, sid, t, ballots)
  {
    stats, ballots := before, [];
    var seen: set<string> := {};
    var w := MIN_LEN;
    while w <= Min(MAX_LEN, |t.tools|)
      invariant MIN_LEN <= w <= MAX_LEN + 1
      invariant Mining(key, before, stats, seen, sid, t, ballots, Ballot(w, 0))
      decreases MAX_LEN + 1 - w
    {
      stats, seen, ballots := MineRow(key, sid, t, w, stats, seen, before, ballots);
      w := w + 1;
    }
    ShortTraceDone(t, ballots, w);
  }

  lemma ShortTraceDone(t: Trace, bs: seq<Ballot>, w: nat)
    requires BallotsUpTo(t, bs, Ballot(w, 0)) && w <= MAX_LEN + 1 && (w == MAX_LEN + 1 || w > |t.tools|)
    ensures BallotsUpTo(t, bs, Ballot(MAX_LEN + 1, 0))
  {}

  ghost predicate VotesFor(key: Key, t: Trace, b: Ballot, k: string) { InTrace(t, b) && key(Window(t, b)) == k }

  ghost predicate FirstIndex(key: Key, t: Trace, bs: seq<Ballot>, i: nat, k: string) {
    i < |bs| && VotesFor(key, t, bs[i], k) && forall j | 0 <= j < i :: !VotesFor(key, t, bs[j], k)
  }

  /** A key without a ballot keeps its entry. */
  lemma {:induction false} TallyKeeps(
      key: Key, stats: map<string, Stat>, sid: string, t: Trace, bs: seq<Ballot>, k: string)
    requires Aligned(t) && AllIn(t, bs) && k !in KeysOf(key, t, bs)
    ensures k in Tally(key, stats, sid, t, bs) <==> k in stats
    ensures k in stats ==> Tally(key, stats, sid, t, bs)[k] == stats[k]
  {
    if bs != [] {
      var front, b := bs[..|bs| - 1], bs[|bs| - 1];
      assert b in bs && bs == front + [b];
      TallyKeeps(key, stats, sid, t, front, k);
    }
  }

  /** A key's entry is decided by its first ballot. */
  lemma {:induction false} TallyDecides(
      key: Key, stats: map<string, Stat>, sid: string, t: Trace, bs: seq<Ballot>, k: string) returns (i: nat)
    requires Aligned(t) && AllIn(t, bs) && k in KeysOf(key, t, bs)
    ensures FirstIndex(key, t, bs, i, k)
    ensures k in Tally(key, stats, sid, t, bs)
        && Tally(key, stats, sid, t, bs)[k] == Credited(key, stats, sid, t, bs[i])
  {
    var front, b := bs[..|bs| - 1], bs[|bs| - 1];
    assert b in bs && bs == front + [b];
    if k in KeysOf(key, t, front) {
      i := TallyDecides(key, stats, sid, t, front, k);
      assert bs[i] == front[i] && forall j | 0 <= j < i :: bs[j] == front[j];
    } else {
      i := |front|;
      TallyKeeps(key, stats, sid, t, front, k);
      forall j | 0 <= j < i ensures !VotesFor(key, t, bs[j], k) { assert bs[j] in front; }
    }
  }

  // ── All sessions ───────────────────────────────────────────────────────

  ghost predicate Votes(key: Key, t: Trace, k: string) { exists b :: VotesFor(key, t, b, k) }

  ghost predicate FirstVote(key: Key, t: Trace, b: Ballot, k: string) {
    VotesFor(key, t, b, k) && forall c | VotesFor(key, t, c, k) :: !Earlier(c, b)
  }

  ghost predicate AllAligned(traces: map<string, Trace>) { forall sid | sid in traces :: Aligned(traces[sid]) }

  /** A minable run that some session of `done` contains. */
  ghost predicate Occurring(traces: map<string, Trace>, done: set<string>, p: seq<string>) {
    Minable(p) && exists sid | sid in done && sid in traces :: Contains(traces[sid].tools, p)
  }

  /** `ids` are those of the session's first vote for the key. */
  ghost predicate FirstIds(key: Key, t: Trace, k: string, ids: seq<int>) {
    exists b :: FirstVote(key, t, b, k) && b.at + b.w <= |t.ids| && ids == IdsOf(t, b)
  }

  /** One entry as the sessions in `done` left it, whatever the keys may confuse. */
  ghost predicate EntryFrom(key: Key, traces: map<string, Trace>, done: set<string>, k: string, s: Stat) {
    && key(s.tools) == k && Occurring(traces, done, s.tools)
    && s.sessions == s.occurrences.Keys && s.sessions <= done * traces.Keys
    && (forall sid | sid in done && sid in traces :: sid in s.sessions <==> Votes(key, traces[sid], k))
    && (forall sid | sid in s.sessions :: FirstIds(key, traces[sid], k, s.occurrences[sid]))
  }

  ghost predicate MinedFrom(key: Key, traces: map<string, Trace>, done: set<string>, stats: map<string, Stat>) {
    && (forall sid, k | sid in done && sid in traces && Votes(key, traces[sid], k) :: k in stats)
    && (forall k | k in stats :: EntryFrom(key, traces, done, k, stats[k]))
  }

  lemma BallotOccurs(traces: map<string, Trace>, done: set<string>, sid: string, b: Ballot)
    requires sid in done && sid in traces && InTrace(traces[sid], b)
    ensures Occurring(traces, done, Window(traces[sid], b)) && OccursAt(traces[sid].tools, Window(traces[sid], b), b.at)
  {
    assert OccursAt(traces[sid].tools, Window(traces[sid], b), b.at);
    assert Contains(traces[sid].tools, Window(traces[sid], b));
  }

  /** The key's first ballot in mining order is its first vote. */
  lemma FirstInOrder(key: Key, t: Trace, bs: seq<Ballot>, i: nat, k: string)
    requires Aligned(t) && BallotsUpTo(t, bs, Ballot(MAX_LEN + 1, 0)) && FirstIndex(key, t, bs, i, k)
    ensures FirstVote(key, t, bs[i], k) && FirstIds(key, t, k, IdsOf(t, bs[i]))
  {
    forall c | VotesFor(key, t, c, k) ensures !Earlier(c, bs[i]) {
      assert c in bs;
      var j :| 0 <= j < |bs| && bs[j] == c;
    }
  }

  lemma OccurringGrows(traces: map<string, Trace>, done: set<string>, sid: string, p: seq<string>)
    requires Occurring(traces, done, p)
    ensures Occurring(traces, done + {sid}, p)
  {
    var home :| home in done && home in traces && Contains(traces[home].tools, p);
    assert home in done + {sid};
  }

  lemma EntryUntouched(key: Key, traces: map<string, Trace>, done: set<string>, k: string, s: Stat, sid: string)
    requires EntryFrom(key, traces, done, k, s) && sid in traces && sid !in done && !Votes(key, traces[sid], k)
    ensures EntryFrom(key, traces, done + {sid}, k, s)
  {
    OccurringGrows(traces, done, sid, s.tools);
  }

  lemma EntryCredited(
      key: Key, traces: map<string, Trace>, done: set<string>, stats: map<string, Stat>, k: string, sid: string,
      b: Ballot)
    requires sid in traces && sid !in done && Aligned(traces[sid]) && VotesFor(key, traces[sid], b, k)
    requires FirstIds(key, traces[sid], k, IdsOf(traces[sid], b))
    requires k in stats ==> EntryFrom(key, traces, done, k, stats[k])
    requires k !in stats ==> forall x | x in done && x in traces :: !Votes(key, traces[x], k)
    ensures EntryFrom(key, traces, done + {sid}, k, Credited(key, stats, sid, traces[sid], b))
  {
    BallotOccurs(traces, done + {sid}, sid, b);
    assert Votes(key, traces[sid], k);
    if k in stats {
      OccurringGrows(traces, done, sid, stats[k].tools);
      assert sid !in stats[k].occurrences;
    }
  }

  lemma SessionMined(
      key: Key, traces: map<string, Trace>, done: set<string>, before: map<string, Stat>, sid: string,
      bs: seq<Ballot>, k: string)
    requires AllAligned(traces) && MinedFrom(key, traces, done, before) && sid in traces && sid !in done
    requires BallotsUpTo(traces[sid], bs, Ballot(MAX_LEN + 1, 0))
    ensures var after := Tally(key, before, sid, traces[sid], bs);
            && (forall x | x in done + {sid} && x in traces && Votes(key, traces[x], k) :: k in after)
            && (k in after ==> EntryFrom(key, traces, done + {sid}, k, after[k]))
  {
    var t := traces[sid];
    if k in KeysOf(key, t, bs) {
      var i := TallyDecides(key, before, sid, t, bs, k);
      FirstInOrder(key, t, bs, i, k);
      EntryCredited(key, traces, done, before, k, sid, bs[i]);
    } else {
      TallyKeeps(key, before, sid, t, bs, k);
      NoBallotNoVote(key, t, bs, k);
      if k in before { EntryUntouched(key, traces, done, k, before[k], sid); }
    }
  }

  lemma NoBallotNoVote(key: Key, t: Trace, bs: seq<Ballot>, k: string)
    requires BallotsUpTo(t, bs, Ballot(MAX_LEN + 1, 0)) && k !in KeysOf(key, t, bs)
    ensures !Votes(key, t, k)
  {
    forall b ensures !VotesFor(key, t, b, k) { assert InTrace(t, b) ==> b in bs; }
  }

  /** Mine every successful session; the order of sessions does not matter. */
  method Mine(key: Key, traces: map<string, Trace>) returns (stats: map<string, Stat>)
    requires AllAligned(traces)
    ensures MinedFrom(key, traces, traces.Keys, stats)
  {
    stats := map[];
    var todo := traces.Keys;
    while todo != {}
      invariant todo <= traces.Keys && MinedFrom(key, traces, traces.Keys - todo, stats)
      decreases todo
    {
      var sid :| sid in todo;
      ghost var before, bs := stats, [];
      stats, bs := MineSession(key, sid, traces[sid], stats);
      ghost var done := traces.Keys - todo;
      assert traces.Keys - (todo - {sid}) == done + {sid};
      AllSessionMined(key, traces, done, before, sid, bs);
      todo := todo - {sid};
    }
    assert traces.Keys - {} == traces.Keys;
  }

  lemma AllSessionMined(
      key: Key, traces: map<string, Trace>, done: set<string>, before: map<string, Stat>, sid: string,
      bs: seq<Ballot>)
    requires AllAligned(traces) && MinedFrom(key, traces, done, before) && sid in traces && sid !in done
    requires BallotsUpTo(traces[sid], bs, Ballot(MAX_LEN + 1, 0))
    ensures MinedFrom(key, traces, done + {sid}, Tally(key, before, sid, traces[sid], bs))
  {
    var after := Tally(key, before, sid, traces[sid], bs);
    forall x, k | x in done + {sid} && x in traces && Votes(key, traces[x], k) ensures k in after {
      SessionMined(key, traces, done, before, sid, bs, k);
    }
    forall k | k in after ensures EntryFrom(key, traces, done + {sid}, k, after[k]) {
      SessionMined(key, traces, done, before, sid, bs, k);
    }
  }

  // ── The fast form refines containment ──────────────────────────────────

  /** What a reader would write down: a run is recorded iff some session contains it, its sessions are
      those that contain it, and each session contributes the ids of the leftmost occurrence. */
  ghost predicate BruteForce(key: Key, traces: map<string, Trace>, stats: map<string, Stat>) {
    && (forall p | Occurring(traces, traces.Keys, p) :: key(p) in stats && stats[key(p)].tools == p)
    && (forall k | k in stats :: key(stats[k].tools) == k && ExactEntry(traces, stats[k]))
  }

  ghost predicate ExactEntry(traces: map<string, Trace>, s: Stat) {
    && Occurring(traces, traces.Keys, s.tools) && s.sessions == s.occurrences.Keys
    && (forall sid :: sid in s.sessions <==> sid in traces && Contains(traces[sid].tools, s.tools))
    && (forall sid | sid in s.sessions :: LeftmostIds(traces[sid], s.tools, s.occurrences[sid]))
  }

  ghost predicate LeftmostIds(t: Trace, p: seq<string>, ids: seq<int>) {
    exists at: nat :: FirstAt(t.tools, p, at) && at + |p| <= |t.ids| && ids == t.ids[at..at + |p|]
  }

  /** No two different runs of the sessions share a key. */
  ghost predicate KeysDistinct(key: Key, traces: map<string, Trace>) {
    forall p, q | Occurring(traces, traces.Keys, p) && Occurring(traces, traces.Keys, q) && key(p) == key(q) :: p == q
  }

  lemma OccurrenceVotes(key: Key, t: Trace, p: seq<string>, at: nat)
    requires Minable(p) && OccursAt(t.tools, p, at)
    ensures VotesFor(key, t, Ballot(|p|, at), key(p)) && Window(t, Ballot(|p|, at)) == p
  {}

  /** Under distinct keys a vote for a recorded run is an occurrence of it. */
  lemma VoteIsOccurrence(key: Key, traces: map<string, Trace>, p: seq<string>, sid: string, b: Ballot)
    requires KeysDistinct(key, traces) && Occurring(traces, traces.Keys, p)
    requires sid in traces && VotesFor(key, traces[sid], b, key(p))
    ensures Window(traces[sid], b) == p && OccursAt(traces[sid].tools, p, b.at) && b.w == |p|
  {
    BallotOccurs(traces, traces.Keys, sid, b);
  }

  lemma VotersContain(key: Key, traces: map<string, Trace>, p: seq<string>, sid: string)
    requires KeysDistinct(key, traces) && Occurring(traces, traces.Keys, p) && sid in traces
    ensures Votes(key, traces[sid], key(p)) <==> Contains(traces[sid].tools, p)
  {
    if b :| VotesFor(key, traces[sid], b, key(p)) {
      VoteIsOccurrence(key, traces, p, sid, b);
    }
    if at: nat :| OccursAt(traces[sid].tools, p, at) {
      OccurrenceVotes(key, traces[sid], p, at);
    }
  }

  lemma FirstVoteIsLeftmost(key: Key, t: Trace, p: seq<string>, b: Ballot)
    requires Minable(p) && FirstVote(key, t, b, key(p)) && b.w == |p| && OccursAt(t.tools, p, b.at)
    ensures FirstAt(t.tools, p, b.at)
  {
    forall k: nat | k < b.at ensures !OccursAt(t.tools, p, k) {
      if OccursAt(t.tools, p, k) {
        OccurrenceVotes(key, t, p, k);
      }
    }
  }

  lemma FirstIdsAreLeftmost(key: Key, t: Trace, p: seq<string>, ids: seq<int>, b: Ballot)
    requires Minable(p) && FirstVote(key, t, b, key(p)) && b.w == |p| && OccursAt(t.tools, p, b.at)
    requires b.at + b.w <= |t.ids| && ids == IdsOf(t, b)
    ensures LeftmostIds(t, p, ids)
  {
    FirstVoteIsLeftmost(key, t, p, b);
  }

  lemma VoterIdsAreLeftmost(key: Key, traces: map<string, Trace>, p: seq<string>, sid: string, ids: seq<int>)
    requires KeysDistinct(key, traces) && Occurring(traces, traces.Keys, p) && sid in traces
    requires FirstIds(key, traces[sid], key(p), ids)
    ensures LeftmostIds(traces[sid], p, ids)
  {
    var b :| FirstVote(key, traces[sid], b, key(p)) && b.at + b.w <= |traces[sid].ids| && ids == IdsOf(traces[sid], b);
    VoteIsOccurrence(key, traces, p, sid, b);
    FirstIdsAreLeftmost(key, traces[sid], p, ids, b);
  }

  lemma EntryIsExact(key: Key, traces: map<string, Trace>, k: string, s: Stat)
    requires KeysDistinct(key, traces) && EntryFrom(key, traces, traces.Keys, k, s)
    ensures ExactEntry(traces, s)
  {
    forall sid ensures sid in s.sessions <==> sid in traces && Contains(traces[sid].tools, s.tools) {
      if sid in traces { VotersContain(key, traces, s.tools, sid); }
    }
    forall sid | sid in s.sessions ensures LeftmostIds(traces[sid], s.tools, s.occurrences[sid]) {
      VoterIdsAreLeftmost(key, traces, s.tools, sid, s.occurrences[sid]);
    }
  }

  lemma ContainedIsRecorded(key: Key, traces: map<string, Trace>, stats: map<string, Stat>, p: seq<string>)
    requires KeysDistinct(key, traces) && MinedFrom(key, traces, traces.Keys, stats)
        && Occurring(traces, traces.Keys, p)
    ensures key(p) in stats && stats[key(p)].tools == p
  {
    var sid :| sid in traces && Contains(traces[sid].tools, p);
    VotersContain(key, traces, p, sid);
    assert EntryFrom(key, traces, traces.Keys, key(p), stats[key(p)]);
  }

  /** The miner agrees with containment exactly when no two different runs share a key. */
  lemma MinerRefinesBruteForce(key: Key, traces: map<string, Trace>, stats: map<string, Stat>)
    requires MinedFrom(key, traces, traces.Keys, stats)
    ensures BruteForce(key, traces, stats) <==> KeysDistinct(key, traces)
  {
    if KeysDistinct(key, traces) {
      forall k | k in stats ensures key(stats[k].tools) == k && ExactEntry(traces, stats[k]) {
        EntryIsExact(key, traces, k, stats[k]);
      }
      forall p | Occurring(traces, traces.Keys, p) ensures key(p) in stats && stats[key(p)].tools == p {
        ContainedIsRecorded(key, traces, stats, p);
      }
    }
  }

  /** Tool names without the separator never collide. */
  lemma PlainNamesAreDistinct(traces: map<string, Trace>)
    requires forall sid | sid in traces :: NoSeparator(traces[sid].tools)
    ensures KeysDistinct(Join, traces)
  {
    forall p, q | Occurring(traces, traces.Keys, p) && Occurring(traces, traces.Keys, q) && Join(p) == Join(q)
      ensures p == q
    {
      PartsArePlain(traces, p);
      PartsArePlain(traces, q);
      JoinInjective(p, q);
    }
  }

  lemma PartsArePlain(traces: map<string, Trace>, p: seq<string>)
    requires (forall sid | sid in traces :: NoSeparator(traces[sid].tools)) && Occurring(traces, traces.Keys, p)
    ensures NoSeparator(p)
  {
    var sid :| sid in traces && Contains(traces[sid].tools, p);
    var at: nat :| OccursAt(traces[sid].tools, p, at);
    forall i | 0 <= i < |p| ensures '>' !in p[i] { assert p[i] == traces[sid].tools[at + i]; }
  }

  /** A separator inside a name does confuse two runs. */
  lemma SeparatorCollides()
    ensures Join(["a>b", "c"]) == Join(["a", "b>c"])
  {
    assert Join(["c"]) == "c" && Join(["b>c"]) == "b>c";
    assert ["a>b", "c"][1..] == ["c"] && ["a", "b>c"][1..] == ["b>c"];
  }

  function ClashingTraces(): map<string, Trace> {
    map["s" := Trace(["a>b", "c"], [1, 2]), "t" := Trace(["a", "b>c"], [3, 4])]
  }

  lemma ClashingRunsOccur()
    ensures var ts := ClashingTraces();
            Occurring(ts, ts.Keys, ["a>b", "c"]) && Occurring(ts, ts.Keys, ["a", "b>c"])
  {
    var ts := ClashingTraces();
    TwoDiffer(["a>b", "c"]);
    TwoDiffer(["a", "b>c"]);
    assert ts["s"].tools[0..2] == ["a>b", "c"] && OccursAt(ts["s"].tools, ["a>b", "c"], 0);
    assert ts["t"].tools[0..2] == ["a", "b>c"] && OccursAt(ts["t"].tools, ["a", "b>c"], 0);
  }

  /** Two sessions whose mined table, whichever way it was filled, is not the brute-force one. */
  lemma SeparatorBreaksMining()
    ensures forall stats | MinedFrom(Join, ClashingTraces(), ClashingTraces().Keys, stats) ::
              !BruteForce(Join, ClashingTraces(), stats)
  {
    ClashingRunsOccur();
    SeparatorCollides();
    assert ["a>b", "c"][0] != ["a", "b>c"][0];
    forall stats | MinedFrom(Join, ClashingTraces(), ClashingTraces().Keys, stats)
      ensures !BruteForce(Join, ClashingTraces(), stats)
    {
      MinerRefinesBruteForce(Join, ClashingTraces(), stats);
    }
  }
}
