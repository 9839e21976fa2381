/** Namespace resolution: which of the stored preferences, intents and notes a viewpoint sees. */
module Fingerprint {
  import opened Common
  import opened Records

  datatype Kind =
    | Preference | Intent | Constraint | Pattern | Experience | Principle | Style | Taste
    | Fact | Decision | Skill | Other

  datatype Lane = Durable | Goals | Passing

  function LaneOf(k: Kind): Lane {
    if k in {Preference, Style, Taste, Constraint, Principle, Pattern} then Durable
    else if k == Intent then Goals
    else Passing
  }

  /** What reading a record's intent metadata gives. */
  datatype Goal = Actionable | Finished | Unreadable

  datatype Entry = Entry(
    id: string, kind: Kind, namespace: string, authority: Authority, scope: Scope, workspace: Option<string>,
        task: Option<string>,
    status: RecordStatus, confidence: real, updatedAt: nat, goal: Goal)

  datatype Viewpoint = Viewpoint(workspace: Option<string>, task: Option<string>)

  predicate Applies(e: Entry, v: Viewpoint) {
    match e.scope
    case Global => true
    case Project => v.workspace.Some? && v.workspace == e.workspace
    case Task => v.workspace.Some? && v.task.Some? && v.workspace == e.workspace && v.task == e.task
  }

  function ScopeRank(s: Scope): nat { match s case Task => 3 case Project => 2 case Global => 1 }

  /** Authority, then specificity, then confidence, then recency, then the smaller id. */
  predicate Stronger(a: Entry, b: Entry) {
    if a.authority != b.authority then AuthorityRank(a.authority) > AuthorityRank(b.authority)
    else if a.scope != b.scope then ScopeRank(a.scope) > ScopeRank(b.scope)
    else if a.confidence != b.confidence then a.confidence > b.confidence
    else if a.updatedAt != b.updatedAt then a.updatedAt > b.updatedAt
    else Before(a.id, b.id)
  }

  predicate Newer(a: Entry, b: Entry) {
    if a.updatedAt != b.updatedAt then a.updatedAt > b.updatedAt else Before(a.id, b.id)
  }

  ghost predicate DistinctIds(s: set<Entry>) { forall x, y | x in s && y in s && x.id == y.id :: x == y }

  lemma StrongerChains(x: Entry, y: Entry, z: Entry)
    ensures Stronger(x, y) && Stronger(y, z) ==> Stronger(x, z)
    ensures Newer(x, y) && Newer(y, z) ==> Newer(x, z)
  {
    if Before(x.id, y.id) && Before(y.id, z.id) { BeforeTransitive(x.id, y.id, z.id); }
  }

  lemma StrongerCompares(x: Entry, y: Entry)
    ensures !Stronger(x, x) && !Newer(x, x)
    ensures x.id != y.id ==> (Stronger(x, y) || Stronger(y, x)) && (Newer(x, y) || Newer(y, x))
  {
    BeforeConnected(x.id, y.id);
    BeforeConnected(x.id, x.id);
  }

  lemma StrongerIsTotal(s: set<Entry>)
    requires DistinctIds(s)
    ensures TotalOn(Stronger, s) && TotalOn(Newer, s)
  {
    forall x, y | x in s && y in s
      ensures !Stronger(x, x) && !Newer(x, x)
      ensures x != y ==> (Stronger(x, y) || Stronger(y, x)) && (Newer(x, y) || Newer(y, x))
    {
      StrongerCompares(x, y);
    }
    forall x, y, z
      ensures Stronger(x, y) && Stronger(y, z) ==> Stronger(x, z)
      ensures Newer(x, y) && Newer(y, z) ==> Newer(x, z)
    {
      StrongerChains(x, y, z);
    }
  }

  // ── Where each record ends up ──────────────────────────────────────────

  datatype Fate = Unseen | Winner | Suppressed | Goal | Passed | Malformed | Skipped

  predicate SameGroup(a: Entry, b: Entry) { a.kind == b.kind && a.namespace == b.namespace }

  predicate Contends(e: Entry, v: Viewpoint) { Applies(e, v) && LaneOf(e.kind) == Durable }

  ghost function Group(s: set<Entry>, v: Viewpoint, kind: Kind, namespace: string): set<Entry> {
    set x | x in s && Contends(x, v) && x.kind == kind && x.namespace == namespace
  }

  /** The strongest of its kind and namespace. */
  ghost predicate Wins(s: set<Entry>, v: Viewpoint, e: Entry) {
    Contends(e, v) && forall x | x in s && Contends(x, v) && SameGroup(x, e) :: x == e || Stronger(e, x)
  }

  ghost function FateOf(s: set<Entry>, v: Viewpoint, e: Entry): Fate {
    if !Applies(e, v) then Unseen
    else match LaneOf(e.kind)
      case Durable => if Wins(s, v, e) then Winner else Suppressed
      case Goals =>
        if e.status != Active || e.goal == Finished then Skipped
        else if e.goal == Unreadable then Malformed
        else Fate.Goal
      case Passing => Passed
  }

  ghost function With(s: set<Entry>, v: Viewpoint, f: Fate): set<Entry> { set x | x in s && FateOf(s, v, x) == f }

  datatype Resolved = Resolved(fingerprint: seq<Entry>, intents: seq<Entry>, other: seq<Entry>, suppressed: seq<string>,
      malformed: nat)

  ghost function Ids(s: set<Entry>): set<string> { set x | x in s :: x.id }

  /** The outcome, in terms of the set of records alone. */
  ghost predicate Resolves(s: set<Entry>, v: Viewpoint, out: Resolved) {
    && Elements(out.fingerprint) == With(s, v, Winner) && Sorted(Stronger, out.fingerprint)
    && Elements(out.intents) == With(s, v, Fate.Goal) && Sorted(Newer, out.intents)
    && Elements(out.other) == With(s, v, Passed) && Sorted(Stronger, out.other)
    && Elements(out.suppressed) == Ids(With(s, v, Suppressed)) && Sorted(Before, out.suppressed)
    && out.malformed == |With(s, v, Malformed)|
  }

  // ── Resolution does not depend on order ────────────────────────────────

  /** Records with different ids resolve in only one way, however they arrive. */
  lemma ResolutionIsOrderFree(s: set<Entry>, v: Viewpoint, a: Resolved, b: Resolved)
    requires DistinctIds(s) && Resolves(s, v, a) && Resolves(s, v, b)
    ensures a == b
  {
    StrongerIsTotal(Elements(a.fingerprint));
    StrongerIsTotal(Elements(a.intents));
    StrongerIsTotal(Elements(a.other));
    BeforeIsTotal(Elements(a.suppressed));
    SortedUnique(Stronger, a.fingerprint, b.fingerprint);
    SortedUnique(Newer, a.intents, b.intents);
    SortedUnique(Stronger, a.other, b.other);
    SortedUnique(Before, a.suppressed, b.suppressed);
  }

  // ── Nothing is lost ────────────────────────────────────────────────────

  lemma SortedIsDistinct<T(!new)>(less: (T, T) -> bool, s: seq<T>)
    requires Sorted(less, s) && forall x | x in s :: !less(x, x)
    ensures |s| == |Elements(s)|
  {
    forall i, j | 0 <= i < j < |s| ensures s[i] != s[j] { assert less(s[i], s[j]); }
    DistinctCountsOnce(s);
  }

  lemma {:induction false} IdsCount(s: set<Entry>)
    requires DistinctIds(s)
    ensures |Ids(s)| == |s|
  {
    if s != {} {
      var x :| x in s;
      IdsCount(s - {x});
      assert Ids(s) == Ids(s - {x}) + {x.id};
    }
  }

  ghost function Class(s: set<Entry>, fate: Entry -> Fate, f: Fate): set<Entry> { set x | x in s && fate(x) == f }

  lemma ClassGrows(s: set<Entry>, fate: Entry -> Fate, x: Entry, f: Fate)
    requires x in s
    ensures |Class(s, fate, f)| == |Class(s - {x}, fate, f)| + if fate(x) == f then 1 else 0
  {
    var rest := Class(s - {x}, fate, f);
    assert Class(s, fate, f) == if fate(x) == f then rest + {x} else rest;
  }

  /** The fates split any set of records. */
  lemma {:induction false} FatesPartition(s: set<Entry>, fate: Entry -> Fate)
    ensures |s| == |Class(s, fate, Unseen)| + |Class(s, fate, Winner)| + |Class(s, fate, Suppressed)|
                   + |Class(s, fate, Fate.Goal)| + |Class(s, fate, Passed)| + |Class(s, fate, Malformed)|
                   + |Class(s, fate, Skipped)|
  {
    if s != {} {
      var x :| x in s;
      FatesPartition(s - {x}, fate);
      ClassGrows(s, fate, x, Unseen);
      ClassGrows(s, fate, x, Winner);
      ClassGrows(s, fate, x, Suppressed);
      ClassGrows(s, fate, x, Fate.Goal);
      ClassGrows(s, fate, x, Passed);
      ClassGrows(s, fate, x, Malformed);
      ClassGrows(s, fate, x, Skipped);
    }
  }

  lemma OutputsCount(s: set<Entry>, v: Viewpoint, out: Resolved)
    requires DistinctIds(s) && Resolves(s, v, out)
    ensures |out.fingerprint| == |With(s, v, Winner)| && |out.intents| == |With(s, v, Fate.Goal)|
    ensures |out.other| == |With(s, v, Passed)| && |out.suppressed| == |With(s, v, Suppressed)|
  {
    StrongerIsTotal(Elements(out.fingerprint));
    StrongerIsTotal(Elements(out.intents));
    StrongerIsTotal(Elements(out.other));
    BeforeIsTotal(Elements(out.suppressed));
    SortedIsDistinct(Stronger, out.fingerprint);
    SortedIsDistinct(Newer, out.intents);
    SortedIsDistinct(Stronger, out.other);
    SortedIsDistinct(Before, out.suppressed);
    IdsCount(With(s, v, Suppressed));
  }

  /** An intent that applies but is finished or no longer active. */
  predicate Retired(e: Entry, v: Viewpoint) {
    Applies(e, v) && LaneOf(e.kind) == Goals && (e.status != Active || e.goal == Finished)
  }

  /** Every applicable record is shown as a winner, an intent or a note, or named as suppressed, or counted as
      malformed, or is an intent that is finished or no longer active: exactly one of these. */
  lemma ResolutionConserves(s: set<Entry>, v: Viewpoint, out: Resolved)
    requires DistinctIds(s) && Resolves(s, v, out)
    ensures |out.fingerprint| + |out.suppressed| + |out.intents| + |out.other| + out.malformed
            + |set x | x in s && Retired(x, v)| == |set x | x in s && Applies(x, v)|
  {
    OutputsCount(s, v, out);
    var fate: Entry -> Fate := e => FateOf(s, v, e);
    FatesPartition(s, fate);
    forall f ensures Class(s, fate, f) == With(s, v, f) {}
    forall e ensures (fate(e) == Unseen <==> !Applies(e, v))
        && (fate(e) == Skipped <==> Retired(e, v)) { FateSplits(s, v, e); }
    SeenAndSkipped(s, v, fate);
  }

  lemma SeenAndSkipped(s: set<Entry>, v: Viewpoint, fate: Entry -> Fate)
    requires forall e :: (fate(e) == Unseen <==> !Applies(e, v)) && (fate(e) == Skipped <==> Retired(e, v))
    ensures Class(s, fate, Skipped) == set x | x in s && Retired(x, v)
    ensures |s| == |set x | x in s && Applies(x, v)| + |Class(s, fate, Unseen)|
  {
    assert s == (set x | x in s && Applies(x, v)) + Class(s, fate, Unseen);
  }

  lemma FateSplits(s: set<Entry>, v: Viewpoint, e: Entry)
    ensures FateOf(s, v, e) == Unseen <==> !Applies(e, v)
    ensures FateOf(s, v, e) == Skipped <==> Retired(e, v)
  {
  }

  /** A nonempty set of contenders has a strongest one. */
  lemma {:induction false} StrongestExists(s: set<Entry>) returns (best: Entry)
    requires s != {} && DistinctIds(s)
    ensures best in s && forall x | x in s :: x == best || Stronger(best, x)
  {
    var x :| x in s;
    var rest := s - {x};
    assert s == rest + {x};
    if rest == {} { return x; }
    best := StrongestExists(rest);
    StrongerIsTotal(s);
    if Stronger(x, best) { best := x; }
  }

  /** Each kind and namespace that applies has exactly one winner; nothing there has more authority, and nothing of
      the same authority is more specific. */
  lemma OneWinnerPerNamespace(s: set<Entry>, v: Viewpoint, e: Entry) returns (w: Entry)
    requires DistinctIds(s) && e in s && Contends(e, v)
    ensures w in With(s, v, Winner) && SameGroup(w, e)
    ensures forall x | x in With(s, v, Winner) && SameGroup(x, e) :: x == w
    ensures forall x | x in s && Contends(x, v) && SameGroup(x, e) ::
        AuthorityRank(x.authority) <= AuthorityRank(w.authority)
    ensures forall x | x in s && Contends(x, v) && SameGroup(x, e) && x.authority == w.authority ::
        ScopeRank(x.scope) <= ScopeRank(w.scope)
  {
    var g := Group(s, v, e.kind, e.namespace);
    assert e in g;
    w := StrongestExists(g);
    StrongerIsTotal(s);
    forall x | x in With(s, v, Winner) && SameGroup(x, e) ensures x == w { assert x in g; }
    forall x | x in s && Contends(x, v) && SameGroup(x, e)
      ensures AuthorityRank(x.authority) <= AuthorityRank(w.authority)
          && (x.authority == w.authority ==> ScopeRank(x.scope) <= ScopeRank(w.scope))
    {
      assert x in g;
    }
  }

  // ── The loops ──────────────────────────────────────────────────────────

  type Key = (Kind, string)

  function KeyOf(e: Entry): Key { (e.kind, e.namespace) }

  predicate Shows(e: Entry, v: Viewpoint) {
    Applies(e, v) && LaneOf(e.kind) == Goals && e.status == Active && e.goal == Actionable
  }

  predicate Broken(e: Entry, v: Viewpoint) {
    Applies(e, v) && LaneOf(e.kind) == Goals && e.status == Active && e.goal == Unreadable
  }

  predicate Passes(e: Entry, v: Viewpoint) { Applies(e, v) && LaneOf(e.kind) == Passing }

  /** Each group holds its contenders among the records seen, and no contender is without a group. */
  ghost predicate Grouped(groups: map<Key, seq<Entry>>, seen: set<Entry>, v: Viewpoint) {
    && (forall k | k in groups ::
          groups[k] != [] && Distinct(groups[k]) && Elements(groups[k]) == Group(seen, v, k.0, k.1))
    && forall x | x in seen && Contends(x, v) :: KeyOf(x) in groups
  }

  /** Exactly the chosen records, each once. */
  ghost predicate Collects(out: seq<Entry>, seen: set<Entry>, chosen: Entry -> bool) {
    Distinct(out) && Elements(out) == set x | x in seen && chosen(x)
  }

  lemma CollectNext(out: seq<Entry>, seen: set<Entry>, chosen: Entry -> bool, x: Entry)
    requires Collects(out, seen, chosen) && x !in seen
    ensures Collects(if chosen(x) then out + [x] else out, seen + {x}, chosen)
  {
    if chosen(x) {
      assert x !in Elements(out);
      assert Elements(out + [x]) == Elements(out) + {x};
      assert (set y | y in seen + {x} && chosen(y)) == (set y | y in seen && chosen(y)) + {x};
    } else {
      assert (set y | y in seen + {x} && chosen(y)) == (set y | y in seen && chosen(y));
    }
  }

  lemma CountNext(seen: set<Entry>, chosen: Entry -> bool, x: Entry)
    requires x !in seen
    ensures |set y | y in seen + {x} && chosen(y)| == |set y | y in seen && chosen(y)| + if chosen(x) then 1 else 0
  {
    assert (set y | y in seen + {x} && chosen(y)) == (set y | y in seen && chosen(y)) + if chosen(x) then {x} else {};
  }

  function Joined(groups: map<Key, seq<Entry>>, e: Entry): map<Key, seq<Entry>> {
    groups[KeyOf(e) := if KeyOf(e) in groups then groups[KeyOf(e)] + [e] else [e]]
  }

  lemma JoinGroup(groups: map<Key, seq<Entry>>, seen: set<Entry>, v: Viewpoint, e: Entry)
    requires Grouped(groups, seen, v) && e !in seen
    ensures Grouped(if Contends(e, v) then Joined(groups, e) else groups, seen + {e}, v)
  {
    var next := if Contends(e, v) then Joined(groups, e) else groups;
    forall k | k in next ensures next[k] != [] && Distinct(next[k])
        && Elements(next[k]) == Group(seen + {e}, v, k.0, k.1) {
      if Contends(e, v) && k == KeyOf(e) {
        assert Group(seen + {e}, v, k.0, k.1) == Group(seen, v, k.0, k.1) + {e};
        if k in groups {
          assert e !in Elements(groups[k]);
          assert Elements(groups[k] + [e]) == Elements(groups[k]) + {e};
        } else {
          assert Group(seen, v, k.0, k.1) == {};
          assert Elements([e]) == {e};
        }
      } else {
        assert Group(seen + {e}, v, k.0, k.1) == Group(seen, v, k.0, k.1);
      }
    }
  }

  /** Sort the applicable records into lanes and groups. */
  method SortIntoLanes(
      records: seq<Entry>, v: Viewpoint)
    returns (groups: map<Key, seq<Entry>>, intents: seq<Entry>, other: seq<Entry>, malformed: nat)
    requires Distinct(records)
    ensures Grouped(groups, Elements(records), v)
    ensures Collects(intents, Elements(records), e => Shows(e, v))
        && Collects(other, Elements(records), e => Passes(e, v))
    ensures malformed == |set x | x in records && Broken(x, v)|
  {
    groups, intents, other, malformed := map[], [], [], 0;
    ghost var shows, passes, broken: Entry -> bool := e => Shows(e, v), e => Passes(e, v), e => Broken(e, v);
    ghost var seen: set<Entry> := {};
    for i := 0 to |records|
      invariant seen == Elements(records[..i])
      invariant Grouped(groups, seen, v)
      invariant Collects(intents, seen, shows) && Collects(other, seen, passes)
      invariant malformed == |set x | x in seen && broken(x)|
    {
      var e := records[i];
      assert records[..i + 1] == records[..i] + [e];
      assert e !in seen;
      JoinGroup(groups, seen, v, e);
      CollectNext(intents, seen, shows, e);
      CollectNext(other, seen, passes, e);
      CountNext(seen, broken, e);
      seen := seen + {e};
      if !Applies(e, v) { continue; }
      match LaneOf(e.kind)
      case Durable => groups := Joined(groups, e);
      case Goals =>
        if e.status != Active { continue; }
        match e.goal {
          case Actionable => intents := intents + [e];
          case Finished =>
          case Unreadable => malformed := malformed + 1;
        }
      case Passing => other := other + [e];
    }
    assert records[..|records|] == records;
    assert (set x | x in seen && broken(x)) == set x | x in records && Broken(x, v);
  }

  /** The head of a sorted group wins it, and nobody else in it does. */
  lemma HeadWins(all: set<Entry>, v: Viewpoint, k: Key, ranked: seq<Entry>)
    requires DistinctIds(all) && ranked != [] && Sorted(Stronger, ranked) && Elements(ranked) == Group(all, v, k.0, k.1)
    ensures forall x | x in all && Contends(x, v) && KeyOf(x) == k :: Wins(all, v, x) <==> x == ranked[0]
  {
    assert ranked[0] in Elements(ranked);
    StrongerIsTotal(all);
    forall x | x in all && Contends(x, v) && KeyOf(x) == k ensures x == ranked[0] || Stronger(ranked[0], x) {
      assert x in Elements(ranked);
      var i :| 0 <= i < |ranked| && ranked[i] == x;
    }
  }

  /** The winners and losers of the groups decided so far. */
  ghost predicate Decided(all: set<Entry>, v: Viewpoint, keys: set<Key>, fingerprint: seq<Entry>, losers: seq<Entry>) {
    && Distinct(fingerprint) && Elements(fingerprint)
        == (set x | x in all && Contends(x, v) && KeyOf(x) in keys && Wins(all, v, x))
    && Distinct(losers) && Elements(losers) == (set x | x in all && Contends(x, v) && KeyOf(x) in keys
        && !Wins(all, v, x))
  }

  lemma DecideNext(
      all: set<Entry>, v: Viewpoint, keys: set<Key>, fingerprint: seq<Entry>, losers: seq<Entry>, k: Key,
      ranked: seq<Entry>)
    requires DistinctIds(all) && Decided(all, v, keys, fingerprint, losers) && k !in keys
    requires ranked != [] && Distinct(ranked) && Sorted(Stronger, ranked) && Elements(ranked) == Group(all, v, k.0, k.1)
    ensures Decided(all, v, keys + {k}, fingerprint + [ranked[0]], losers + ranked[1..])
  {
    HeadWins(all, v, k, ranked);
    StrongerIsTotal(Elements(ranked));
    TailElements(Stronger, ranked);
    var head, tail := ranked[0], ranked[1..];
    assert head in Elements(ranked);
    assert head !in Elements(fingerprint) && Elements(fingerprint + [head]) == Elements(fingerprint) + {head};
    assert Elements(losers + tail) == Elements(losers) + Elements(tail);
    assert Elements(losers) !! Elements(tail);
    JoinDistinct(losers, tail);
  }

  lemma JoinDistinct(a: seq<Entry>, b: seq<Entry>)
    requires Distinct(a) && Distinct(b) && Elements(a) !! Elements(b)
    ensures Distinct(a + b)
  {
    forall i, j | 0 <= i < j < |a + b| ensures (a + b)[i] != (a + b)[j] {
      if i < |a| <= j { assert a[i] in Elements(a) && b[j - |a|] in Elements(b); }
    }
  }

  /** Reduce each group to its strongest record; the others lose. */
  method Contest(
      groups: map<Key, seq<Entry>>, ghost all: set<Entry>, v: Viewpoint)
    returns (fingerprint: seq<Entry>, losers: seq<Entry>)
    requires Grouped(groups, all, v) && DistinctIds(all)
    ensures Decided(all, v, groups.Keys, fingerprint, losers)
  {
    fingerprint, losers := [], [];
    var left := groups.Keys;
    ghost var done: set<Key> := {};
    while left != {}
      invariant left !! done && left + done == groups.Keys
      invariant Decided(all, v, done, fingerprint, losers)
    {
      var k :| k in left;
      StrongerIsTotal(Elements(groups[k]));
      var ranked := Sort(Stronger, groups[k]);
      SameElements(ranked, groups[k]);
      StillDistinct(ranked, groups[k]);
      DecideNext(all, v, done, fingerprint, losers, k, ranked);
      fingerprint, losers := fingerprint + [ranked[0]], losers + ranked[1..];
      left, done := left - {k}, done + {k};
    }
  }

  lemma StillDistinct(a: seq<Entry>, b: seq<Entry>)
    requires multiset(a) == multiset(b) && Distinct(b) && Sorted(Stronger, a) && DistinctIds(Elements(a))
    ensures Distinct(a)
  {
    StrongerIsTotal(Elements(a));
    forall i, j | 0 <= i < j < |a| ensures a[i] != a[j] { assert a[i] in Elements(a) && Stronger(a[i], a[j]); }
  }

  lemma IdsDistinct(s: seq<Entry>, ids: seq<string>)
    requires Distinct(s) && DistinctIds(Elements(s)) && |ids| == |s| && forall i | 0 <= i < |s| :: ids[i] == s[i].id
    ensures Distinct(ids) && Elements(ids) == Ids(Elements(s))
  {
    forall i, j | 0 <= i < j < |s| ensures ids[i] != ids[j] { assert s[i] in Elements(s) && s[j] in Elements(s); }
    forall x | x in Ids(Elements(s)) ensures x in ids {
      var e :| e in s && e.id == x;
      var i :| 0 <= i < |s| && s[i] == e;
      assert ids[i] == x;
    }
  }

  /** The ids of the losing records, in order. */
  method SuppressedIds(losers: seq<Entry>) returns (ids: seq<string>)
    requires Distinct(losers) && DistinctIds(Elements(losers))
    ensures Elements(ids) == Ids(Elements(losers)) && Sorted(Before, ids)
  {
    var suppressed := seq(|losers|, i requires 0 <= i < |losers| => losers[i].id);
    IdsDistinct(losers, suppressed);
    BeforeIsTotal(Elements(suppressed));
    ids := Sort(Before, suppressed);
  }

  /** Resolve the records for one viewpoint. */
  method ResolveContext(records: seq<Entry>, v: Viewpoint) returns (out: Resolved)
    requires Distinct(records) && DistinctIds(Elements(records))
    ensures Resolves(Elements(records), v, out)
  {
    ghost var all := Elements(records);
    var groups, intents, other, malformed := SortIntoLanes(records, v);
    var fingerprint, losers := Contest(groups, all, v);
    StrongerIsTotal(all);
    var first := Sort(Stronger, fingerprint);
    var second := Sort(Newer, intents);
    var third := Sort(Stronger, other);
    var suppressed := SuppressedIds(losers);
    out := Resolved(first, second, third, suppressed, malformed);
    LanesMatchFates(all, v, groups, fingerprint, losers);
    assert (set x | x in records && Broken(x, v)) == With(all, v, Malformed);
  }

  lemma LanesMatchFates(
      all: set<Entry>, v: Viewpoint, groups: map<Key, seq<Entry>>, fingerprint: seq<Entry>, losers: seq<Entry>)
    requires Grouped(groups, all, v) && Decided(all, v, groups.Keys, fingerprint, losers)
    ensures Elements(fingerprint) == With(all, v, Winner) && Elements(losers) == With(all, v, Suppressed)
    ensures (set x | x in all && Shows(x, v)) == With(all, v, Fate.Goal)
    ensures (set x | x in all && Passes(x, v)) == With(all, v, Passed)
    ensures (set x | x in all && Broken(x, v)) == With(all, v, Malformed)
  {
  }

  // ── The outcome on the fields ──────────────────────────────────────────

  /** Global records are seen everywhere, others from their own workspace, those of a task from that task. */
  predicate Sees(v: Viewpoint, e: Entry) {
    e.scope == Global || (v.workspace.Some? && e.workspace == v.workspace
                          && (e.scope == Task ==> v.task.Some? && e.task == v.task))
  }

  predicate Lasting(e: Entry) { e.kind in {Preference, Style, Taste, Constraint, Principle, Pattern} }

  /** More authority; then the narrower scope; then more confidence; then the later update; then the smaller id. */
  predicate Ahead(a: Entry, b: Entry) {
    || AuthorityRank(a.authority) > AuthorityRank(b.authority)
    || (a.authority == b.authority && Narrower(a.scope, b.scope))
    || (a.authority == b.authority && a.scope == b.scope && a.confidence > b.confidence)
    || (a.authority == b.authority && a.scope == b.scope && a.confidence == b.confidence && Fresher(a, b))
  }

  predicate Narrower(a: Scope, b: Scope) { (a == Task && b != Task) || (a == Project && b == Global) }

  predicate Fresher(a: Entry, b: Entry) {
    a.updatedAt > b.updatedAt || (a.updatedAt == b.updatedAt && Before(a.id, b.id))
  }

  lemma StrongerIsAhead(a: Entry, b: Entry)
    ensures (Stronger(a, b) <==> Ahead(a, b)) && (Newer(a, b) <==> Fresher(a, b))
  {
  }

  /** No other record in view of its kind and namespace is ahead of it. */
  ghost predicate Leads(s: set<Entry>, v: Viewpoint, e: Entry) {
    forall x | x in s && Sees(v, x) && x.kind == e.kind && x.namespace == e.namespace && x != e :: Ahead(e, x)
  }

  /** Where each record in view is found. */
  ghost predicate Placed(s: set<Entry>, v: Viewpoint, out: Resolved, e: Entry) {
    && (e in out.fingerprint <==> e in s && Sees(v, e) && Lasting(e) && Leads(s, v, e))
    && (e in out.intents <==> e in s && Sees(v, e) && e.kind == Intent && e.status == Active && e.goal == Actionable)
    && (e in out.other <==> e in s && Sees(v, e) && e.kind != Intent && !Lasting(e))
    && (e in s ==> (e.id in out.suppressed <==> Sees(v, e) && Lasting(e) && !Leads(s, v, e)))
  }

  ghost predicate ByFields(s: set<Entry>, v: Viewpoint, out: Resolved) {
    && (forall e :: Placed(s, v, out, e))
    && (forall id | id in out.suppressed :: exists e | e in s :: e.id == id)
    && (forall i, j | 0 <= i < j < |out.fingerprint| :: Ahead(out.fingerprint[i], out.fingerprint[j]))
    && (forall i, j | 0 <= i < j < |out.other| :: Ahead(out.other[i], out.other[j]))
    && (forall i, j | 0 <= i < j < |out.intents| :: Fresher(out.intents[i], out.intents[j]))
    && (forall i, j | 0 <= i < j < |out.suppressed| :: Before(out.suppressed[i], out.suppressed[j]))
    && out.malformed
       == |set e | e in s && Sees(v, e) && e.kind == Intent && e.status == Active && e.goal == Unreadable|
  }

  lemma PlacedByFate(s: set<Entry>, v: Viewpoint, out: Resolved, e: Entry)
    requires DistinctIds(s) && Resolves(s, v, out)
    ensures Placed(s, v, out, e)
  {
    assert e in out.fingerprint <==> e in Elements(out.fingerprint);
    assert e in out.intents <==> e in Elements(out.intents);
    assert e in out.other <==> e in Elements(out.other);
    assert e.id in out.suppressed <==> e.id in Elements(out.suppressed);
    if Sees(v, e) && Lasting(e) { WinsIffLeads(s, v, e); }
    if e in s && e.id in Ids(With(s, v, Suppressed)) {
      var x :| x in With(s, v, Suppressed) && x.id == e.id;
      assert x == e;
    }
  }

  lemma WinsIffLeads(s: set<Entry>, v: Viewpoint, e: Entry)
    requires Sees(v, e) && Lasting(e)
    ensures Wins(s, v, e) <==> Leads(s, v, e)
  {
    forall x ensures (Stronger(e, x) <==> Ahead(e, x)) && (Applies(x, v) <==> Sees(v, x)) { StrongerIsAhead(e, x); }
  }

  /** The outcome is decided by the fields of the records, as listed. */
  lemma FieldsDecide(s: set<Entry>, v: Viewpoint, out: Resolved)
    requires DistinctIds(s) && Resolves(s, v, out)
    ensures ByFields(s, v, out)
  {
    forall e ensures Placed(s, v, out, e) { PlacedByFate(s, v, out, e); }
    forall a, b ensures (Stronger(a, b) <==> Ahead(a, b)) && (Newer(a, b) <==> Fresher(a, b)) { StrongerIsAhead(a, b); }
    forall id | id in out.suppressed ensures exists e | e in s :: e.id == id {
      assert id in Elements(out.suppressed);
    }
    assert With(s, v, Malformed)
        == set e | e in s && Sees(v, e) && e.kind == Intent && e.status == Active && e.goal == Unreadable;
  }
}
