/** Topic clustering: events grouped by kind, polarity and a pair of shared tokens. */
module Clustering {
  import opened Common
  import opened Miner
  import opened Evaluation

  const MIN_SHARED := 2

  /** Topic tokens per event id: a sorted set of words, each alphanumeric. */
  type Topics = map<int, seq<string>>

  ghost predicate TokenSet(ts: seq<string>) { Sorted(Before, ts) && forall i | 0 <= i < |ts| :: '+' !in ts[i] }

  ghost predicate TokenSets(topics: Topics) { forall id | id in topics :: TokenSet(topics[id]) }

  /** A returned class: the members that share the pair. */
  datatype PairGroup = PairGroup(group: KindGroup, polarity: Polarity, first: string, second: string, members: seq<nat>)

  // ── Keys ───────────────────────────────────────────────────────────────

  datatype GroupKey = GroupKey(group: KindGroup, polarity: Polarity, pair: string)

  function PairKey(a: string, b: string): string { a + "+" + b }

  function SplitPair(k: string): Option<(string, string)> {
    if k == "" then None
    else if k[0] == '+' then Some(("", k[1..]))
    else match SplitPair(k[1..]) case None => None case Some((a, b)) => Some(([k[0]] + a, b))
  }

  lemma {:induction false} SplitUndoesPair(a: string, b: string)
    requires '+' !in a
    ensures SplitPair(PairKey(a, b)) == Some((a, b))
  {
    var k := PairKey(a, b);
    if a == "" {
      assert k[1..] == b;
    } else {
      assert k[0] == a[0] && k[1..] == PairKey(a[1..], b);
      SplitUndoesPair(a[1..], b);
      assert [a[0]] + a[1..] == a;
    }
  }

  // ── Filling the groups ─────────────────────────────────────────────────

  function Lookup(groups: map<GroupKey, seq<nat>>, k: GroupKey): seq<nat> { if k in groups then groups[k] else [] }

  function Push(groups: map<GroupKey, seq<nat>>, k: GroupKey, idx: nat): map<GroupKey, seq<nat>> {
    groups[k := Lookup(groups, k) + [idx]]
  }

  /** How a pair is named in the group keys: any function of its tokens; the program joins them by '+'. */
  type Namer = (string, string) -> string

  ghost predicate HasPair(name: Namer, ts: seq<string>, k: string) {
    exists i, j | 0 <= i < j < |ts| :: name(ts[i], ts[j]) == k
  }

  lemma PairsAreDistinct(ts: seq<string>, i: nat, j: nat, x: nat, y: nat)
    requires TokenSet(ts) && i < j < |ts| && x < y < |ts| && PairKey(ts[i], ts[j]) == PairKey(ts[x], ts[y])
    ensures i == x && j == y
  {
    SplitUndoesPair(ts[i], ts[j]);
    SplitUndoesPair(ts[x], ts[y]);
    BeforeConnected(ts[i], ts[x]);
    BeforeConnected(ts[j], ts[y]);
  }

  /** Different pairs of tokens have different names. */
  ghost predicate PairsApart(name: Namer, ts: seq<string>) {
    forall i, j, x, y | 0 <= i < j < |ts| && 0 <= x < y < |ts| && name(ts[i], ts[j]) == name(ts[x], ts[y]) ::
        i == x && j == y
  }

  lemma TokensArePairedApart(ts: seq<string>)
    requires TokenSet(ts)
    ensures PairsApart(PairKey, ts)
  {
    forall i, j, x, y | 0 <= i < j < |ts| && 0 <= x < y < |ts| && PairKey(ts[i], ts[j]) == PairKey(ts[x], ts[y])
      ensures i == x && j == y
    {
      PairsAreDistinct(ts, i, j, x, y);
    }
  }

  /** Two token positions, the first before the second. */
  datatype Spot = Spot(i: nat, j: nat)

  ghost predicate SpotBefore(x: Spot, y: Spot) { x.i < y.i || (x.i == y.i && x.j < y.j) }

  /** All pairs of positions below `n` that come before `upto`, in order. */
  ghost predicate SpotsUpTo(n: nat, qs: seq<Spot>, upto: Spot) {
    && (forall q | q in qs :: q.i < q.j < n && SpotBefore(q, upto))
    && (forall x, y | 0 <= x < y < |qs| :: SpotBefore(qs[x], qs[y]))
    && (forall q: Spot | q.i < q.j < n && SpotBefore(q, upto) :: q in qs)
  }

  function KeyAt(name: Namer, g: KindGroup, p: Polarity, ts: seq<string>, q: Spot): GroupKey
    requires q.i < q.j < |ts|
  {
    GroupKey(g, p, name(ts[q.i], ts[q.j]))
  }

  ghost function PushAll(
      name: Namer, groups: map<GroupKey, seq<nat>>, g: KindGroup, p: Polarity, ts: seq<string>, qs: seq<Spot>,
      idx: nat): map<GroupKey, seq<nat>>
    requires forall q | q in qs :: q.i < q.j < |ts|
  {
    if qs == [] then groups
    else
      var q := qs[|qs| - 1];
      assert q in qs;
      Push(PushAll(name, groups, g, p, ts, qs[..|qs| - 1], idx), KeyAt(name, g, p, ts, q), idx)
  }

  /** The pairs at `qs`, which are all those before `upto`, have taken the event in. */
  ghost predicate Adding(
      name: Namer, before: map<GroupKey, seq<nat>>, after: map<GroupKey, seq<nat>>, g: KindGroup, p: Polarity,
      ts: seq<string>, qs: seq<Spot>, idx: nat, upto: Spot)
  {
    SpotsUpTo(|ts|, qs, upto) && after == PushAll(name, before, g, p, ts, qs, idx)
  }

  lemma AddingOne(
      name: Namer, before: map<GroupKey, seq<nat>>, after: map<GroupKey, seq<nat>>, g: KindGroup, p: Polarity,
      ts: seq<string>, qs: seq<Spot>, idx: nat, q: Spot)
    requires Adding(name, before, after, g, p, ts, qs, idx, q) && q.i < q.j < |ts|
    ensures Adding(name, before, Push(after, KeyAt(name, g, p, ts, q), idx), g, p, ts, qs + [q], idx,
        Spot(q.i, q.j + 1))
  {
    NextSpot(|ts|, qs, q);
    assert (qs + [q])[..|qs|] == qs;
  }

  method AddSpot(
      name: Namer, groups0: map<GroupKey, seq<nat>>, g: KindGroup, p: Polarity, ts: seq<string>, idx: nat, q: Spot,
      ghost before: map<GroupKey, seq<nat>>, ghost qs0: seq<Spot>)
    returns (groups: map<GroupKey, seq<nat>>, ghost qs: seq<Spot>)
    requires q.i < q.j < |ts| && Adding(name, before, groups0, g, p, ts, qs0, idx, q)
    ensures Adding(name, before, groups, g, p, ts, qs, idx, Spot(q.i, q.j + 1))
  {
    AddingOne(name, before, groups0, g, p, ts, qs0, idx, q);
    groups, qs := Push(groups0, KeyAt(name, g, p, ts, q), idx), qs0 + [q];
  }

  /** The pairs of one token with the later ones. */
  method AddRow(
      name: Namer, groups0: map<GroupKey, seq<nat>>, g: KindGroup, p: Polarity, ts: seq<string>, idx: nat, a: nat,
      ghost before: map<GroupKey, seq<nat>>, ghost qs0: seq<Spot>)
    returns (groups: map<GroupKey, seq<nat>>, ghost qs: seq<Spot>)
    requires a < |ts| && Adding(name, before, groups0, g, p, ts, qs0, idx, Spot(a, 0))
    ensures Adding(name, before, groups, g, p, ts, qs, idx, Spot(a + 1, 0))
  {
    groups, qs := groups0, qs0;
    AddingRow(name, before, groups, g, p, ts, qs, idx, a);
    for b := a + 1 to |ts|
      invariant Adding(name, before, groups, g, p, ts, qs, idx, Spot(a, b))
    {
      groups, qs := AddSpot(name, groups, g, p, ts, idx, Spot(a, b), before, qs);
    }
    AddingRow(name, before, groups, g, p, ts, qs, idx, a);
  }

  /** With nothing left in its row, the next row begins; at the start of a row nothing has been added. */
  lemma AddingRow(
      name: Namer, before: map<GroupKey, seq<nat>>, after: map<GroupKey, seq<nat>>, g: KindGroup, p: Polarity,
      ts: seq<string>, qs: seq<Spot>, idx: nat, a: nat)
    requires a < |ts|
    ensures Adding(name, before, after, g, p, ts, qs, idx, Spot(a, |ts|)) ==>
        Adding(name, before, after, g, p, ts, qs, idx, Spot(a + 1, 0))
    ensures Adding(name, before, after, g, p, ts, qs, idx, Spot(a, 0)) ==>
        Adding(name, before, after, g, p, ts, qs, idx, Spot(a, a + 1))
  {
    if SpotsUpTo(|ts|, qs, Spot(a, |ts|)) { NextRow(|ts|, qs, a); }
    if SpotsUpTo(|ts|, qs, Spot(a, 0)) { StartRow(|ts|, qs, a); }
  }

  lemma StartRow(n: nat, qs: seq<Spot>, a: nat)
    requires SpotsUpTo(n, qs, Spot(a, 0))
    ensures SpotsUpTo(n, qs, Spot(a, a + 1))
  {
    forall q: Spot | q.i < q.j < n && SpotBefore(q, Spot(a, a + 1))
        ensures q in qs { assert SpotBefore(q, Spot(a, 0)); }
  }

  /** Every pair of one event's tokens takes the event in. */
  method AddMember(
      name: Namer, groups0: map<GroupKey, seq<nat>>, g: KindGroup, p: Polarity, ts: seq<string>, idx: nat)
    returns (groups: map<GroupKey, seq<nat>>)
    requires PairsApart(name, ts)
    ensures TakenIn(name, groups0, groups, g, p, ts, idx)
  {
    groups := groups0;
    ghost var qs: seq<Spot> := [];
    for a := 0 to |ts|
      invariant Adding(name, groups0, groups, g, p, ts, qs, idx, Spot(a, 0))
    {
      groups, qs := AddRow(name, groups, g, p, ts, idx, a, groups0, qs);
    }
    AllTakenIn(name, groups0, g, p, ts, qs, idx);
  }

  lemma NextSpot(n: nat, qs: seq<Spot>, q: Spot)
    requires SpotsUpTo(n, qs, q) && q.i < q.j < n
    ensures SpotsUpTo(n, qs + [q], Spot(q.i, q.j + 1))
  {
    forall r: Spot | r.i < r.j < n && SpotBefore(r, Spot(q.i, q.j + 1)) ensures r in qs + [q] {
      assert r == q || SpotBefore(r, q);
    }
  }

  lemma NextRow(n: nat, qs: seq<Spot>, a: nat)
    requires SpotsUpTo(n, qs, Spot(a, n))
    ensures SpotsUpTo(n, qs, Spot(a + 1, 0))
  {}

  /** `after` is `before` with the event added under every pair of its tokens, once. */
  ghost predicate TakenIn(
      name: Namer, before: map<GroupKey, seq<nat>>, after: map<GroupKey, seq<nat>>, g: KindGroup, p: Polarity,
      ts: seq<string>, idx: nat)
  {
    forall k :: Lookup(after, k) == Lookup(before, k)
      + if k.group == g && k.polarity == p && HasPair(name, ts, k.pair) then [idx] else []
  }

  ghost predicate Names(name: Namer, g: KindGroup, p: Polarity, ts: seq<string>, qs: seq<Spot>, k: GroupKey) {
    exists q | q in qs && q.i < q.j < |ts| :: KeyAt(name, g, p, ts, q) == k
  }

  lemma {:induction false} PushAllKeeps(
      name: Namer, groups: map<GroupKey, seq<nat>>, g: KindGroup, p: Polarity, ts: seq<string>, qs: seq<Spot>,
      idx: nat, k: GroupKey)
    requires (forall q | q in qs :: q.i < q.j < |ts|) && !Names(name, g, p, ts, qs, k)
    ensures Lookup(PushAll(name, groups, g, p, ts, qs, idx), k) == Lookup(groups, k)
  {
    if qs != [] {
      var front, q := qs[..|qs| - 1], qs[|qs| - 1];
      assert q in qs && qs == front + [q];
      PushAllKeeps(name, groups, g, p, ts, front, idx, k);
    }
  }

  ghost predicate KeysApart(name: Namer, g: KindGroup, p: Polarity, ts: seq<string>, qs: seq<Spot>)
    requires forall q | q in qs :: q.i < q.j < |ts|
  {
    forall x, y | 0 <= x < y < |qs| :: qs[x] in qs && qs[y] in qs
        && KeyAt(name, g, p, ts, qs[x]) != KeyAt(name, g, p, ts, qs[y])
  }

  lemma LastKeyIsNew(name: Namer, g: KindGroup, p: Polarity, ts: seq<string>, qs: seq<Spot>)
    requires (forall q | q in qs :: q.i < q.j < |ts|) && KeysApart(name, g, p, ts, qs) && qs != []
    ensures qs[|qs| - 1] in qs && !Names(name, g, p, ts, qs[..|qs| - 1], KeyAt(name, g, p, ts, qs[|qs| - 1]))
    ensures (forall q | q in qs[..|qs| - 1] :: q.i < q.j < |ts|) && KeysApart(name, g, p, ts, qs[..|qs| - 1])
  {
    var front := qs[..|qs| - 1];
    forall r | r in front && r.i < r.j < |ts| ensures KeyAt(name, g, p, ts, r) != KeyAt(name, g, p, ts, qs[|qs| - 1]) {
      var x :| 0 <= x < |front| && front[x] == r;
      assert qs[x] == r;
    }
    forall x | 0 <= x < |front| ensures front[x] in front && front[x] == qs[x] {}
  }

  lemma SpotsHaveApartKeys(name: Namer, g: KindGroup, p: Polarity, ts: seq<string>, qs: seq<Spot>)
    requires PairsApart(name, ts) && (forall q | q in qs :: q.i < q.j < |ts|) && Distinct(qs)
    ensures KeysApart(name, g, p, ts, qs)
  {
    forall x, y | 0 <= x < y < |qs| ensures qs[x] in qs && qs[y] in qs
        && KeyAt(name, g, p, ts, qs[x]) != KeyAt(name, g, p, ts, qs[y]) {
      assert qs[x] != qs[y];
    }
  }

  lemma {:induction false} PushAllAdds(
      name: Namer, groups: map<GroupKey, seq<nat>>, g: KindGroup, p: Polarity, ts: seq<string>, qs: seq<Spot>,
      idx: nat, k: GroupKey)
    requires (forall q | q in qs :: q.i < q.j < |ts|) && KeysApart(name, g, p, ts, qs) && Names(name, g, p, ts, qs, k)
    ensures Lookup(PushAll(name, groups, g, p, ts, qs, idx), k) == Lookup(groups, k) + [idx]
  {
    var front, q := qs[..|qs| - 1], qs[|qs| - 1];
    assert q in qs && qs == front + [q];
    if KeyAt(name, g, p, ts, q) == k {
      LastKeyIsNew(name, g, p, ts, qs);
      PushAllKeeps(name, groups, g, p, ts, front, idx, k);
    } else {
      LastKeyIsNew(name, g, p, ts, qs);
      PushAllAdds(name, groups, g, p, ts, front, idx, k);
    }
  }

  /** The keys of all pairs of positions are the keys of all pairs of tokens. */
  lemma AllPairsAreNamed(name: Namer, g: KindGroup, p: Polarity, ts: seq<string>, qs: seq<Spot>, k: GroupKey)
    requires SpotsUpTo(|ts|, qs, Spot(|ts|, 0))
    ensures Names(name, g, p, ts, qs, k) <==> k.group == g && k.polarity == p && HasPair(name, ts, k.pair)
  {
    if i, j :| k.group == g && k.polarity == p && 0 <= i < j < |ts| && name(ts[i], ts[j]) == k.pair {
      assert Spot(i, j) in qs && KeyAt(name, g, p, ts, Spot(i, j)) == k;
    }
  }

  lemma PushedUnder(
      name: Namer, before: map<GroupKey, seq<nat>>, g: KindGroup, p: Polarity, ts: seq<string>, qs: seq<Spot>,
      idx: nat, k: GroupKey)
    requires (forall q | q in qs :: q.i < q.j < |ts|) && KeysApart(name, g, p, ts, qs)
    ensures Lookup(PushAll(name, before, g, p, ts, qs, idx), k)
            == Lookup(before, k) + if Names(name, g, p, ts, qs, k) then [idx] else []
  {
    if Names(name, g, p, ts, qs, k) {
      PushAllAdds(name, before, g, p, ts, qs, idx, k);
    } else {
      PushAllKeeps(name, before, g, p, ts, qs, idx, k);
    }
  }

  lemma AllTakenIn(
      name: Namer, before: map<GroupKey, seq<nat>>, g: KindGroup, p: Polarity, ts: seq<string>, qs: seq<Spot>,
      idx: nat)
    requires PairsApart(name, ts) && SpotsUpTo(|ts|, qs, Spot(|ts|, 0))
    ensures TakenIn(name, before, PushAll(name, before, g, p, ts, qs, idx), g, p, ts, idx)
  {
    SpotsHaveApartKeys(name, g, p, ts, qs);
    var after := PushAll(name, before, g, p, ts, qs, idx);
    forall k ensures Lookup(after, k) == Lookup(before, k)
                       + if k.group == g && k.polarity == p && HasPair(name, ts, k.pair) then [idx] else []
    {
      AllPairsAreNamed(name, g, p, ts, qs, k);
      PushedUnder(name, before, g, p, ts, qs, idx, k);
    }
  }

  /** The tokens that count: at least two. */
  function TokensOf(topics: Topics, m: Member): seq<string> {
    if m.id in topics && |topics[m.id]| >= MIN_SHARED then topics[m.id] else []
  }

  /** Who belongs to a key, in order of appearance. */
  ghost function Belonging(name: Namer, members: seq<Member>, topics: Topics, k: GroupKey): seq<nat> {
    if members == [] then []
    else
      var n := |members| - 1;
      var m := members[n];
      Belonging(name, members[..n], topics, k)
      + if m.group == k.group && m.polarity == k.polarity && HasPair(name, TokensOf(topics, m), k.pair) then [n] else []
  }

  method FillGroups(name: Namer, members: seq<Member>, topics: Topics) returns (groups: map<GroupKey, seq<nat>>)
    requires forall id | id in topics :: PairsApart(name, topics[id])
    ensures forall k :: Lookup(groups, k) == Belonging(name, members, topics, k)
  {
    groups := map[];
    for n := 0 to |members|
      invariant forall k :: Lookup(groups, k) == Belonging(name, members[..n], topics, k)
    {
      assert members[..n + 1][..n] == members[..n];
      var m := members[n];
      if m.id !in topics || |topics[m.id]| < MIN_SHARED {
        continue;
      }
      groups := AddMember(name, groups, m.group, m.polarity, topics[m.id], n);
    }
    assert members[..|members|] == members;
  }

  // ── The specification ──────────────────────────────────────────────────

  predicate Shares(topics: Topics, m: Member, a: string, b: string) {
    m.id in topics && a in topics[m.id] && b in topics[m.id]
  }

  /** Exactly the members of that group and polarity whose topic set has both tokens. */
  function ClassOf(members: seq<Member>, topics: Topics, g: KindGroup, p: Polarity, a: string, b: string): seq<nat> {
    if members == [] then []
    else
      var n := |members| - 1;
      ClassOf(members[..n], topics, g, p, a, b)
      + if members[n].group == g && members[n].polarity == p && Shares(topics, members[n], a, b) then [n] else []
  }

  lemma PairNamesTokens(ts: seq<string>, a: string, b: string)
    requires TokenSet(ts) && '+' !in a && HasPair(PairKey, ts, PairKey(a, b))
    ensures a in ts && b in ts
  {
    var i, j :| 0 <= i < j < |ts| && PairKey(ts[i], ts[j]) == PairKey(a, b);
    SplitUndoesPair(ts[i], ts[j]);
    SplitUndoesPair(a, b);
  }

  lemma TokensFormPair(ts: seq<string>, a: string, b: string)
    requires Sorted(Before, ts) && Before(a, b) && a in ts && b in ts
    ensures HasPair(PairKey, ts, PairKey(a, b))
  {
    var i :| 0 <= i < |ts| && ts[i] == a;
    var j :| 0 <= j < |ts| && ts[j] == b;
    BeforeConnected(a, b);
    assert i < j;
  }

  lemma PairIsBothTokens(ts: seq<string>, a: string, b: string)
    requires TokenSet(ts) && Before(a, b) && '+' !in a
    ensures HasPair(PairKey, ts, PairKey(a, b)) <==> a in ts && b in ts
  {
    if HasPair(PairKey, ts, PairKey(a, b)) { PairNamesTokens(ts, a, b); }
    if a in ts && b in ts { TokensFormPair(ts, a, b); }
  }

  lemma {:induction false} BelongingIsClass(
      members: seq<Member>, topics: Topics, g: KindGroup, p: Polarity, a: string, b: string)
    requires TokenSets(topics) && Before(a, b) && '+' !in a
    ensures Belonging(PairKey, members, topics, GroupKey(g, p, PairKey(a, b))) == ClassOf(members, topics, g, p, a, b)
  {
    if members != [] {
      var n := |members| - 1;
      BelongingIsClass(members[..n], topics, g, p, a, b);
      var ts := TokensOf(topics, members[n]);
      PairIsBothTokens(ts, a, b);
      if members[n].id in topics {
        PairIsBothTokens(topics[members[n].id], a, b);
        assert |topics[members[n].id]| < 2 ==> !HasPair(PairKey, topics[members[n].id], PairKey(a, b));
      }
    }
  }

  lemma {:induction false} BelongingNamesPair(
      members: seq<Member>, topics: Topics, k: GroupKey) returns (a: string, b: string)
    requires TokenSets(topics) && Belonging(PairKey, members, topics, k) != []
    ensures Before(a, b) && '+' !in a && k.pair == PairKey(a, b)
  {
    var n := |members| - 1;
    var ts := TokensOf(topics, members[n]);
    if i, j :|
        && members[n].group == k.group && members[n].polarity == k.polarity && 0 <= i < j < |ts|
        && PairKey(ts[i], ts[j]) == k.pair
    {
      a, b := ts[i], ts[j];
    } else {
      a, b := BelongingNamesPair(members[..n], topics, k);
    }
  }

  /** A class that is due: enough members of a kind that counts. */
  ghost predicate Due(members: seq<Member>, topics: Topics, c: PairGroup) {
    && c.group != Ignored && Before(c.first, c.second) && '+' !in c.first
    && c.members == ClassOf(members, topics, c.group, c.polarity, c.first, c.second) && |c.members| >= 2
  }

  /** Cluster by kind, polarity and token pair: every class that is due is returned, and nothing else. */
  method ClusterByPair(members: seq<Member>, topics: Topics) returns (out: seq<PairGroup>)
    requires TokenSets(topics)
    ensures forall c :: c in out <==> Due(members, topics, c)
  {
    forall id | id in topics ensures PairsApart(PairKey, topics[id]) { TokensArePairedApart(topics[id]); }
    var groups := FillGroups(PairKey, members, topics);
    out := [];
    var todo := groups.Keys;
    while todo != {}
      invariant todo <= groups.Keys
      invariant forall c | c in out :: Due(members, topics, c)
      invariant forall c | Due(members, topics, c) && KeyFor(c) in groups && KeyFor(c) !in todo :: c in out
      decreases todo
    {
      var k :| k in todo;
      todo := todo - {k};
      var idxs := groups[k];
      assert Lookup(groups, k) == idxs;
      if |idxs| < 2 || k.group == Ignored {
        forall c | Due(members, topics, c) && KeyFor(c) == k ensures false { DueIsGrouped(members, topics, c); }
        continue;
      }
      var split := SplitPair(k.pair);
      ghost var a, b := BelongingNamesPair(members, topics, k);
      SplitUndoesPair(a, b);
      BelongingIsClass(members, topics, k.group, k.polarity, a, b);
      var c := PairGroup(k.group, k.polarity, split.value.0, split.value.1, idxs);
      out := out + [c];
      forall d | Due(members, topics, d) && KeyFor(d) == k
          ensures d == c { DueIsGrouped(members, topics, d); SplitUndoesPair(d.first, d.second); }
    }
    forall c | Due(members, topics, c) ensures c in out {
      DueIsGrouped(members, topics, c);
      assert Lookup(groups, KeyFor(c)) != [];
    }
  }

  ghost function KeyFor(c: PairGroup): GroupKey { GroupKey(c.group, c.polarity, PairKey(c.first, c.second)) }

  lemma DueIsGrouped(members: seq<Member>, topics: Topics, c: PairGroup)
    requires TokenSets(topics) && Due(members, topics, c)
    ensures Belonging(PairKey, members, topics, KeyFor(c)) == c.members
  {
    BelongingIsClass(members, topics, c.group, c.polarity, c.first, c.second);
  }

  // ── The best pair of each class ────────────────────────────────────────

  datatype ClassKey = ClassKey(group: KindGroup, polarity: Polarity)

  function ClassKeyOf(c: PairGroup): ClassKey { ClassKey(c.group, c.polarity) }

  predicate PairBefore(c: PairGroup, d: PairGroup) {
    Before(c.first, d.first) || (c.first == d.first && Before(c.second, d.second))
  }

  /** Larger, or as large with the lesser pair. */
  predicate Better(c: PairGroup, d: PairGroup) {
    |c.members| > |d.members| || (|c.members| == |d.members| && PairBefore(c, d))
  }

  type Allowed = (string, string) -> bool

  predicate Eligible(allowed: Allowed, k: ClassKey, c: PairGroup) { ClassKeyOf(c) == k && allowed(c.first, c.second) }

  ghost predicate IsBest(groups: seq<PairGroup>, allowed: Allowed, k: ClassKey, c: PairGroup) {
    c in groups && Eligible(allowed, k, c) && forall d | d in groups && Eligible(allowed, k, d) && d != c ::
        Better(c, d)
  }

  /** A class is determined by its kind, polarity and pair. */
  ghost predicate PairDetermines(groups: seq<PairGroup>) {
    forall c, d | c in groups && d in groups && ClassKeyOf(c) == ClassKeyOf(d) && c.first == d.first
        && c.second == d.second :: c == d
  }

  lemma BetterIsTransitive(b: PairGroup, c: PairGroup, d: PairGroup)
    requires Better(b, c) && Better(c, d)
    ensures Better(b, d)
  {
    if |b.members| == |d.members| {
      if Before(b.first, c.first) && Before(c.first, d.first) { BeforeTransitive(b.first, c.first, d.first); }
      if Before(b.second, c.second) && Before(c.second, d.second) { BeforeTransitive(b.second, c.second, d.second); }
    }
  }

  lemma BetterIsTotal(c: PairGroup, d: PairGroup)
    ensures (c.first == d.first && c.second == d.second) || Better(c, d) || Better(d, c)
    ensures !(Better(c, d) && Better(d, c))
  {
    BeforeConnected(c.first, d.first);
    BeforeConnected(c.second, d.second);
  }

  lemma BestAdvances(groups: seq<PairGroup>, allowed: Allowed, n: nat, b: PairGroup)
    requires n < |groups| && PairDetermines(groups) && Eligible(allowed, ClassKeyOf(groups[n]), groups[n])
    requires IsBest(groups[..n], allowed, ClassKeyOf(groups[n]), b)
    ensures IsBest(groups[..n + 1], allowed, ClassKeyOf(groups[n]), if Better(groups[n], b) then groups[n] else b)
  {
    var c := groups[n];
    assert groups[..n + 1] == groups[..n] + [c];
    BetterIsTotal(c, b);
    if Better(c, b) {
      forall d | d in groups[..n + 1] && Eligible(allowed, ClassKeyOf(c), d) && d != c ensures Better(c, d) {
        if d != b { BetterIsTransitive(c, b, d); }
      }
    } else {
      assert b in groups && c in groups;
    }
  }

  ghost predicate AnyEligible(groups: seq<PairGroup>, allowed: Allowed, k: ClassKey) {
    exists i | 0 <= i < |groups| :: Eligible(allowed, k, groups[i])
  }

  lemma EligibleGrows(groups: seq<PairGroup>, c: PairGroup, allowed: Allowed, k: ClassKey)
    ensures AnyEligible(groups + [c], allowed, k) <==> AnyEligible(groups, allowed, k) || Eligible(allowed, k, c)
  {
    if i :| 0 <= i < |groups| && Eligible(allowed, k, groups[i]) { assert (groups + [c])[i] == groups[i]; }
    assert (groups + [c])[|groups|] == c;
  }

  /** `best` holds the best eligible class of every key, and no other. */
  ghost predicate BestOf(groups: seq<PairGroup>, allowed: Allowed, best: map<ClassKey, PairGroup>) {
    && (forall k :: k in best <==> AnyEligible(groups, allowed, k))
    && (forall k | k in best :: IsBest(groups, allowed, k, best[k]))
  }

  lemma IneligibleKeeps(groups: seq<PairGroup>, allowed: Allowed, n: nat, k: ClassKey, b: PairGroup)
    requires n < |groups| && IsBest(groups[..n], allowed, k, b) && !Eligible(allowed, k, groups[n])
    ensures IsBest(groups[..n + 1], allowed, k, b)
  {
    assert groups[..n + 1] == groups[..n] + [groups[n]];
  }

  lemma FirstIsBest(groups: seq<PairGroup>, allowed: Allowed, n: nat, k: ClassKey)
    requires n < |groups| && !AnyEligible(groups[..n], allowed, k) && Eligible(allowed, k, groups[n])
    ensures IsBest(groups[..n + 1], allowed, k, groups[n])
  {
    assert groups[..n + 1] == groups[..n] + [groups[n]];
    assert forall i | 0 <= i < n :: !Eligible(allowed, k, groups[..n][i]);
  }

  /** Offering one more class to the choice. */
  lemma BestOfNext(groups: seq<PairGroup>, allowed: Allowed, n: nat, best: map<ClassKey, PairGroup>, entry: PairGroup)
    requires n < |groups| && PairDetermines(groups) && BestOf(groups[..n], allowed, best)
    requires var c := groups[n]; var key := ClassKeyOf(c);
             entry == if key in best && !Better(c, best[key]) then best[key] else c
    ensures var c := groups[n];
            BestOf(groups[..n + 1], allowed, if allowed(c.first, c.second) then best[ClassKeyOf(c) := entry] else best)
  {
    var c, key := groups[n], ClassKeyOf(groups[n]);
    var next := if allowed(c.first, c.second) then best[key := entry] else best;
    assert groups[..n + 1] == groups[..n] + [c];
    forall k ensures k in next <==> AnyEligible(groups[..n + 1], allowed,
        k) { EligibleGrows(groups[..n], c, allowed, k); }
    forall k | k in next ensures IsBest(groups[..n + 1], allowed, k, next[k]) {
      if !Eligible(allowed, k, c) {
        IneligibleKeeps(groups, allowed, n, k, best[k]);
      } else if key in best {
        BestAdvances(groups, allowed, n, best[key]);
      } else {
        FirstIsBest(groups, allowed, n, k);
      }
    }
  }

  /** One candidate pair per kind and polarity: the largest allowed class, ties to the least pair. */
  method BestPairs(groups: seq<PairGroup>, allowed: Allowed) returns (best: map<ClassKey, PairGroup>)
    requires PairDetermines(groups) && forall c | c in groups :: c.members != []
    ensures forall k :: k in best <==> AnyEligible(groups, allowed, k)
    ensures forall k | k in best :: IsBest(groups, allowed, k, best[k])
    ensures forall c | c in groups && allowed(c.first, c.second) ::
              var k := ClassKey(c.group, c.polarity);
              && k in best && best[k].group == c.group && best[k].polarity == c.polarity
              && allowed(best[k].first, best[k].second) && (best[k] == c || Outdoes(best[k], c))
  {
    best := map[];
    for n := 0 to |groups|
      invariant BestOf(groups[..n], allowed, best)
    {
      var c := groups[n];
      var key := ClassKeyOf(c);
      var entry := if key in best then best[key] else c.(members := []);
      if |c.members| > |entry.members| || (|c.members| == |entry.members| && PairBefore(c, entry)) {
        entry := c;
      }
      BestOfNext(groups, allowed, n, best, entry);
      if !allowed(c.first, c.second) {
        continue;
      }
      best := best[key := entry];
    }
    assert groups[..|groups|] == groups;
    forall c | c in groups && allowed(c.first, c.second) ensures ClassKey(c.group, c.polarity) in best {
      var i :| 0 <= i < |groups| && groups[i] == c;
      assert Eligible(allowed, ClassKey(c.group, c.polarity), groups[i]);
    }
  }

  /** On the fields: more members; at equal numbers the lesser first token; at equal first tokens the lesser second. */
  ghost predicate Outdoes(c: PairGroup, d: PairGroup) {
    && |c.members| >= |d.members|
    && (|c.members| == |d.members| ==>
          Before(c.first, d.first) || (c.first == d.first && Before(c.second, d.second)))
  }

  /** The choice does not depend on the order in which the classes are met. */
  lemma BestIsOrderFree(
      groups: seq<PairGroup>, others: seq<PairGroup>, allowed: Allowed, k: ClassKey, c: PairGroup, d: PairGroup)
    requires Elements(groups) == Elements(others)
    requires IsBest(groups, allowed, k, c) && IsBest(others, allowed, k, d)
    ensures c == d
  {
    assert c in Elements(others) && d in Elements(groups);
    BetterIsTotal(c, d);
  }

  /** Every class the clustering returns is determined by its pair, so a best one can be chosen. */
  lemma ClustersAreDetermined(members: seq<Member>, topics: Topics, out: seq<PairGroup>)
    requires forall c | c in out :: Due(members, topics, c)
    ensures PairDetermines(out) && forall c | c in out :: c.members != []
  {}
}
