/** Recall: matching events ranked, then shown a few per session until the budget is spent. */
module Recall {
  import opened Common

  const MAX_HITS_PER_SESSION := 3
  const DEFAULT_LIMIT := 10
  const MAX_LIMIT := 50

  datatype Hit = Hit(id: int, session: Option<string>, task: Option<string>, importance: nat, createdAt: nat,
      score: real)

  datatype Group = Group(session: Option<string>, total: nat, hits: seq<Hit>)

  function EffectiveLimit(limit: nat): nat { if limit == 0 then DEFAULT_LIMIT else Min(limit, MAX_LIMIT) }

  predicate OnTask(h: Hit, task: Option<string>) { task.Some? && h.task == task }

  /** Lower score, then the task at hand, then importance, then recency, then the larger id. */
  predicate Better(a: Hit, b: Hit, task: Option<string>) {
    if a.score != b.score then a.score < b.score
    else if OnTask(a, task) != OnTask(b, task) then OnTask(a, task)
    else if a.importance != b.importance then a.importance > b.importance
    else if a.createdAt != b.createdAt then a.createdAt > b.createdAt
    else a.id > b.id
  }

  // ── Which hits are shown ───────────────────────────────────────────────

  function CountIn(hits: seq<Hit>, session: Option<string>): nat {
    if hits == [] then 0
    else CountIn(hits[..|hits| - 1], session) + if hits[|hits| - 1].session == session then 1 else 0
  }

  /** The hit is one of the best three of its session. */
  predicate Leads(hits: seq<Hit>, i: nat)
    requires i < |hits|
  {
    CountIn(hits[..i], hits[i].session) < MAX_HITS_PER_SESSION
  }

  function Leaders(hits: seq<Hit>): nat {
    if hits == [] then 0 else Leaders(hits[..|hits| - 1]) + if Leads(hits, |hits| - 1) then 1 else 0
  }

  /** Of the best three of every session, the best `limit`. */
  function Shown(hits: seq<Hit>, limit: nat): seq<Hit> {
    if hits == [] then []
    else
      var n := |hits| - 1;
      if Leads(hits, n) && Leaders(hits[..n]) < limit then Shown(hits[..n], limit) + [hits[n]]
          else Shown(hits[..n], limit)
  }

  function Of(hits: seq<Hit>, session: Option<string>): seq<Hit> {
    if hits == [] then []
    else
      var before, last := Of(hits[..|hits| - 1], session), hits[|hits| - 1];
      if last.session == session then before + [last] else before
  }

  /** Sessions in the order of their first hit. */
  function FirstSeen(hits: seq<Hit>): seq<Option<string>> {
    if hits == [] then []
    else
      var before, last := FirstSeen(hits[..|hits| - 1]), hits[|hits| - 1].session;
      if last in before then before else before + [last]
  }

  lemma Append(hits: seq<Hit>, h: Hit, session: Option<string>)
    ensures Of(hits + [h], session) == if h.session == session then Of(hits, session) + [h] else Of(hits, session)
    ensures CountIn(hits + [h], session) == CountIn(hits, session) + if h.session == session then 1 else 0
    ensures FirstSeen(hits + [h]) == if h.session in FirstSeen(hits) then FirstSeen(hits)
        else FirstSeen(hits) + [h.session]
  {
    assert (hits + [h])[..|hits|] == hits;
  }

  lemma {:induction false} ShownCounts(hits: seq<Hit>, limit: nat)
    ensures |Shown(hits, limit)| == Min(Leaders(hits), limit) && |Shown(hits, limit)| <= Leaders(hits) <= |hits|
  {
    if hits != [] { ShownCounts(hits[..|hits| - 1], limit); }
  }

  /** While the budget lasts, a session shows its first three. */
  lemma {:induction false} ShownPerSession(hits: seq<Hit>, limit: nat, session: Option<string>)
    requires Leaders(hits) <= limit
    ensures |Of(Shown(hits, limit), session)| == Min(CountIn(hits, session), MAX_HITS_PER_SESSION)
  {
    if hits != [] {
      var n := |hits| - 1;
      assert Leaders(hits) == Leaders(hits[..n]) + if Leads(hits, n) then 1 else 0;
      ShownPerSession(hits[..n], limit, session);
      if Leads(hits, n) { Append(Shown(hits[..n], limit), hits[n], session); }
    }
  }

  /** The greedy law: a hit is shown exactly when the budget is not spent and its session shows fewer than three so
      far. */
  lemma ShownGreedily(hits: seq<Hit>, limit: nat, i: nat)
    requires i < |hits|
    ensures var before := Shown(hits[..i], limit);
            Shown(hits[..i + 1], limit) ==
            if |before| < limit && |Of(before, hits[i].session)| < MAX_HITS_PER_SESSION then before + [hits[i]]
                else before
  {
    var upTo := hits[..i + 1];
    assert upTo[..i] == hits[..i];
    ShownCounts(hits[..i], limit);
    if Leaders(hits[..i]) <= limit { ShownPerSession(hits[..i], limit, hits[i].session); }
  }

  lemma {:induction false} ShownStops(hits: seq<Hit>, limit: nat, i: nat)
    requires i <= |hits| && |Shown(hits[..i], limit)| >= limit
    ensures Shown(hits, limit) == Shown(hits[..i], limit)
    decreases |hits|
  {
    if i < |hits| {
      var n := |hits| - 1;
      assert hits[..n][..i] == hits[..i];
      ShownStops(hits[..n], limit, i);
      ShownGreedily(hits, limit, n);
      assert hits[..n + 1] == hits;
    } else {
      assert hits[..i] == hits;
    }
  }

  lemma {:induction false} FirstSeenHolds(hits: seq<Hit>, session: Option<string>)
    ensures session in FirstSeen(hits) <==> Of(hits, session) != []
    ensures Distinct(FirstSeen(hits))
  {
    if hits != [] { FirstSeenHolds(hits[..|hits| - 1], session);
        FirstSeenHolds(hits[..|hits| - 1], hits[|hits| - 1].session); }
  }

  /** How many hits are looked at: all of them, or those up to the one that spends the budget. */
  function Scanned(hits: seq<Hit>, limit: nat): (n: nat)
    ensures n <= |hits|
  {
    if hits == [] then 0
    else if |Shown(hits[..|hits| - 1], limit)| < limit then |hits|
    else Scanned(hits[..|hits| - 1], limit)
  }

  lemma {:induction false} ScannedStops(hits: seq<Hit>, limit: nat, i: nat)
    requires i <= |hits| && Scanned(hits[..i], limit) == i && (i < |hits| ==> |Shown(hits[..i], limit)| >= limit)
    ensures Scanned(hits, limit) == i
    decreases |hits|
  {
    if i < |hits| {
      var n := |hits| - 1;
      assert hits[..n][..i] == hits[..i];
      ScannedStops(hits[..n], limit, i);
      ShownStops(hits[..n], limit, i);
    } else {
      assert hits[..i] == hits;
    }
  }

  // ── Grouping ───────────────────────────────────────────────────────────

  /** One group per session, in first-hit order, holding that session's shown hits. */
  ghost predicate GroupsAre(groups: seq<Group>, shown: seq<Hit>) {
    && |groups| == |FirstSeen(shown)|
    && forall g | 0 <= g < |groups| :: groups[g].session == FirstSeen(shown)[g]
        && groups[g].hits == Of(shown, groups[g].session)
  }

  ghost predicate Indexed(groups: seq<Group>, index: map<Option<string>, nat>) {
    && (forall k | k in index :: index[k] < |groups| && groups[index[k]].session == k)
    && forall g | 0 <= g < |groups| :: groups[g].session in index && index[groups[g].session] == g
  }

  /** The groups hold the hits shown so far and count the hits seen so far. */
  ghost predicate Tracks(groups: seq<Group>, index: map<Option<string>, nat>, seen: seq<Hit>, shown: seq<Hit>) {
    && GroupsAre(groups, shown) && Indexed(groups, index)
    && (forall g | 0 <= g < |groups| :: groups[g].total == CountIn(seen, groups[g].session))
    && (forall k | k !in index :: CountIn(seen, k) == 0)
  }

  /** A session is indexed exactly when it has hits among those shown. */
  lemma IndexedIsSeen(groups: seq<Group>, index: map<Option<string>, nat>, shown: seq<Hit>, session: Option<string>)
    requires GroupsAre(groups, shown) && Indexed(groups, index)
    ensures session in index <==> session in FirstSeen(shown)
    ensures session !in index ==> Of(shown, session) == []
  {
    FirstSeenHolds(shown, session);
    if session in FirstSeen(shown) {
      var g :| 0 <= g < |groups| && FirstSeen(shown)[g] == session;
      assert groups[g].session in index;
    }
  }

  lemma SeeHit(groups: seq<Group>, index: map<Option<string>, nat>, seen: seq<Hit>, shown: seq<Hit>, h: Hit)
    requires Tracks(groups, index, seen, shown) && h.session in index
    ensures var gi := index[h.session];
            Tracks(groups[gi := groups[gi].(total := groups[gi].total + 1)], index, seen + [h], shown)
  {
    forall k ensures CountIn(seen + [h], k) == CountIn(seen, k) + if h.session == k then 1
        else 0 { Append(seen, h, k); }
  }

  /** Showing one more hit of a session that has a group. */
  lemma ShowHit(groups: seq<Group>, index: map<Option<string>, nat>, seen: seq<Hit>, shown: seq<Hit>, h: Hit)
    requires Tracks(groups, index, seen, shown) && h.session in index
    ensures var gi := index[h.session];
            Tracks(groups[gi := groups[gi].(total := groups[gi].total + 1, hits := groups[gi].hits + [h])], index,
                   seen + [h], shown + [h])
  {
    var gi := index[h.session];
    var counted := groups[gi := groups[gi].(total := groups[gi].total + 1)];
    SeeHit(groups, index, seen, shown, h);
    ShownHitIsGrouped(counted, index, shown, h);
    assert groups[gi := groups[gi].(total := groups[gi].total + 1, hits := groups[gi].hits + [h])]
        == counted[gi := counted[gi].(hits := counted[gi].hits + [h])];
  }

  lemma ShownHitIsGrouped(groups: seq<Group>, index: map<Option<string>, nat>, shown: seq<Hit>, h: Hit)
    requires GroupsAre(groups, shown) && Indexed(groups, index) && h.session in index
    ensures var gi := index[h.session]; var next := groups[gi := groups[gi].(hits := groups[gi].hits + [h])];
            GroupsAre(next, shown + [h]) && Indexed(next, index)
  {
    IndexedIsSeen(groups, index, shown, h.session);
    Append(shown, h, h.session);
    forall g | 0 <= g < |groups| ensures Of(shown + [h], groups[g].session)
        == if h.session == groups[g].session then Of(shown, groups[g].session) + [h] else Of(shown, groups[g].session)
    {
      Append(shown, h, groups[g].session);
    }
  }

  /** The first hit of a session opens its group. */
  lemma OpenGroup(groups: seq<Group>, index: map<Option<string>, nat>, seen: seq<Hit>, shown: seq<Hit>, h: Hit)
    requires Tracks(groups, index, seen, shown) && h.session !in index
    ensures Tracks(groups + [Group(h.session, 1, [h])], index[h.session := |groups|], seen + [h], shown + [h])
  {
    OpenedGroupsAre(groups, index, shown, h);
    OpenedIsIndexed(groups, index, h);
    OpenedCounts(groups, index, seen, shown, h);
  }

  lemma OpenedIsIndexed(groups: seq<Group>, index: map<Option<string>, nat>, h: Hit)
    requires Indexed(groups, index) && h.session !in index
    ensures Indexed(groups + [Group(h.session, 1, [h])], index[h.session := |groups|])
  {
  }

  lemma OpenedCounts(groups: seq<Group>, index: map<Option<string>, nat>, seen: seq<Hit>, shown: seq<Hit>, h: Hit)
    requires Tracks(groups, index, seen, shown) && h.session !in index
    ensures var next := groups + [Group(h.session, 1, [h])];
            && (forall g | 0 <= g < |next| :: next[g].total == CountIn(seen + [h], next[g].session))
            && (forall k | k !in index && k != h.session :: CountIn(seen + [h], k) == 0)
  {
    var next := groups + [Group(h.session, 1, [h])];
    forall g | 0 <= g < |next| ensures next[g].total == CountIn(seen + [h], next[g].session) {
      Append(seen, h, next[g].session);
    }
    forall k | k !in index && k != h.session ensures CountIn(seen + [h], k) == 0 { Append(seen, h, k); }
  }

  lemma OpenedGroupsAre(groups: seq<Group>, index: map<Option<string>, nat>, shown: seq<Hit>, h: Hit)
    requires GroupsAre(groups, shown) && Indexed(groups, index) && h.session !in index
    ensures GroupsAre(groups + [Group(h.session, 1, [h])], shown + [h])
  {
    var next := groups + [Group(h.session, 1, [h])];
    IndexedIsSeen(groups, index, shown, h.session);
    Append(shown, h, h.session);
    forall g | 0 <= g < |groups| ensures next[g].hits
        == Of(shown + [h], next[g].session) { Append(shown, h, groups[g].session); }
  }

  /** A hit whose session has a group: counted, and shown unless the group is full. */
  method AddToGroup(
      groups: seq<Group>, index: map<Option<string>, nat>, h: Hit, ghost seen: seq<Hit>, ghost shown: seq<Hit>)
    returns (next: seq<Group>, taken: bool)
    requires Tracks(groups, index, seen, shown) && h.session in index
    ensures taken == (|Of(shown, h.session)| < MAX_HITS_PER_SESSION)
    ensures Tracks(next, index, seen + [h], if taken then shown + [h] else shown)
  {
    var gi := index[h.session];
    assert groups[gi].hits == Of(shown, h.session);
    taken := |groups[gi].hits| < MAX_HITS_PER_SESSION;
    if taken {
      ShowHit(groups, index, seen, shown, h);
      next := groups[gi := groups[gi].(total := groups[gi].total + 1, hits := groups[gi].hits + [h])];
    } else {
      SeeHit(groups, index, seen, shown, h);
      next := groups[gi := groups[gi].(total := groups[gi].total + 1)];
    }
  }

  /** Put one hit into its session's group, opening the group when the session is new. */
  method TakeHit(
      groups: seq<Group>, index: map<Option<string>, nat>, h: Hit, ghost seen: seq<Hit>, ghost shown: seq<Hit>)
    returns (next: seq<Group>, nextIndex: map<Option<string>, nat>, taken: bool)
    requires Tracks(groups, index, seen, shown)
    ensures taken == (|Of(shown, h.session)| < MAX_HITS_PER_SESSION)
    ensures Tracks(next, nextIndex, seen + [h], if taken then shown + [h] else shown)
  {
    if h.session in index {
      nextIndex := index;
      next, taken := AddToGroup(groups, index, h, seen, shown);
    } else {
      IndexedIsSeen(groups, index, shown, h.session);
      OpenGroup(groups, index, seen, shown, h);
      next, nextIndex, taken := groups + [Group(h.session, 1, [h])], index[h.session := |groups|], true;
    }
  }

  method NextHit(
      groups: seq<Group>, index: map<Option<string>, nat>, hits: seq<Hit>, i: nat, limit: nat)
    returns (next: seq<Group>, nextIndex: map<Option<string>, nat>, taken: bool)
    requires i < |hits| && |Shown(hits[..i], limit)| < limit
        && Tracks(groups, index, hits[..i], Shown(hits[..i], limit))
    ensures Tracks(next, nextIndex, hits[..i + 1], Shown(hits[..i + 1], limit))
    ensures |Shown(hits[..i + 1], limit)| == |Shown(hits[..i], limit)| + if taken then 1 else 0
  {
    ShownGreedily(hits, limit, i);
    assert hits[..i + 1] == hits[..i] + [hits[i]];
    next, nextIndex, taken := TakeHit(groups, index, hits[i], hits[..i], Shown(hits[..i], limit));
  }

  /** Group the ranked hits: at most three a session, at most `limit` in all. */
  method GroupHits(hits: seq<Hit>, limit: nat) returns (groups: seq<Group>, truncated: bool)
    ensures GroupsAre(groups, Shown(hits, limit))
    ensures truncated <==> |Shown(hits, limit)| < |hits|
    ensures forall g | 0 <= g < |groups| ::
              0 < |groups[g].hits| && groups[g].total == CountIn(hits[..Scanned(hits, limit)], groups[g].session)
  {
    groups, truncated := [], |hits| > limit;
    var index: map<Option<string>, nat> := map[];
    var emitted, i := 0, 0;
    while i < |hits| && emitted < limit
      invariant 0 <= i <= |hits| && emitted == |Shown(hits[..i], limit)| <= i
      invariant Tracks(groups, index, hits[..i], Shown(hits[..i], limit))
      invariant truncated <==> |hits| > limit || emitted < i
      invariant Scanned(hits[..i], limit) == i
    {
      assert hits[..i + 1][..i] == hits[..i];
      var taken;
      groups, index, taken := NextHit(groups, index, hits, i, limit);
      if taken { emitted := emitted + 1; } else { truncated := true; }
      i := i + 1;
    }
    if i < |hits| {
      truncated := true;
      ShownStops(hits, limit, i);
    } else {
      assert hits[..i] == hits;
    }
    ShownCounts(hits, limit);
    ScannedStops(hits, limit, i);
    GroupsAreFilled(groups, index, hits[..i], Shown(hits, limit));
  }

  /** No group is empty, and each counts its session's hits among those looked at. */
  lemma GroupsAreFilled(groups: seq<Group>, index: map<Option<string>, nat>, seen: seq<Hit>, shown: seq<Hit>)
    requires Tracks(groups, index, seen, shown)
    ensures forall g | 0 <= g < |groups| :: 0 < |groups[g].hits| && groups[g].total == CountIn(seen, groups[g].session)
  {
    forall g | 0 <= g < |groups| ensures 0 < |groups[g].hits| { FirstSeenHolds(shown, groups[g].session); }
  }

  // ── The whole query ────────────────────────────────────────────────────

  ghost predicate DistinctIds(s: set<Hit>) { forall x, y | x in s && y in s && x.id == y.id :: x == y }

  lemma BetterIsTotal(s: set<Hit>, task: Option<string>)
    requires DistinctIds(s)
    ensures TotalOn((a, b) => Better(a, b, task), s)
  {
  }

  /** On the fields: the lower score comes first; at equal scores hits of the task at hand, then the more important,
      then the more recent, then the larger id. */
  ghost predicate InOrder(ranked: seq<Hit>, task: Option<string>) {
    forall i, j | 0 <= i < j < |ranked| ::
      var a, b := ranked[i], ranked[j];
      && a.score <= b.score
      && (a.score == b.score ==>
            var mine, yours := task.Some? && a.task == task, task.Some? && b.task == task;
            && (yours ==> mine)
            && (mine == yours ==>
                  && a.importance >= b.importance
                  && (a.importance == b.importance ==>
                        a.createdAt >= b.createdAt && (a.createdAt == b.createdAt ==> a.id > b.id))))
  }

  /** Sorted by the comparator is in order, and the other way round. */
  lemma SortedIffInOrder(ranked: seq<Hit>, task: Option<string>)
    requires DistinctIds(Elements(ranked)) && Distinct(ranked)
    ensures Sorted((a, b) => Better(a, b, task), ranked) <==> InOrder(ranked, task)
  {
  }

  // ── The best are shown ─────────────────────────────────────────────────

  /** The hit at this place leads its session and finds the budget unspent. */
  ghost predicate ShownAt(hits: seq<Hit>, limit: nat, i: nat, h: Hit) {
    i < |hits| && hits[i] == h && Leads(hits, i) && Leaders(hits[..i]) < limit
  }

  lemma ShownAtFront(hits: seq<Hit>, limit: nat, i: nat, h: Hit)
    requires i < |hits| - 1
    ensures ShownAt(hits[..|hits| - 1], limit, i, h) <==> ShownAt(hits, limit, i, h)
  {
    assert hits[..|hits| - 1][..i] == hits[..i];
  }

  lemma {:induction false} PlaceOfShown(hits: seq<Hit>, limit: nat, h: Hit) returns (i: nat)
    requires h in Shown(hits, limit)
    ensures ShownAt(hits, limit, i, h)
  {
    var n := |hits| - 1;
    if h in Shown(hits[..n], limit) {
      i := PlaceOfShown(hits[..n], limit, h);
      ShownAtFront(hits, limit, i, h);
    } else {
      i := n;
    }
  }

  lemma {:induction false} PlaceIsShown(hits: seq<Hit>, limit: nat, i: nat, h: Hit)
    requires ShownAt(hits, limit, i, h)
    ensures h in Shown(hits, limit)
    decreases |hits|
  {
    if i < |hits| - 1 {
      ShownAtFront(hits, limit, i, h);
      PlaceIsShown(hits[..|hits| - 1], limit, i, h);
    }
  }

  lemma {:induction false} CountsGrow(hits: seq<Hit>, session: Option<string>, i: nat, j: nat)
    requires i <= j <= |hits|
    ensures CountIn(hits[..i], session) <= CountIn(hits[..j], session) && Leaders(hits[..i]) <= Leaders(hits[..j])
    decreases j
  {
    if i < j {
      assert hits[..j][..j - 1] == hits[..j - 1];
      CountsGrow(hits, session, i, j - 1);
    }
  }

  /** A session shows its best hits: none is shown while an earlier one of the session is not. */
  lemma EarlierIsShown(hits: seq<Hit>, limit: nat, i: nat, j: nat)
    requires i < j < |hits| && hits[i].session == hits[j].session && Distinct(hits) && hits[j] in Shown(hits, limit)
    ensures hits[i] in Shown(hits, limit)
  {
    var k := PlaceOfShown(hits, limit, hits[j]);
    assert k == j;
    CountsGrow(hits, hits[i].session, i, j);
    PlaceIsShown(hits, limit, i, hits[i]);
  }

  ghost predicate IsShown(groups: seq<Group>, h: Hit) { exists g | 0 <= g < |groups| :: h in groups[g].hits }

  lemma {:induction false} OfHolds(hits: seq<Hit>, session: Option<string>, h: Hit)
    ensures h in Of(hits, session) <==> h in hits && h.session == session
  {
    if hits != [] {
      OfHolds(hits[..|hits| - 1], session, h);
      assert hits == hits[..|hits| - 1] + [hits[|hits| - 1]];
    }
  }

  /** The groups show exactly the shown hits. */
  lemma GroupsShow(groups: seq<Group>, shown: seq<Hit>, h: Hit)
    requires GroupsAre(groups, shown)
    ensures IsShown(groups, h) <==> h in shown
  {
    if g :| 0 <= g < |groups| && h in groups[g].hits { OfHolds(shown, groups[g].session, h); }
    if h in shown {
      OfHolds(shown, h.session, h);
      FirstSeenHolds(shown, h.session);
      var g :| 0 <= g < |groups| && groups[g].session == h.session;
    }
  }

  /** No hit is shown while one of the same session with a lower score is not. */
  lemma BestAreShown(ranked: seq<Hit>, task: Option<string>, limit: nat, groups: seq<Group>, a: Hit, b: Hit)
    requires InOrder(ranked, task) && Distinct(ranked) && GroupsAre(groups, Shown(ranked, limit))
    requires a in ranked && b in ranked && a.session == b.session && a.score < b.score && IsShown(groups, b)
    ensures IsShown(groups, a)
  {
    var i :| 0 <= i < |ranked| && ranked[i] == a;
    var j :| 0 <= j < |ranked| && ranked[j] == b;
    GroupsShow(groups, Shown(ranked, limit), b);
    EarlierIsShown(ranked, limit, i, j);
    GroupsShow(groups, Shown(ranked, limit), a);
  }

  /** Rank the matches, then group them: ten hits unless asked otherwise, and never more than fifty. */
  method Recall(
      matches: seq<Hit>, task: Option<string>, limit: nat)
    returns (groups: seq<Group>, total: nat, truncated: bool, ghost ranked: seq<Hit>)
    requires Distinct(matches) && DistinctIds(Elements(matches))
    ensures InOrder(ranked, task) && Elements(ranked) == Elements(matches) && |ranked| == |matches|
    ensures var most := if limit == 0 then 10 else if limit < 50 then limit else 50;
            && GroupsAre(groups, Shown(ranked, most)) && total == |matches|
            && (truncated <==> |Shown(ranked, most)| < total)
    ensures forall a, b | a in matches && b in matches && a.session == b.session && a.score < b.score
                          && IsShown(groups, b) :: IsShown(groups, a)
  {
    BetterIsTotal(Elements(matches), task);
    var hits := Sort((a, b) => Better(a, b, task), matches);
    SameElements(hits, matches);
    assert forall i, j | 0 <= i < j < |hits| :: Better(hits[i], hits[j], task);
    SortedIffInOrder(hits, task);
    ranked, total := hits, |hits|;
    groups, truncated := GroupHits(hits, EffectiveLimit(limit));
    forall a, b | a in matches && b in matches && a.session == b.session && a.score < b.score && IsShown(groups, b)
      ensures IsShown(groups, a)
    {
      assert a in Elements(hits) && b in Elements(hits);
      BestAreShown(hits, task, EffectiveLimit(limit), groups, a, b);
    }
  }

  /** The answer depends on the matches alone, not on the order the index returned them in. */
  lemma RecallIsOrderFree(a: seq<Hit>, b: seq<Hit>, task: Option<string>, limit: nat, ga: seq<Group>, gb: seq<Group>)
    requires DistinctIds(Elements(a)) && Elements(a) == Elements(b)
    requires InOrder(a, task) && InOrder(b, task) && Distinct(a) && Distinct(b)
    requires GroupsAre(ga, Shown(a, limit)) && GroupsAre(gb, Shown(b, limit))
    ensures |ga| == |gb| && forall g | 0 <= g < |ga| :: ga[g].session == gb[g].session && ga[g].hits == gb[g].hits
  {
    BetterIsTotal(Elements(a), task);
    SortedIffInOrder(a, task);
    SortedIffInOrder(b, task);
    SortedUnique((x, y) => Better(x, y, task), a, b);
  }

  /** No session shows more than three hits. */
  lemma {:induction false} AtMostThree(hits: seq<Hit>, limit: nat, session: Option<string>)
    ensures |Of(Shown(hits, limit), session)| <= 3
  {
    if hits != [] {
      var n := |hits| - 1;
      AtMostThree(hits[..n], limit, session);
      ShownGreedily(hits, limit, n);
      assert hits[..n + 1] == hits;
      Append(Shown(hits[..n], limit), hits[n], session);
    }
  }
}
