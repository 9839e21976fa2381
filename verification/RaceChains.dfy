/** Chains of modifications and live requests while responders race: links never form a loop, and when a candidate
    keeps at most one live request. */
module RaceChains {
  import opened Common
  import opened Records
  import opened Approvals
  import opened ApprovalSafety
  import opened Responders
  import opened ApprovalRaces
  import opened Releases

  // ── No loops ───────────────────────────────────────────────────────────

  /** Every parent ranks below its child. */
  ghost predicate Climbs(rs: Requests, rank: map<string, nat>) {
    && rank.Keys == rs.Keys
    && forall s | s in rs && rs[s].parent.Some? :: rs[s].parent.value in rank && rank[rs[s].parent.value] < rank[s]
  }

  ghost predicate Acyclic(rs: Requests) { exists rank :: Climbs(rs, rank) }

  /** Every responder answers a stored request. */
  ghost predicate Rooted(w: World) {
    forall who | who in w.parts :: CallOf(w.parts[who]).request in w.board.requests
  }

  /** A new row below its parent, or a row whose terms stay. */
  lemma ChangeClimbs(rs: Requests, ch: Change, rank: map<string, nat>)
    requires Climbs(rs, rank) && (Allowed(rs, ch) || Closes(rs, ch))
    requires ch.Minted? && ch.row.parent.Some? ==> ch.row.parent.value in rs
    ensures Acyclic(Apply(rs, ch))
  {
    match ch
    case Minted(id, row) =>
      assert Climbs(Apply(rs, ch), rank[id := if row.parent.Some? then rank[row.parent.value] + 1 else 0]);
    case Forked(id, _, newId, _) => assert Climbs(Apply(rs, ch), rank[newId := rank[id] + 1]);
    case _ => assert Climbs(Apply(rs, ch), rank);
  }

  lemma TurnAcyclic(env: Env, w: World, m: Turn)
    requires MintsIn(w, m) && Rooted(w) && Acyclic(w.board.requests)
    ensures Acyclic(Next(env, w, m).board.requests)
  {
    var rank :| Climbs(w.board.requests, rank);
    RaceShape(env, w, m);
    RaceAllowed(env, w, m);
    if m.Other? { StepShape(env, w.board, m.op); }
    ChangeClimbs(w.board.requests, RaceChange(env, w, m), rank);
  }

  lemma TurnRooted(env: Env, w: World, m: Turn)
    requires MintsIn(w, m) && Rooted(w)
    ensures Rooted(Next(env, w, m))
  {
    TurnGuards(env, w, m);
    forall who | who in Next(env, w, m).parts
      ensures CallOf(Next(env, w, m).parts[who]).request in Next(env, w, m).board.requests
    {
      PartsComeFrom(env, w, m, who);
    }
  }

  lemma {:induction false} RaceAcyclic(env: Env, w: World, ms: seq<Turn>)
    requires RaceMints(env, w, ms) && Rooted(w) && Acyclic(w.board.requests)
    ensures Rooted(Race(env, w, ms)) && Acyclic(Race(env, w, ms).board.requests)
  {
    if ms != [] {
      FrontMints(env, w, ms);
      RaceAcyclic(env, w, ms[..|ms| - 1]);
      TurnRooted(env, Race(env, w, ms[..|ms| - 1]), ms[|ms| - 1]);
      TurnAcyclic(env, Race(env, w, ms[..|ms| - 1]), ms[|ms| - 1]);
    }
  }

  /** The request `n` modifications back. */
  function Ancestor(rs: Requests, id: string, n: nat): Option<string> {
    if n == 0 then Some(id)
    else
      var next := Ancestor(rs, id, n - 1);
      if next.Some? && next.value in rs then rs[next.value].parent else None
  }

  lemma {:induction false} AncestorsFall(rs: Requests, rank: map<string, nat>, id: string, n: nat)
    requires Climbs(rs, rank) && n > 0 && Ancestor(rs, id, n).Some?
    ensures id in rank && Ancestor(rs, id, n).value in rank && rank[Ancestor(rs, id, n).value] < rank[id]
  {
    if n > 1 {
      AncestorsFall(rs, rank, id, n - 1);
    } else {
      assert Ancestor(rs, id, 0) == Some(id);
    }
  }

  lemma LinksClimb(rs: Requests)
    requires Chained(rs)
    ensures Acyclic(rs)
  {
    var rank :| Ranked(rs, rank);
    assert Climbs(rs, rank);
  }

  lemma ClimbingNeverLoops(rs: Requests, id: string, n: nat)
    requires Backed(rs) && Acyclic(rs) && n > 0
    ensures Follow(rs, id, n) != Some(id) && Ancestor(rs, id, n) != Some(id)
  {
    var rank :| Climbs(rs, rank);
    assert Ranked(rs, rank);
    if Follow(rs, id, n).Some? { FollowClimbs(rs, rank, id, n); }
    if Ancestor(rs, id, n).Some? { AncestorsFall(rs, rank, id, n); }
  }

  lemma ChainsAreHalfLinked(w: World)
    requires w.parts == map[] && w.acted == map[] && Chained(w.board.requests)
    ensures HalfLinked(w) && Rooted(w)
  {
  }

  /** Over every race from a board of chains, neither the successors of a request nor its parents lead back to it. */
  lemma RaceNeverLoops(env: Env, w: World, ms: seq<Turn>, id: string, n: nat)
    requires w.parts == map[] && w.acted == map[] && Chained(w.board.requests) && RaceMints(env, w, ms) && n > 0
    ensures Follow(Race(env, w, ms).board.requests, id, n) != Some(id)
    ensures Ancestor(Race(env, w, ms).board.requests, id, n) != Some(id)
  {
    LinksClimb(w.board.requests);
    ChainsAreHalfLinked(w);
    RaceAcyclic(env, w, ms);
    RaceHalfLinked(env, w, ms);
    HalfLinkedIsBacked(Race(env, w, ms));
    ClimbingNeverLoops(Race(env, w, ms).board.requests, id, n);
  }

  // ── One live request ───────────────────────────────────────────────────

  /** The turn mints a live request for a candidate that has one. */
  ghost predicate TurnDoubles(env: Env, w: World, m: Turn, now: nat) {
    match m
    case Go(who) =>
      && Asks(w, who)
      && var part := w.parts[who];
      && var row := RequestFor(env, part.ticket, part.id, part.row);
      && IsLive(row, now) && Taken(w.board.requests, row.candidate, row.action, row.workspace, now)
    case Other(op) => Doubles(env, w.board, op)
    case _ => false
  }

  /** A responder takes the time when it begins; its later moves do not move the clock. */
  function TurnClock(m: Turn, before: nat): nat {
    match m
    case Check(_, call) => call.now
    case Other(op) => Clock(op, before)
    case _ => before
  }

  /** Answering, sweeping, and adding a row that has run out already leave requests unique. */
  lemma QuietChangeKeepsUnique(rs: Requests, ch: Change, now: nat)
    requires Unique(rs, now) && (Allowed(rs, ch) || Closes(rs, ch))
    requires !ch.Forked? && (ch.Minted? ==> !IsLive(ch.row, now))
    ensures Unique(Apply(rs, ch), now)
  {
    forall c, a, w, r, q | LiveAt(Apply(rs, ch), c, a, w, now, r) && LiveAt(Apply(rs, ch), c, a, w, now, q)
      ensures r == q
    {
      assert LiveAt(rs, c, a, w, now, r) && LiveAt(rs, c, a, w, now, q);
    }
  }

  lemma TurnUniqueIff(env: Env, w: World, m: Turn, now: nat)
    requires MintsIn(w, m) && Unique(w.board.requests, now) && TurnClock(m, now) == now
    ensures Unique(Next(env, w, m).board.requests, now) <==> !TurnDoubles(env, w, m, now)
  {
    if m.Other? {
      StepUniqueIff(env, w.board, m.op, now);
    } else {
      var ch := RaceChange(env, w, m);
      RaceShape(env, w, m);
      RaceAllowed(env, w, m);
      if ch.Minted? && IsLive(ch.row, now) {
        AddingKeepsUniqueIff(w.board.requests, ch, now);
      } else {
        QuietChangeKeepsUnique(w.board.requests, ch, now);
      }
    }
  }

  function RaceClock(ms: seq<Turn>, start: nat): nat {
    if ms == [] then start else TurnClock(ms[|ms| - 1], RaceClock(ms[..|ms| - 1], start))
  }

  ghost predicate ClockMovesOn(ms: seq<Turn>, start: nat) {
    forall i | 0 <= i < |ms| :: RaceClock(ms[..i], start) <= TurnClock(ms[i], RaceClock(ms[..i], start))
  }

  ghost predicate RaceUnique(env: Env, w: World, ms: seq<Turn>, start: nat) {
    forall i | 0 <= i <= |ms| :: Unique(Race(env, w, ms[..i]).board.requests, RaceClock(ms[..i], start))
  }

  ghost predicate TurnDoublesAt(env: Env, w: World, ms: seq<Turn>, start: nat, i: nat) {
    i < |ms| && TurnDoubles(env, Race(env, w, ms[..i]), ms[i], RaceClock(ms[..i + 1], start))
  }

  lemma UniqueNext(env: Env, w: World, ms: seq<Turn>, start: nat, i: nat)
    requires i < |ms| && RaceMints(env, w, ms) && ClockMovesOn(ms, start)
    requires Unique(Race(env, w, ms[..i]).board.requests, RaceClock(ms[..i], start))
    ensures Unique(Race(env, w, ms[..i + 1]).board.requests, RaceClock(ms[..i + 1], start)) <==>
        !TurnDoublesAt(env, w, ms, start, i)
  {
    var before, now := Race(env, w, ms[..i]), RaceClock(ms[..i], start);
    assert ms[..i + 1][..i] == ms[..i];
    LaterIsFewer(before.board.requests, now, TurnClock(ms[i], now));
    TurnUniqueIff(env, before, ms[i], TurnClock(ms[i], now));
  }

  lemma {:induction false} RaceUniqueUpTo(env: Env, w: World, ms: seq<Turn>, start: nat, n: nat)
    requires n <= |ms| && RaceMints(env, w, ms) && ClockMovesOn(ms, start) && Unique(w.board.requests, start)
    requires forall i: nat | i < n :: !TurnDoublesAt(env, w, ms, start, i)
    ensures Unique(Race(env, w, ms[..n]).board.requests, RaceClock(ms[..n], start))
  {
    if n > 0 {
      RaceUniqueUpTo(env, w, ms, start, n - 1);
      UniqueNext(env, w, ms, start, n - 1);
    }
  }

  /** As time moves on, a race never shows two live requests for one candidate, action and workspace, exactly when no
      responder mints one for a fork that has one, and nobody else does. */
  lemma RaceUniqueIff(env: Env, w: World, ms: seq<Turn>, start: nat)
    requires RaceMints(env, w, ms) && ClockMovesOn(ms, start) && Unique(w.board.requests, start)
    ensures RaceUnique(env, w, ms, start) <==> forall i: nat | i < |ms| :: !TurnDoublesAt(env, w, ms, start, i)
  {
    if forall i: nat | i < |ms| :: !TurnDoublesAt(env, w, ms, start, i) {
      forall n | 0 <= n <= |ms| ensures Unique(Race(env, w, ms[..n]).board.requests, RaceClock(ms[..n], start)) {
        RaceUniqueUpTo(env, w, ms, start, n);
      }
    } else {
      var i: nat :| i < |ms| && TurnDoublesAt(env, w, ms, start, i);
      if RaceUnique(env, w, ms, start) { UniqueNext(env, w, ms, start, i); }
    }
  }
}
