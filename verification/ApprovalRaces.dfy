/** What happens to requests while responders' reads and writes, sweeps and edits interleave. */
module ApprovalRaces {
  import opened Common
  import opened Records
  import opened Approvals
  import opened ApprovalSafety
  import opened Responders

  // ── A request leaves pending once ──────────────────────────────────────

  predicate Busy(w: World, who: nat) { who in w.parts || who in w.acted }

  /** What a move does to the requests; only a commit that meets a pending row closes one on a responder's behalf. */
  ghost function RaceChange(env: Env, w: World, m: Turn): Change {
    match m
    case Check(who, call) => if !Busy(w, who) && Expires(w.board, call) then SweptAt(call.now) else Same
    case Go(who) =>
      if Asks(w, who)
      then var part := w.parts[who]; Minted(part.ticket.call.newId, RequestFor(env, part.ticket, part.id, part.row))
      else Same
    case Finish(who) =>
      if who in w.acted && Commits(w.board, w.acted[who].0.request) then
        var (call, next) := w.acted[who];
        Closed(call.request, Answered(env, w.board.requests[call.request], call, next))
      else Same
    case Other(op) => ChangeBy(env, w.board, op)
  }

  /** Answered rows are left alone; a row that gets a successor is answered in the same move. */
  ghost predicate Guarded(before: Requests, after: Requests) {
    forall id | id in before ::
      && id in after && SameTerms(before[id], after[id])
      && (before[id].status != Pending ==> after[id] == before[id])
      && (after[id].status == Pending ==> after[id].successor == before[id].successor)
  }

  lemma RaceShape(env: Env, w: World, m: Turn)
    requires MintsIn(w, m)
    ensures Next(env, w, m).board.requests == Apply(w.board.requests, RaceChange(env, w, m))
  {
    match m
    case Other(op) => StepShape(env, w.board, op);
    case _ =>
  }

  lemma TurnGuards(env: Env, w: World, m: Turn)
    requires MintsIn(w, m)
    ensures Guarded(w.board.requests, Next(env, w, m).board.requests)
    ensures forall id | id !in w.board.requests && id in Next(env, w, m).board.requests ::
        Next(env, w, m).board.requests[id].successor.None?
  {
    RaceShape(env, w, m);
    RaceAllowed(env, w, m);
    ChangeGuards(w.board.requests, RaceChange(env, w, m));
  }

  /** The change is allowed, apart from the successor that a commit writes into the row it closes. */
  predicate Closes(rs: Requests, ch: Change) {
    ch.Closed? && ch.id in rs && rs[ch.id].status == Pending && ch.row.status != Pending && SameTerms(rs[ch.id], ch.row)
  }

  lemma RaceAllowed(env: Env, w: World, m: Turn)
    requires MintsIn(w, m)
    ensures Allowed(w.board.requests, RaceChange(env, w, m)) || Closes(w.board.requests, RaceChange(env, w, m))
  {
    match m
    case Other(op) => StepShape(env, w.board, op);
    case _ =>
  }

  lemma ChangeGuards(rs: Requests, ch: Change)
    requires Allowed(rs, ch) || Closes(rs, ch)
    ensures Guarded(rs, Apply(rs, ch)) && forall id | id !in rs && id in Apply(rs, ch) ::
        Apply(rs, ch)[id].successor.None?
  {
  }

  /** Whether the move takes the request out of pending. */
  ghost predicate Leaves(env: Env, w: World, m: Turn, id: string) {
    id in w.board.requests && w.board.requests[id].status == Pending
    && !(id in Next(env, w, m).board.requests && Next(env, w, m).board.requests[id].status == Pending)
  }

  ghost function Departures(env: Env, w: World, ms: seq<Turn>, id: string): nat {
    if ms == [] then 0
    else
      var before := ms[..|ms| - 1];
      Departures(env, w, before, id) + if Leaves(env, Race(env, w, before), ms[|ms| - 1], id) then 1 else 0
  }

  /** However the checks, effects and commits of responders, the sweeps and the edits of others interleave:
      a request leaves pending at most once, and once it has, its row never changes again. */
  lemma {:induction false} LeavesPendingOnce(env: Env, w: World, ms: seq<Turn>, id: string)
    requires RaceMints(env, w, ms)
    ensures Departures(env, w, ms, id) <= 1
    ensures Departures(env, w, ms, id) == 1 ==>
              id in Race(env, w, ms).board.requests && Race(env, w, ms).board.requests[id].status != Pending
    ensures id in w.board.requests && w.board.requests[id].status != Pending ==>
              Departures(env, w, ms, id) == 0 && id in Race(env, w, ms).board.requests
                  && Race(env, w, ms).board.requests[id] == w.board.requests[id]
  {
    if ms != [] {
      var n := |ms| - 1;
      assert forall i | 0 <= i < n :: ms[..n][..i] == ms[..i];
      LeavesPendingOnce(env, w, ms[..n], id);
      var mid := Race(env, w, ms[..n]);
      TurnGuards(env, mid, ms[n]);
    }
  }

  ghost predicate SuccessorsAnswered(rs: Requests) {
    forall id | id in rs && rs[id].successor.Some? :: rs[id].status != Pending
  }

  /** Under every interleaving a request with a successor is never pending. */
  lemma {:induction false} RaceKeepsSuccessorsAnswered(env: Env, w: World, ms: seq<Turn>)
    requires RaceMints(env, w, ms) && SuccessorsAnswered(w.board.requests)
    ensures SuccessorsAnswered(Race(env, w, ms).board.requests)
  {
    if ms != [] {
      var n := |ms| - 1;
      assert forall i | 0 <= i < n :: ms[..n][..i] == ms[..i];
      RaceKeepsSuccessorsAnswered(env, w, ms[..n]);
      TurnGuards(env, Race(env, w, ms[..n]), ms[n]);
    }
  }

  // ── Who gets the row ───────────────────────────────────────────────────

  /** The state in which this turn, taken now, would leave a pending row: expired by a sweep or a late check, or
      answered by a commit or a whole response. */
  function TakenAs(env: Env, w: World, m: Turn, id: string): Option<Status> {
    if !Commits(w.board, id) then None
    else match m
      case Check(who, call) => LapsesAs(w.board.requests[id], !Busy(w, who) && Expires(w.board, call), call.now)
      case Finish(who) =>
        if who in w.acted && w.acted[who].0.request == id then Some(Outcome(w.acted[who].0.response)) else None
      case Other(Sweeping(now)) => LapsesAs(w.board.requests[id], true, now)
      case Other(Answering(call)) =>
        if Expires(w.board, call) then LapsesAs(w.board.requests[id], true, call.now)
        else if call.request == id && Succeeds(env, w.board, call) then Some(Outcome(call.response))
        else None
      case _ => None
  }

  function LapsesAs(r: Request, swept: bool, now: nat): Option<Status> {
    if swept && Overdue(r, now) then Some(Lapsed) else None
  }

  /** A pending row leaves pending exactly when the turn takes it, and then reads as taken. */
  lemma LeavesIffTaken(env: Env, w: World, m: Turn, id: string)
    requires MintsIn(w, m) && Commits(w.board, id)
    ensures Leaves(env, w, m, id) <==> TakenAs(env, w, m, id).Some?
    ensures id in Next(env, w, m).board.requests
    ensures TakenAs(env, w, m, id).Some? ==>
              Next(env, w, m).board.requests[id].status == TakenAs(env, w, m, id).value != Pending
    ensures TakenAs(env, w, m, id).None? ==> Next(env, w, m).board.requests[id].status == Pending
  {
    RaceShape(env, w, m);
    RaceAllowed(env, w, m);
    if m.Other? && m.op.Answering? { AnswerTakes(env, w.board, m.op.call, id); }
  }

  /** A whole response takes the row it answers, or sweeps. */
  lemma AnswerTakes(env: Env, b: Board, call: Call, id: string)
    requires call.newId !in b.requests && Commits(b, id)
    ensures var t := Apply(b.requests, RespondChange(env, b, call));
            && id in t
            && t[id].status ==
               if Expires(b, call) then (if Overdue(b.requests[id], call.now) then Lapsed else Pending)
               else if call.request == id && Succeeds(env, b, call) then Outcome(call.response)
               else Pending
  {
    RespondAllowed(env, b, call);
  }

  /** What the first turn that takes the row makes of it. */
  ghost function Fate(env: Env, w: World, ms: seq<Turn>, id: string): Option<Status> {
    if ms == [] then None
    else
      var before := Fate(env, w, ms[..|ms| - 1], id);
      if before.Some? then before else TakenAs(env, Race(env, w, ms[..|ms| - 1]), ms[|ms| - 1], id)
  }

  ghost predicate Untaken(env: Env, w: World, ms: seq<Turn>, id: string) {
    forall i: nat | i < |ms| :: UntakenAt(env, w, ms, i, id)
  }

  /** A row that is pending at the start is pending at the end exactly when no turn took it; otherwise it reads as
      the first turn that took it left it. */
  lemma {:induction false} RowFollowsFate(env: Env, w: World, ms: seq<Turn>, id: string)
    requires RaceMints(env, w, ms) && Commits(w.board, id)
    ensures var t, fate := Race(env, w, ms).board, Fate(env, w, ms, id);
            && id in t.requests && t.requests[id].status == (if fate.None? then Pending else fate.value)
            && fate != Some(Pending) && (fate.None? <==> Departures(env, w, ms, id) == 0)
  {
    if ms != [] {
      var n := |ms| - 1;
      var mid := Race(env, w, ms[..n]);
      FrontMints(env, w, ms);
      RowFollowsFate(env, w, ms[..n], id);
      if Commits(mid.board, id) { LeavesIffTaken(env, mid, ms[n], id); } else { TurnGuards(env, mid, ms[n]); }
    }
  }

  ghost predicate UntakenAt(env: Env, w: World, ms: seq<Turn>, i: nat, id: string) {
    i < |ms| && TakenAs(env, Race(env, w, ms[..i]), ms[i], id).None?
  }

  lemma UntakenFront(env: Env, w: World, ms: seq<Turn>, id: string)
    requires ms != []
    ensures var n := |ms| - 1;
            Untaken(env, w, ms, id) <==> Untaken(env, w, ms[..n], id) && UntakenAt(env, w, ms, n, id)
  {
    var n := |ms| - 1;
    forall i | 0 <= i < n ensures UntakenAt(env, w, ms[..n], i, id) <==> UntakenAt(env, w, ms, i, id) {
      assert ms[..n][..i] == ms[..i];
    }
  }

  lemma {:induction false} UntakenIsNoFate(env: Env, w: World, ms: seq<Turn>, id: string)
    ensures Untaken(env, w, ms, id) <==> Fate(env, w, ms, id).None?
  {
    if ms != [] {
      UntakenIsNoFate(env, w, ms[..|ms| - 1], id);
      UntakenFront(env, w, ms, id);
    }
  }

  predicate TurnOf(m: Turn, who: nat) { !m.Other? && m.who == who }

  lemma OthersLeaveActed(env: Env, w: World, m: Turn, who: nat)
    requires who in w.acted && !TurnOf(m, who)
    ensures who in Next(env, w, m).acted && Next(env, w, m).acted[who] == w.acted[who]
  {}

  lemma {:induction false} BystanderWaits(env: Env, w: World, ms: seq<Turn>, who: nat)
    requires who in w.acted && forall i | 0 <= i < |ms| :: !TurnOf(ms[i], who)
    ensures who in Race(env, w, ms).acted && Race(env, w, ms).acted[who] == w.acted[who]
  {
    if ms != [] {
      BystanderWaits(env, w, ms[..|ms| - 1], who);
      OthersLeaveActed(env, Race(env, w, ms[..|ms| - 1]), ms[|ms| - 1], who);
    }
  }

  /** A responder that has acted on a pending request and then waits while others move: its commit goes through
      exactly when none of those turns took the row, and the row ends as answered by it or as the turn that took it
      left it. In particular a published request reads as granted exactly when no turn in between took it, or the
      one that did was another approval. */
  lemma CommitsIffUntaken(env: Env, w: World, ms: seq<Turn>, who: nat)
    requires RaceMints(env, w, ms) && who in w.acted && Commits(w.board, w.acted[who].0.request)
    requires forall i | 0 <= i < |ms| :: !TurnOf(ms[i], who)
    ensures var (call, _) := w.acted[who]; var fate := Fate(env, w, ms, call.request);
            var t := Race(env, w, ms); var after := Finished(env, t, who).board;
            && who in t.acted && t.acted[who] == w.acted[who]
            && (Commits(t.board, call.request) <==> Untaken(env, w, ms, call.request))
            && Outcomes(after, call.request, if fate.None? then Outcome(call.response) else fate.value)
            && (Outcomes(after, call.request, Outcome(call.response)) <==> fate in {None, Some(Outcome(call.response))})
  {
    BystanderWaits(env, w, ms, who);
    RowFollowsFate(env, w, ms, w.acted[who].0.request);
    UntakenIsNoFate(env, w, ms, w.acted[who].0.request);
  }

  /** Effects come before the guarded commit: a sweep in between leaves the content published on a request that
      reads as expired. */
  lemma LateSweepHidesPublication(env: Env, w: World, who: nat, late: nat)
    requires who in w.acted && Commits(w.board, w.acted[who].0.request) && w.acted[who].0.response == Approve
    requires var r := w.board.requests[w.acted[who].0.request]; r.expiresAt.Some? && r.expiresAt.value < late
    ensures var after := Finished(env, Next(env, w, Other(Sweeping(late))), who).board;
            after.published == w.board.published && Outcomes(after, w.acted[who].0.request, Lapsed)
  {
  }

  // ── Links while responders race ────────────────────────────────────────

  /** The successor a responder has minted and not yet written into the request it answers. */
  function Minting(w: World, who: nat): Option<string> {
    if who in w.acted then w.acted[who].1
    else if who in w.parts && (w.parts[who].Wants? || w.parts[who].Holds?) && w.parts[who].next.ToCommit?
    then w.parts[who].next.successor
    else None
  }

  function RequestOf(w: World, who: nat): string
    requires Busy(w, who)
  {
    if who in w.acted then w.acted[who].0.request else CallOf(w.parts[who]).request
  }

  /** Every successor link has its parent link; a successor still to be written hangs on the request it was minted for,
      and no row names it yet. */
  ghost predicate HalfLinked(w: World) {
    && (forall who :: !(who in w.parts && who in w.acted))
    && (forall r | r in w.board.requests && w.board.requests[r].successor.Some? ::
          && w.board.requests[r].status != Pending && w.board.requests[r].successor.value in w.board.requests
          && w.board.requests[w.board.requests[r].successor.value].parent == Some(r))
    && (forall who | Busy(w, who) && Minting(w, who).Some? ::
        Hangs(w.board.requests, Minting(w, who).value, RequestOf(w, who)))
    && (forall a, b | Busy(w, a) && Busy(w, b) && a != b && Minting(w, a).Some? :: Minting(w, a) != Minting(w, b))
  }

  ghost predicate Hangs(rs: Requests, s: string, r: string) {
    && s in rs && rs[s].parent == Some(r)
    && forall q | q in rs :: rs[q].successor != Some(s)
  }

  lemma TurnKeepsApart(env: Env, w: World, m: Turn)
    requires forall who :: !(who in w.parts && who in w.acted)
    ensures forall who :: !(who in Next(env, w, m).parts && who in Next(env, w, m).acted)
  {
  }

  /** A turn leaves the state of every other responder alone. */
  lemma TurnTouchesOwn(env: Env, w: World, m: Turn, who: nat)
    requires m.Other? || m.who != who
    ensures var t := Next(env, w, m);
            && (who in t.parts <==> who in w.parts) && (who in t.parts ==> t.parts[who] == w.parts[who])
            && (who in t.acted <==> who in w.acted) && (who in t.acted ==> t.acted[who] == w.acted[who])
  {
    if m.Go? { GoneTouches(env, w, m.who, who); }
  }

  lemma GoneTouches(env: Env, w: World, mover: nat, who: nat)
    requires mover != who
    ensures var t := Gone(env, w, mover);
            && (who in t.parts <==> who in w.parts) && (who in t.parts ==> t.parts[who] == w.parts[who])
            && (who in t.acted <==> who in w.acted) && (who in t.acted ==> t.acted[who] == w.acted[who])
  {
    if mover in w.parts {
      match w.parts[mover]
      case Ready(t) => BeginTouches(env, w, mover, t, who);
      case _ =>
    }
  }

  lemma BeginTouches(env: Env, w: World, mover: nat, ticket: Ticket, who: nat)
    requires mover != who
    ensures var t := Begin(env, w, mover, ticket);
            && (who in t.parts <==> who in w.parts) && (who in t.parts ==> t.parts[who] == w.parts[who])
            && t.acted == w.acted
  {
  }

  lemma OwnRequest(env: Env, w: World, who: nat)
    requires who in w.parts && who !in w.acted && Busy(Gone(env, w, who), who)
    ensures RequestOf(Gone(env, w, who), who) == RequestOf(w, who)
  {
  }

  lemma OwnMints(env: Env, w: World, who: nat)
    requires who in w.parts && who !in w.acted
    ensures var t := Gone(env, w, who);
            && (Asks(w, who) ==> Busy(t, who) && Minting(t, who) == Some(w.parts[who].ticket.call.newId))
            && (!Asks(w, who) && Busy(t, who) ==> Minting(t, who) == Minting(w, who))
  {
  }

  lemma OwnHolds(env: Env, w: World, who: nat)
    requires who in w.parts && who !in w.acted && Minting(w, who).Some?
    ensures Busy(Gone(env, w, who), who) <==> !LetsGo(w, who)
  {
  }

  /** A responder's own turn keeps the successor it holds, or mints one, or lets go of it. */
  lemma OwnMinting(env: Env, w: World, who: nat)
    requires who in w.parts && who !in w.acted
    ensures var t := Gone(env, w, who);
            && (Busy(t, who) ==> RequestOf(t, who) == RequestOf(w, who))
            && (Asks(w, who) ==> Busy(t, who) && Minting(t, who) == Some(w.parts[who].ticket.call.newId))
            && (!Asks(w, who) && Busy(t, who) ==> Minting(t, who) == Minting(w, who))
            && (Minting(w, who).Some? ==> (Busy(t, who) <==> !LetsGo(w, who)))
  {
    if Busy(Gone(env, w, who), who) { OwnRequest(env, w, who); }
    OwnMints(env, w, who);
    if Minting(w, who).Some? { OwnHolds(env, w, who); }
  }

  /** The responder fails to close the parent of the fork it has asked for. */
  predicate LetsGo(w: World, who: nat) {
    && who in w.parts
    && var part := w.parts[who];
    || (part.Wants? && !(part.id in w.board.candidates && CanMove(w.board.candidates[part.id].stage, part.to)))
    || (part.Holds? && part.id !in w.board.candidates)
  }

  /** What a turn does to a successor in the making. */
  lemma MintingMoves(env: Env, w: World, m: Turn, who: nat)
    requires HalfLinked(w) && Busy(Next(env, w, m), who) && Minting(Next(env, w, m), who).Some?
    ensures var t := Next(env, w, m);
            || (Busy(w, who) && Minting(w, who) == Minting(t, who) && RequestOf(w, who) == RequestOf(t, who))
            || (m == Go(who) && Asks(w, who) && Minting(t, who) == Some(w.parts[who].ticket.call.newId)
                && RequestOf(t, who) == w.parts[who].ticket.call.request)
  {
    if m.Other? || m.who != who {
      TurnTouchesOwn(env, w, m, who);
    } else if m.Go? && who in w.parts {
      OwnMinting(env, w, who);
    }
  }

  // ── Successor links keep their parents ─────────────────────────────────

  ghost predicate Backed(rs: Requests) {
    forall r | r in rs && rs[r].successor.Some? ::
      rs[r].status != Pending && rs[r].successor.value in rs && rs[rs[r].successor.value].parent == Some(r)
  }

  /** Closing a row writes no successor, or one that hangs on it. */
  lemma ChangeBacks(rs: Requests, ch: Change)
    requires Backed(rs) && (Allowed(rs, ch) || Closes(rs, ch))
    requires ch.Closed? ==> ch.row.successor == rs[ch.id].successor
                            || (ch.row.successor.Some? && Hangs(rs, ch.row.successor.value, ch.id))
    ensures Backed(Apply(rs, ch))
  {
    match ch
    case Closed(id, row) => CloseBacks(rs, ch);
    case Forked(_, _, _, _) => ForkBacks(rs, ch);
    case _ =>
  }

  lemma CloseBacks(rs: Requests, ch: Change)
    requires Backed(rs) && Closes(rs, ch)
    requires ch.row.successor == rs[ch.id].successor
        || (ch.row.successor.Some? && Hangs(rs, ch.row.successor.value, ch.id))
    ensures Backed(Apply(rs, ch))
  {}

  lemma ForkBacks(rs: Requests, ch: Change)
    requires Backed(rs) && Allowed(rs, ch) && ch.Forked?
    ensures Backed(Apply(rs, ch))
  {}

  /** A successor that hangs keeps hanging unless the change writes it. */
  lemma ChangeHangs(rs: Requests, ch: Change, s: string, r: string)
    requires Hangs(rs, s, r) && (Allowed(rs, ch) || Closes(rs, ch)) && (ch.Closed? ==> ch.row.successor != Some(s))
    ensures Hangs(Apply(rs, ch), s, r)
  {}

  lemma MintedHangs(rs: Requests, ch: Change)
    requires Backed(rs) && Allowed(rs, ch) && ch.Minted? && ch.row.parent.Some?
    ensures Hangs(Apply(rs, ch), ch.id, ch.row.parent.value)
  {}

  lemma HalfLinkedIsBacked(w: World)
    requires HalfLinked(w)
    ensures Backed(w.board.requests)
  {}

  /** What a commit writes is the old successor or one that hangs on the row. */
  lemma CommitWrites(env: Env, w: World, m: Turn)
    requires HalfLinked(w) && MintsIn(w, m) && RaceChange(env, w, m).Closed?
    ensures var ch := RaceChange(env, w, m);
            && ch.id in w.board.requests
            && (ch.row.successor == w.board.requests[ch.id].successor
                || (m.Finish? && m.who in w.acted && ch.row.successor == w.acted[m.who].1 && ch.row.successor.Some?
                    && Hangs(w.board.requests, ch.row.successor.value, ch.id)))
  {
    if m.Finish? {
      assert Busy(w, m.who);
    } else {
      StepShape(env, w.board, m.op);
    }
  }

  lemma HangsOn(env: Env, w: World, m: Turn, who: nat)
    requires HalfLinked(w) && MintsIn(w, m) && Busy(Next(env, w, m), who) && Minting(Next(env, w, m), who).Some?
    ensures var t := Next(env, w, m); Hangs(t.board.requests, Minting(t, who).value, RequestOf(t, who))
  {
    var t, ch := Next(env, w, m), RaceChange(env, w, m);
    HalfLinkedIsBacked(w);
    MintingMoves(env, w, m, who);
    RaceShape(env, w, m);
    RaceAllowed(env, w, m);
    if Busy(w, who) && Minting(w, who) == Minting(t, who) && RequestOf(w, who) == RequestOf(t, who) {
      if ch.Closed? {
        CommitWrites(env, w, m);
        NotTheOthers(env, w, m, who);
      }
      ChangeHangs(w.board.requests, ch, Minting(w, who).value, RequestOf(w, who));
    } else {
      MintedHangs(w.board.requests, ch);
    }
  }

  /** A commit writes its own responder's successor, which nobody else holds. */
  lemma NotTheOthers(env: Env, w: World, m: Turn, who: nat)
    requires HalfLinked(w) && MintsIn(w, m) && RaceChange(env, w, m).Closed?
    requires Busy(w, who) && Minting(w, who).Some? && Busy(Next(env, w, m), who)
    ensures RaceChange(env, w, m).row.successor != Minting(w, who)
  {
    CommitWrites(env, w, m);
    var ch := RaceChange(env, w, m);
    assert Hangs(w.board.requests, Minting(w, who).value, RequestOf(w, who));
    if m.Finish? && who != m.who { assert Busy(w, m.who); }
  }

  /** Under every interleaving successor links keep their parent links. */
  lemma TurnHalfLinked(env: Env, w: World, m: Turn)
    requires HalfLinked(w) && MintsIn(w, m)
    ensures HalfLinked(Next(env, w, m))
  {
    var t := Next(env, w, m);
    TurnKeepsApart(env, w, m);
    HalfLinkedIsBacked(w);
    RaceShape(env, w, m);
    RaceAllowed(env, w, m);
    if RaceChange(env, w, m).Closed? { CommitWrites(env, w, m); }
    ChangeBacks(w.board.requests, RaceChange(env, w, m));
    forall who | Busy(t, who) && Minting(t, who).Some?
      ensures Hangs(t.board.requests, Minting(t, who).value, RequestOf(t, who))
    {
      HangsOn(env, w, m, who);
    }
    forall a, b | Busy(t, a) && Busy(t, b) && a != b && Minting(t, a).Some? ensures Minting(t, a) != Minting(t, b) {
      StayApart(env, w, m, a, b);
    }
  }

  lemma StayApart(env: Env, w: World, m: Turn, a: nat, b: nat)
    requires HalfLinked(w) && MintsIn(w, m)
    requires Busy(Next(env, w, m), a) && Busy(Next(env, w, m), b) && a != b && Minting(Next(env, w, m), a).Some?
    ensures Minting(Next(env, w, m), a) != Minting(Next(env, w, m), b)
  {
    var t := Next(env, w, m);
    MintingMoves(env, w, m, a);
    if Minting(t, b).Some? { MintingMoves(env, w, m, b); }
  }

  lemma {:induction false} RaceHalfLinked(env: Env, w: World, ms: seq<Turn>)
    requires HalfLinked(w) && RaceMints(env, w, ms)
    ensures HalfLinked(Race(env, w, ms))
  {
    if ms != [] {
      FrontMints(env, w, ms);
      RaceHalfLinked(env, w, ms[..|ms| - 1]);
      TurnHalfLinked(env, Race(env, w, ms[..|ms| - 1]), ms[|ms| - 1]);
    }
  }

  // ── When a parent link stays unmatched ─────────────────────────────────

  ghost predicate Matched(rs: Requests, s: string) {
    s in rs && rs[s].parent.Some? && rs[s].parent.value in rs && rs[rs[s].parent.value].successor == Some(s)
  }

  ghost predicate InHand(w: World, s: string) { exists who :: Busy(w, who) && Minting(w, who) == Some(s) }

  /** The turn that leaves a successor without its link: its responder cannot close the parent candidate, or its commit
      meets a row that somebody else has taken. */
  predicate Orphans(w: World, m: Turn, s: string) {
    match m
    case Go(who) => who in w.parts && who !in w.acted && Minting(w, who) == Some(s) && LetsGo(w, who)
    case Finish(who) => who in w.acted && w.acted[who].1 == Some(s) && !Commits(w.board, w.acted[who].0.request)
    case _ => false
  }

  lemma HeldHangs(w: World, who: nat, s: string)
    requires HalfLinked(w) && Busy(w, who) && Minting(w, who) == Some(s)
    ensures Hangs(w.board.requests, s, RequestOf(w, who))
  {}

  lemma MatchedStays(env: Env, w: World, m: Turn, s: string)
    requires HalfLinked(w) && MintsIn(w, m) && Matched(w.board.requests, s)
    ensures Matched(Next(env, w, m).board.requests, s) && !Orphans(w, m, s)
  {
    var r := w.board.requests[s].parent.value;
    TurnGuards(env, w, m);
    assert w.board.requests[r].status != Pending;
    if Orphans(w, m, s) { HeldHangs(w, m.who, s); }
  }

  lemma OrphanIsHeld(w: World, m: Turn, s: string)
    requires Orphans(w, m, s)
    ensures !m.Check? && !m.Other? && Busy(w, m.who) && Minting(w, m.who) == Some(s)
  {}

  /** A successor in hand stays in hand, is linked, or is orphaned: exactly one of the three. */
  lemma HeldMoves(env: Env, w: World, m: Turn, s: string, who: nat)
    requires HalfLinked(w) && MintsIn(w, m) && Busy(w, who) && Minting(w, who) == Some(s)
    ensures var t := Next(env, w, m);
            Matched(t.board.requests, s) || InHand(t, s) <==> !Orphans(w, m, s)
  {
    var t := Next(env, w, m);
    assert Hangs(w.board.requests, s, RequestOf(w, who));
    TurnHalfLinked(env, w, m);
    if m.Other? || m.who != who {
      TurnTouchesOwn(env, w, m, who);
      assert Busy(t, who) && Minting(t, who) == Some(s);
      if Orphans(w, m, s) { OrphanIsHeld(w, m, s); }
    } else {
      OwnerMoves(env, w, m, s, who);
    }
  }

  lemma OwnerMoves(env: Env, w: World, m: Turn, s: string, who: nat)
    requires HalfLinked(w) && MintsIn(w, m) && Busy(w, who) && Minting(w, who) == Some(s) && !m.Other? && m.who == who
    ensures var t := Next(env, w, m);
            Matched(t.board.requests, s) || InHand(t, s) <==> !Orphans(w, m, s)
  {
    var t := Next(env, w, m);
    assert Hangs(w.board.requests, s, RequestOf(w, who));
    match m
    case Check(_, _) => assert Busy(t, who) && Minting(t, who) == Some(s);
    case Go(_) =>
      if who in w.parts {
        OwnMinting(env, w, who);
        if Busy(t, who) {
          assert Minting(t, who) == Some(s);
        } else {
          NobodyElse(env, w, m, s, who);
          RaceShape(env, w, m);
        }
      } else {
        assert Busy(t, who) && Minting(t, who) == Some(s);
      }
    case Finish(_) =>
      if who in w.acted {
        NobodyElse(env, w, m, s, who);
      } else {
        assert Busy(t, who) && Minting(t, who) == Some(s);
      }
    case Other(_) =>
  }

  /** When its holder lets go of a successor, nobody else has it. */
  lemma NobodyElse(env: Env, w: World, m: Turn, s: string, who: nat)
    requires HalfLinked(w) && MintsIn(w, m) && Busy(w, who) && Minting(w, who) == Some(s)
    requires !m.Other? && m.who == who && !Busy(Next(env, w, m), who)
    ensures !InHand(Next(env, w, m), s)
  {
    var t := Next(env, w, m);
    forall other | Busy(t, other) ensures Minting(t, other) != Some(s) {
      if other != who {
        TurnTouchesOwn(env, w, m, other);
        assert Busy(w, other) && Minting(t, other) == Minting(w, other);
      }
    }
  }

  /** The link of a request to its parent is matched, or its responder is still at work: exactly as long as no turn has
      orphaned it. */
  ghost predicate Kept(w: World, s: string) { Matched(w.board.requests, s) || InHand(w, s) }

  lemma TurnOrphansIff(env: Env, w: World, m: Turn, s: string)
    requires HalfLinked(w) && MintsIn(w, m) && Kept(w, s)
    ensures Kept(Next(env, w, m), s) <==> !Orphans(w, m, s)
  {
    if Matched(w.board.requests, s) {
      MatchedStays(env, w, m, s);
    } else {
      var who :| Busy(w, who) && Minting(w, who) == Some(s);
      HeldMoves(env, w, m, s, who);
    }
  }

  /** An orphan is never adopted. */
  lemma OrphanStays(env: Env, w: World, m: Turn, s: string)
    requires HalfLinked(w) && MintsIn(w, m) && s in w.board.requests && !Kept(w, s)
    ensures !Kept(Next(env, w, m), s)
  {
    var t := Next(env, w, m);
    TurnHalfLinked(env, w, m);
    forall who | Busy(t, who) ensures Minting(t, who) != Some(s) {
      if Minting(t, who).Some? { MintingMoves(env, w, m, who); }
    }
    StaysUnmatched(env, w, m, s);
  }

  lemma StaysUnmatched(env: Env, w: World, m: Turn, s: string)
    requires HalfLinked(w) && MintsIn(w, m) && s in w.board.requests && !Kept(w, s)
    ensures !Matched(Next(env, w, m).board.requests, s)
  {
    var ch := RaceChange(env, w, m);
    RaceShape(env, w, m);
    RaceAllowed(env, w, m);
    if ch.Closed? {
      CommitWrites(env, w, m);
      if m.Finish? && m.who in w.acted { assert Busy(w, m.who) && Minting(w, m.who) != Some(s); }
    }
    UnmatchedByChange(w.board.requests, ch, s);
  }

  lemma UnmatchedByChange(rs: Requests, ch: Change, s: string)
    requires s in rs && !Matched(rs, s) && (Allowed(rs, ch) || Closes(rs, ch))
    requires ch.Closed? ==> ch.row.successor == rs[ch.id].successor || ch.row.successor != Some(s)
    ensures !Matched(Apply(rs, ch), s)
  {}

  /** A request that appears with a parent is linked, or in the hands of the responder that minted it. */
  lemma NewIsKept(env: Env, w: World, m: Turn, s: string)
    requires HalfLinked(w) && MintsIn(w, m) && s !in w.board.requests
    ensures var t := Next(env, w, m);
            s in t.board.requests && t.board.requests[s].parent.Some? ==> Kept(t, s)
  {
    var t := Next(env, w, m);
    if s in t.board.requests && t.board.requests[s].parent.Some? {
      RaceShape(env, w, m);
      RaceAllowed(env, w, m);
      if m.Go? {
        assert Asks(w, m.who);
        OwnMinting(env, w, m.who);
        assert Busy(t, m.who) && Minting(t, m.who) == Some(s);
      } else if m.Other? {
        StepShape(env, w.board, m.op);
      }
    }
  }

  ghost predicate OrphansAt(env: Env, w: World, ms: seq<Turn>, i: nat, s: string) {
    i < |ms| && Orphans(Race(env, w, ms[..i]), ms[i], s)
  }

  ghost predicate NeverOrphaned(env: Env, w: World, ms: seq<Turn>, s: string) {
    forall i: nat | i < |ms| :: !OrphansAt(env, w, ms, i, s)
  }

  lemma OrphanedFront(env: Env, w: World, ms: seq<Turn>, s: string)
    requires ms != []
    ensures var n := |ms| - 1;
            NeverOrphaned(env, w, ms, s) <==> NeverOrphaned(env, w, ms[..n], s) && !OrphansAt(env, w, ms, n, s)
  {
    var n := |ms| - 1;
    forall i | 0 <= i < n ensures OrphansAt(env, w, ms[..n], i, s) <==> OrphansAt(env, w, ms, i, s) {
      assert ms[..n][..i] == ms[..i];
    }
  }

  /** Nobody holds a successor whose row is not there. */
  lemma OrphansAreStored(w: World, m: Turn, s: string)
    requires HalfLinked(w) && Orphans(w, m, s)
    ensures s in w.board.requests
  {
    assert Busy(w, m.who) && Minting(w, m.who) == Some(s);
  }

  /** Over every race from a board whose links are all mutual: a request with a parent is named by that parent, or
      its responder is still at work, exactly when no turn failed to close its parent candidate and no commit for it
      was refused. */
  lemma {:induction false} ParentLinkIff(env: Env, w: World, ms: seq<Turn>, s: string)
    requires w.parts == map[] && w.acted == map[] && Linked(w.board.requests) && RaceMints(env, w, ms)
    requires s in Race(env, w, ms).board.requests && Race(env, w, ms).board.requests[s].parent.Some?
    ensures Kept(Race(env, w, ms), s) <==> NeverOrphaned(env, w, ms, s)
  {
    if ms != [] {
      var n := |ms| - 1;
      var mid := Race(env, w, ms[..n]);
      FrontMints(env, w, ms);
      RaceHalfLinked(env, w, ms[..n]);
      OrphanedFront(env, w, ms, s);
      if s in mid.board.requests {
        TurnGuards(env, mid, ms[n]);
        ParentLinkIff(env, w, ms[..n], s);
        if Kept(mid, s) { TurnOrphansIff(env, mid, ms[n], s); } else { OrphanStays(env, mid, ms[n], s); }
      } else {
        NewIsKept(env, mid, ms[n], s);
        NotYetOrphaned(env, w, ms, s);
      }
    }
  }

  /** What is not stored yet has not been orphaned. */
  lemma NotYetOrphaned(env: Env, w: World, ms: seq<Turn>, s: string)
    requires w.parts == map[] && w.acted == map[] && Linked(w.board.requests) && RaceMints(env, w, ms) && ms != []
    requires s !in Race(env, w, ms[..|ms| - 1]).board.requests
    ensures NeverOrphaned(env, w, ms, s)
  {
    forall i: nat | i < |ms| ensures !OrphansAt(env, w, ms, i, s) {
      PrefixMints(env, w, ms, i);
      RaceHalfLinked(env, w, ms[..i]);
      if OrphansAt(env, w, ms, i, s) {
        OrphansAreStored(Race(env, w, ms[..i]), ms[i], s);
        RowsStay(env, w, ms, i, |ms| - 1, s);
      }
    }
  }

  lemma PrefixMints(env: Env, w: World, ms: seq<Turn>, i: nat)
    requires RaceMints(env, w, ms) && i <= |ms|
    ensures RaceMints(env, w, ms[..i])
  {
    assert forall k | 0 <= k < i :: ms[..i][..k] == ms[..k];
  }

  lemma {:induction false} RowsStay(env: Env, w: World, ms: seq<Turn>, i: nat, j: nat, s: string)
    requires RaceMints(env, w, ms) && i <= j <= |ms| && s in Race(env, w, ms[..i]).board.requests
    ensures s in Race(env, w, ms[..j]).board.requests
    decreases j
  {
    if i < j {
      RowsStay(env, w, ms, i, j - 1, s);
      assert ms[..j][..j - 1] == ms[..j - 1];
      TurnGuards(env, Race(env, w, ms[..j - 1]), ms[j - 1]);
    }
  }
}
