/** What the approval protocol guarantees: nothing stale is published, chains stay chains, and when a
    candidate can end up with two live requests. */
module ApprovalSafety {
  import opened Common
  import opened Records
  import opened Approvals

  // ── Terms never change ─────────────────────────────────────────────────

  /** What a request was made for. */
  predicate SameTerms(r: Request, q: Request) {
    q.(status := r.status, response := r.response, modification := r.modification, successor := r.successor,
        respondedAt := r.respondedAt) == r
  }

  /** The candidate is what the request was made for. */
  predicate Matches(env: Env, r: Request, p: Proposal) { env.hash(p.content) == r.hash && p.basedOn == r.basedOn }

  // ── What a step does to the requests ───────────────────────────────────

  datatype Change =
    | Same
    | SweptAt(now: nat)
    | Minted(id: string, row: Request)
    | Closed(id: string, row: Request)
    | Forked(id: string, row: Request, newId: string, newRow: Request)

  function Apply(rs: Requests, ch: Change): Requests {
    match ch
    case Same => rs
    case SweptAt(now) => Swept(rs, now)
    case Minted(id, row) => rs[id := row]
    case Closed(id, row) => rs[id := row]
    case Forked(id, row, newId, newRow) => rs[newId := newRow][id := row]
  }

  /** Only new rows are added, pending; only pending rows are closed; terms stay; links join a closed row to the new
      one. */
  predicate Allowed(rs: Requests, ch: Change) {
    match ch
    case Same => true
    case SweptAt(_) => true
    case Minted(id, row) => id !in rs && row.status == Pending && row.successor.None?
    case Closed(id, row) =>
      id in rs && rs[id].status == Pending && row.status != Pending && SameTerms(rs[id], row)
          && row.successor == rs[id].successor
    case Forked(id, row, newId, newRow) =>
      && id in rs && rs[id].status == Pending && row.status != Pending && SameTerms(rs[id], row)
          && row.successor == Some(newId)
      && newId !in rs && newRow.status == Pending && newRow.successor.None? && newRow.parent == Some(id)
  }

  /** Acting on a request touches the requests only to add a fork's. */
  lemma ActShape(env: Env, b: Board, t: Ticket)
    ensures Act(env, b, t).board.requests ==
            if Forks(env, b, t) then b.requests[t.call.newId := ForkRequest(env, b, t)] else b.requests
    ensures Act(env, b, t).successor == if Forks(env, b, t) then Some(t.call.newId) else None
  {
  }

  /** A response that gets through closes its request and, when it forks, adds the successor. */
  function RespondChange(env: Env, b: Board, call: Call): Change {
    if call.request in b.requests && TooLate(b.requests[call.request], call.now) then SweptAt(call.now)
    else if !Succeeds(env, b, call) then Same
    else
      var t, r := TicketFor(env, b, call), b.requests[call.request];
      if Forks(env, b, t) then Forked(call.request, Answered(env, r, call, Some(call.newId)), call.newId,
          ForkRequest(env, b, t))
      else Closed(call.request, Answered(env, r, call, None))
  }

  lemma RespondShape(env: Env, b: Board, call: Call)
    requires call.newId !in b.requests
    ensures Respond(env, b, call).requests == Apply(b.requests, RespondChange(env, b, call))
  {
    if Admits(env, b, call) { ActShape(env, b, TicketFor(env, b, call)); }
  }

  lemma RespondAllowed(env: Env, b: Board, call: Call)
    requires call.newId !in b.requests
    ensures Allowed(b.requests, RespondChange(env, b, call))
  {
  }

  ghost function ChangeBy(env: Env, b: Board, op: Op): Change {
    match op
    case Asking(id, ws, task, action, newId, now) =>
      if !Askable(env, b, id, ws, task) || Taken(b.requests, id, Action(env, action), env.canon(ws), now) then Same
      else
        var row := NewRequest(env, id, b.candidates[id], env.canon(ws), Clean(env, task), Action(env, action), None,
                              now);
        Minted(newId, row)
    case Answering(call) => RespondChange(env, b, call)
    case Sweeping(now) => SweptAt(now)
    case _ => Same
  }

  lemma StepShape(env: Env, b: Board, op: Op)
    requires Mints(b, op)
    ensures Step(env, b, op).requests == Apply(b.requests, ChangeBy(env, b, op))
        && Allowed(b.requests, ChangeBy(env, b, op))
    ensures ChangeBy(env, b, op).Minted? ==> ChangeBy(env, b, op).row.parent.None?
  {
    match op
    case Answering(call) => RespondShape(env, b, call); RespondAllowed(env, b, call);
    case _ =>
  }

  /** An allowed change alters no terms, and no row that has been answered. */
  lemma ChangeKeepsTerms(rs: Requests, ch: Change, id: string)
    requires Allowed(rs, ch) && id in rs
    ensures id in Apply(rs, ch) && SameTerms(rs[id], Apply(rs, ch)[id])
    ensures rs[id].status != Pending ==> Apply(rs, ch)[id] == rs[id]
  {
  }

  /** No step changes what a request was made for, and none touches a request that has been answered. */
  lemma TermsStand(env: Env, b: Board, op: Op, id: string)
    requires Mints(b, op) && id in b.requests
    ensures id in Step(env, b, op).requests
    ensures SameTerms(b.requests[id], Step(env, b, op).requests[id])
    ensures b.requests[id].status != Pending ==> Step(env, b, op).requests[id] == b.requests[id]
  {
    StepShape(env, b, op);
    ChangeKeepsTerms(b.requests, ChangeBy(env, b, op), id);
  }

  lemma ForkIsStored(env: Env, b: Board, call: Call)
    requires call.newId !in b.requests && RespondChange(env, b, call).Forked?
    ensures var t, row := Respond(env, b, call), RespondChange(env, b, call).newRow;
            row.candidate in t.candidates && Matches(env, row, t.candidates[row.candidate])
  {
  }

  /** A request is minted pending, for what its candidate is at that moment. */
  lemma MintedForCandidate(env: Env, b: Board, op: Op, id: string)
    requires Mints(b, op) && id !in b.requests && id in Step(env, b, op).requests
    ensures var t := Step(env, b, op);
            t.requests[id].status == Pending && t.requests[id].candidate in t.candidates
            && Matches(env, t.requests[id], t.candidates[t.requests[id].candidate])
  {
    StepShape(env, b, op);
    if op.Answering? { ForkIsStored(env, b, op.call); }
  }

  ghost predicate MintedAt(env: Env, b: Board, ops: seq<Op>, i: nat, id: string) {
    i < |ops| && id !in Run(env, b, ops[..i]).requests && id in Run(env, b, ops[..i + 1]).requests
  }

  lemma RunStep(env: Env, b: Board, ops: seq<Op>, i: nat)
    requires i < |ops|
    ensures Run(env, b, ops[..i + 1]) == Step(env, Run(env, b, ops[..i]), ops[i])
  {
    assert ops[..i + 1][..i] == ops[..i];
  }

  /** Step `i` minted the request, with these terms, for the candidate as it then was. */
  ghost predicate Origin(env: Env, b: Board, ops: seq<Op>, i: nat, id: string, r: Request) {
    && MintedAt(env, b, ops, i, id)
    && var then_ := Run(env, b, ops[..i + 1]);
    && SameTerms(then_.requests[id], r) && r.candidate in then_.candidates
        && Matches(env, r, then_.candidates[r.candidate])
  }

  lemma OriginCarries(env: Env, b: Board, ops: seq<Op>, i: nat, id: string, r: Request, q: Request)
    requires Origin(env, b, ops, i, id, r) && SameTerms(r, q)
    ensures Origin(env, b, ops, i, id, q)
  {}

  lemma MintingIsOrigin(env: Env, b: Board, ops: seq<Op>, i: nat, id: string)
    requires i < |ops| && RunMints(env, b, ops) && MintedAt(env, b, ops, i, id)
    ensures Origin(env, b, ops, i, id, Run(env, b, ops[..i + 1]).requests[id])
  {
    RunStep(env, b, ops, i);
    MintedForCandidate(env, Run(env, b, ops[..i]), ops[i], id);
  }

  lemma RequestStands(env: Env, b: Board, ops: seq<Op>, i: nat, id: string)
    requires i < |ops| && RunMints(env, b, ops) && id in Run(env, b, ops[..i]).requests
    ensures id in Run(env, b, ops[..i + 1]).requests
    ensures SameTerms(Run(env, b, ops[..i]).requests[id], Run(env, b, ops[..i + 1]).requests[id])
  {
    RunStep(env, b, ops, i);
    TermsStand(env, Run(env, b, ops[..i]), ops[i], id);
  }

  lemma {:induction false} EveryRequestHasAnOrigin(
      env: Env, b: Board, ops: seq<Op>, n: nat, id: string) returns (i: nat)
    requires n <= |ops| && RunMints(env, b, ops) && id !in b.requests && id in Run(env, b, ops[..n]).requests
    ensures i < n && Origin(env, b, ops, i, id, Run(env, b, ops[..n]).requests[id])
  {
    if n == 0 {
      assert false;
    } else if id in Run(env, b, ops[..n - 1]).requests {
      i := EveryRequestHasAnOrigin(env, b, ops, n - 1, id);
      RequestStands(env, b, ops, n - 1, id);
      OriginCarries(env, b, ops, i, id, Run(env, b, ops[..n - 1]).requests[id], Run(env, b, ops[..n]).requests[id]);
    } else {
      i := n - 1;
      MintingIsOrigin(env, b, ops, i, id);
    }
  }

  // ── Nothing stale is published ─────────────────────────────────────────

  ghost predicate Injective(f: string -> string) { forall x, y | f(x) == f(y) :: x == y }

  /** Exactly the successful approvals publish; everything else, a modification included, publishes nothing. */
  lemma OnlyApprovalsPublish(env: Env, b: Board, op: Op)
    ensures Step(env, b, op).published != b.published <==>
        op.Answering? && op.call.response == Approve && Succeeds(env, b, op.call)
  {
    if op.Answering? && Admits(env, b, op.call) { ActPublishes(env, b, TicketFor(env, b, op.call)); }
  }

  lemma ActPublishes(env: Env, b: Board, t: Ticket)
    ensures Act(env, b, t).board.published != b.published <==> t.call.response == Approve && Act(env, b, t).ok
  {
  }

  /** The publication is what its request asked for, within its time, from its own workspace and task. */
  ghost predicate AsAsked(env: Env, b: Board, p: Publication) {
    && p.request in b.requests
    && var r := b.requests[p.request];
    && r.status == Granted && r.candidate == p.candidate && r.respondedAt == Some(p.at)
    && env.hash(p.content) == r.hash && p.basedOn == r.basedOn
    && p.workspace == r.workspace && (r.task.Some? ==> p.task == r.task)
        && (r.expiresAt.Some? ==> p.at < r.expiresAt.value)
  }

  /** Every publication is as asked, and no request was published twice. */
  ghost predicate Faithful(env: Env, b: Board) {
    && (forall k | 0 <= k < |b.published| :: AsAsked(env, b, b.published[k]))
    && forall j, k | 0 <= j < k < |b.published| :: b.published[j].request != b.published[k].request
  }

  lemma StepFaithful(env: Env, b: Board, op: Op)
    requires Mints(b, op) && Faithful(env, b)
    ensures Faithful(env, Step(env, b, op))
  {
    var t := Step(env, b, op);
    OnlyApprovalsPublish(env, b, op);
    forall k | 0 <= k < |b.published| ensures AsAsked(env, t, b.published[k])
        && (t.published != b.published ==> b.published[k].request != op.call.request) {
      assert AsAsked(env, b, b.published[k]);
      TermsStand(env, b, op, b.published[k].request);
    }
  }

  lemma {:induction false} RunFaithful(env: Env, b: Board, ops: seq<Op>)
    requires RunMints(env, b, ops) && Faithful(env, b)
    ensures Faithful(env, Run(env, b, ops))
  {
    if ops != [] {
      var n := |ops| - 1;
      assert forall i | 0 <= i < n :: ops[..n][..i] == ops[..i];
      RunFaithful(env, b, ops[..n]);
      StepFaithful(env, Run(env, b, ops[..n]), ops[n]);
    }
  }

  /** Whatever happens to candidates and skills in between: each publication of a run carries exactly the content
      and the version anchor its candidate had when the request was minted, and comes from the request's own
      workspace and task, strictly before its expiry. */
  lemma NothingStaleIsPublished(env: Env, b: Board, ops: seq<Op>, p: Publication) returns (i: nat)
    requires Injective(env.hash) && b.requests == map[] && b.published == [] && RunMints(env, b, ops)
    requires p in Run(env, b, ops).published
    ensures MintedAt(env, b, ops, i, p.request)
    ensures var then_ := Run(env, b, ops[..i + 1]); var r := then_.requests[p.request];
            && p.candidate == r.candidate && p.candidate in then_.candidates
            && p.content == then_.candidates[p.candidate].content && p.basedOn == then_.candidates[p.candidate].basedOn
            && p.workspace == r.workspace && (r.task.Some? ==> p.task == r.task)
                && (r.expiresAt.Some? ==> p.at < r.expiresAt.value)
  {
    RunFaithful(env, b, ops);
    var k :| 0 <= k < |Run(env, b, ops).published| && Run(env, b, ops).published[k] == p;
    assert AsAsked(env, Run(env, b, ops), p);
    assert ops[..|ops|] == ops;
    i := EveryRequestHasAnOrigin(env, b, ops, |ops|, p.request);
  }

  // ── What a modification brings about ───────────────────────────────────

  /** The successor is pending, for a validated fork, and its parent candidate is superseded. */
  predicate HandsOver(t: Board, parent: string, call: Call) {
    && call.request in t.requests && t.requests[call.request].successor == Some(call.newId) && call.newId in t.requests
    && var q := t.requests[call.newId];
    && q.status == Pending && q.parent == Some(call.request) && q.candidate != parent
    && q.candidate in t.candidates && t.candidates[q.candidate].stage == Stage.Validated
    && parent in t.candidates && t.candidates[parent].stage == Stage.Superseded
  }

  /** A modification closes its request and publishes nothing. It leaves either a validated fork with a pending request
      of its own and a superseded parent, or a fork that cannot be asked for and a parent that still can. */
  lemma ModificationForks(env: Env, b: Board, call: Call)
    requires Succeeds(env, b, call) && call.response == Modify && call.newId !in b.requests
    ensures var t, parent := Respond(env, b, call), b.requests[call.request].candidate;
            && Outcomes(t, call.request, Replaced) && t.skills == b.skills && t.published == b.published
            && (call.newId in t.requests ==> HandsOver(t, parent, call))
            && (call.newId !in t.requests ==>
                  && parent in t.candidates && t.candidates[parent] == b.candidates[parent]
                  && t.requests.Keys == b.requests.Keys)
  {
    RespondShape(env, b, call);
  }

  predicate Outcomes(t: Board, id: string, status: Status) { id in t.requests && t.requests[id].status == status }

  // ── Sweeps and lifecycles ──────────────────────────────────────────────

  /** Sweeping twice is sweeping once at the later time; a live request is never touched, and none overdue is left. */
  lemma SweepsCompose(rs: Requests, a: nat, b: nat)
    ensures Swept(Swept(rs, a), b) == Swept(rs, if a < b then b else a)
    ensures forall id | id in rs && IsLive(rs[id], a) :: Swept(rs, a)[id] == rs[id]
    ensures forall id | id in rs :: !Overdue(Swept(rs, a)[id], a)
  {}

  /** A stage that was released or retired. */
  predicate IsOver(s: Stage) { s in {Live, Deprecated, Stage.Superseded, Stage.Rejected, Stage.Expired} }

  /** Along every path of allowed moves a candidate that is over never becomes approvable again. */
  lemma {:induction false} LifecycleIsOneWay(path: seq<Stage>)
    requires path != [] && IsOver(path[0]) && forall i | 0 < i < |path| :: CanMove(path[i - 1], path[i])
    ensures forall i | 0 <= i < |path| :: IsOver(path[i])
  {
    if |path| > 1 {
      var n := |path| - 1;
      LifecycleIsOneWay(path[..n]);
      assert CanMove(path[n - 1], path[n]) && IsOver(path[..n][n - 1]);
    }
  }

  // ── Chains ─────────────────────────────────────────────────────────────

  /** Successor and parent are each other's inverse, and a request with a successor is answered. */
  ghost predicate Linked(rs: Requests) {
    && (forall r | r in rs && rs[r].successor.Some? ::
          rs[r].status != Pending && rs[r].successor.value in rs && rs[rs[r].successor.value].parent == Some(r))
    && (forall s | s in rs && rs[s].parent.Some? ::
          rs[s].parent.value in rs && rs[rs[s].parent.value].successor == Some(s))
  }

  ghost predicate Ranked(rs: Requests, rank: map<string, nat>) {
    && rank.Keys == rs.Keys
    && forall r | r in rs && rs[r].successor.Some? ::
        rs[r].successor.value in rank && rank[r] < rank[rs[r].successor.value]
  }

  ghost predicate Chained(rs: Requests) { Linked(rs) && exists rank :: Ranked(rs, rank) }

  /** The request reached after `n` modifications. */
  function Follow(rs: Requests, id: string, n: nat): Option<string> {
    if n == 0 then Some(id)
    else
      var prev := Follow(rs, id, n - 1);
      if prev.Some? && prev.value in rs then rs[prev.value].successor else None
  }

  lemma {:induction false} FollowClimbs(rs: Requests, rank: map<string, nat>, id: string, n: nat)
    requires Ranked(rs, rank) && n > 0 && Follow(rs, id, n).Some?
    ensures id in rank && Follow(rs, id, n).value in rank && rank[id] < rank[Follow(rs, id, n).value]
  {
    if n > 1 {
      FollowClimbs(rs, rank, id, n - 1);
    } else {
      assert Follow(rs, id, 0) == Some(id);
    }
  }

  /** No chain of modifications comes back to where it began. */
  lemma ChainsNeverLoop(rs: Requests, id: string, n: nat)
    requires Chained(rs) && n > 0
    ensures Follow(rs, id, n) != Some(id)
  {
    var rank :| Ranked(rs, rank);
    if Follow(rs, id, n).Some? { FollowClimbs(rs, rank, id, n); }
  }

  lemma ChangeKeepsRanks(rs: Requests, ch: Change)
    requires Allowed(rs, ch) && Linked(rs) && exists rank :: Ranked(rs, rank)
    ensures exists rank :: Ranked(Apply(rs, ch), rank)
  {
    var rank: map<string, nat> :| Ranked(rs, rank);
    match ch
    case Minted(id, row) => assert Ranked(Apply(rs, ch), rank[id := 0]);
    case Forked(id, row, newId, newRow) => assert Ranked(Apply(rs, ch), rank[newId := rank[id] + 1]);
    case _ => assert Ranked(Apply(rs, ch), rank);
  }

  lemma ChangeKeepsLinks(rs: Requests, ch: Change)
    requires Allowed(rs, ch) && Linked(rs) && (ch.Minted? ==> ch.row.parent.None?)
    ensures Linked(Apply(rs, ch))
  {
    match ch
    case Forked(id, row, newId, newRow) => ForkKeepsLinks(rs, ch);
    case Minted(id, row) => MintKeepsLinks(rs, ch);
    case _ =>
  }

  lemma MintKeepsLinks(rs: Requests, ch: Change)
    requires Allowed(rs, ch) && Linked(rs) && ch.Minted? && ch.row.parent.None?
    ensures Linked(Apply(rs, ch))
  {}

  lemma ForkKeepsLinks(rs: Requests, ch: Change)
    requires Allowed(rs, ch) && Linked(rs) && ch.Forked?
    ensures Linked(Apply(rs, ch))
  {}

  lemma StepChained(env: Env, b: Board, op: Op)
    requires Mints(b, op) && Chained(b.requests)
    ensures Chained(Step(env, b, op).requests)
  {
    StepShape(env, b, op);
    ChangeKeepsLinks(b.requests, ChangeBy(env, b, op));
    ChangeKeepsRanks(b.requests, ChangeBy(env, b, op));
  }

  /** Over every run of the protocol successor and parent links stay inverse and acyclic, and a request with a
      successor is answered. */
  lemma {:induction false} RunChained(env: Env, b: Board, ops: seq<Op>)
    requires RunMints(env, b, ops) && Chained(b.requests)
    ensures Chained(Run(env, b, ops).requests)
  {
    if ops != [] {
      var n := |ops| - 1;
      assert forall i | 0 <= i < n :: ops[..n][..i] == ops[..i];
      RunChained(env, b, ops[..n]);
      StepChained(env, Run(env, b, ops[..n]), ops[n]);
    }
  }

  // ── One live request ───────────────────────────────────────────────────

  /** At most one live request per candidate, action and workspace. */
  ghost predicate Unique(rs: Requests, now: nat) {
    forall c, a, w, r, q | LiveAt(rs, c, a, w, now, r) && LiveAt(rs, c, a, w, now, q) :: r == q
  }

  /** A modification lands on a stored candidate that already has a live request. */
  ghost predicate Doubles(env: Env, b: Board, op: Op) {
    && op.Answering? && Admits(env, b, op.call)
    && var t := TicketFor(env, b, op.call);
    && Forks(env, b, t)
    && Taken(b.requests, ForkId(env, t, Clean(env, t.call.modification).value), t.request.action, t.request.workspace,
        op.call.now)
  }

  /** The clock after a step: steps of the protocol carry their time, edits by others do not move it. */
  function Clock(op: Op, before: nat): nat {
    match op
    case Asking(_, _, _, _, _, now) => now
    case Answering(call) => call.now
    case Sweeping(now) => now
    case _ => before
  }

  lemma LaterIsFewer(rs: Requests, now: nat, later: nat)
    requires Unique(rs, now) && now <= later
    ensures Unique(rs, later)
  {
    forall c, a, w, r, q | LiveAt(rs, c, a, w, later, r) && LiveAt(rs, c, a, w, later, q) ensures r == q {
      assert LiveAt(rs, c, a, w, now, r) && LiveAt(rs, c, a, w, now, q);
    }
  }

  predicate Adds(ch: Change) { ch.Minted? || ch.Forked? }

  function Added(ch: Change): (string, Request)
    requires Adds(ch)
  {
    if ch.Minted? then (ch.id, ch.row) else (ch.newId, ch.newRow)
  }

  /** Closing and sweeping rows leaves requests unique. */
  lemma ClosingKeepsUnique(rs: Requests, ch: Change, now: nat)
    requires Allowed(rs, ch) && Unique(rs, now) && !Adds(ch)
    ensures Unique(Apply(rs, ch), now)
  {
    forall c, a, w, r, q | LiveAt(Apply(rs, ch), c, a, w, now, r) && LiveAt(Apply(rs, ch), c, a, w, now, q)
      ensures r == q
    {
      assert LiveAt(rs, c, a, w, now, r) && LiveAt(rs, c, a, w, now, q);
    }
  }

  /** Adding a live row keeps requests unique exactly when its place is free. */
  lemma AddingKeepsUniqueIff(rs: Requests, ch: Change, now: nat)
    requires Allowed(rs, ch) && Unique(rs, now) && Adds(ch) && IsLive(Added(ch).1, now)
    requires ch.Forked? ==> rs[ch.id].candidate != ch.newRow.candidate
    ensures var row := Added(ch).1; Unique(Apply(rs, ch), now) <==>
        !Taken(rs, row.candidate, row.action, row.workspace, now)
  {
    var after, id, row := Apply(rs, ch), Added(ch).0, Added(ch).1;
    if r :| LiveAt(rs, row.candidate, row.action, row.workspace, now, r) {
      assert LiveAt(after, row.candidate, row.action, row.workspace, now, r)
          && LiveAt(after, row.candidate, row.action, row.workspace, now, id);
    } else {
      forall c, a, w, r, q | LiveAt(after, c, a, w, now, r) && LiveAt(after, c, a, w, now, q) ensures r == q {
        if r != id { assert LiveAt(rs, c, a, w, now, r); }
        if q != id { assert LiveAt(rs, c, a, w, now, q); }
      }
    }
  }

  /** What a step adds: an asked-for request whose place is free, or a fork's. */
  lemma AdditionIsLive(env: Env, b: Board, op: Op, now: nat)
    requires Mints(b, op) && Clock(op, now) == now && Adds(ChangeBy(env, b, op))
    ensures var ch := ChangeBy(env, b, op); var row := Added(ch).1;
            && IsLive(row, now) && (ch.Forked? ==> ch.id in b.requests && b.requests[ch.id].candidate != row.candidate)
            && (Doubles(env, b, op) <==> Taken(b.requests, row.candidate, row.action, row.workspace, now))
  {
  }

  /** A step keeps requests unique exactly when it is not a modification that lands on a candidate with a live
      request. */
  lemma StepUniqueIff(env: Env, b: Board, op: Op, now: nat)
    requires Mints(b, op) && Unique(b.requests, now) && Clock(op, now) == now
    ensures Unique(Step(env, b, op).requests, now) <==> !Doubles(env, b, op)
  {
    var ch := ChangeBy(env, b, op);
    StepShape(env, b, op);
    if Adds(ch) {
      AdditionIsLive(env, b, op, now);
      AddingKeepsUniqueIff(b.requests, ch, now);
    } else {
      ClosingKeepsUnique(b.requests, ch, now);
      if Doubles(env, b, op) { DoublingAdds(env, b, op); }
    }
  }

  lemma DoublingAdds(env: Env, b: Board, op: Op)
    requires Doubles(env, b, op)
    ensures Adds(ChangeBy(env, b, op))
  {
  }

  function ClockAfter(ops: seq<Op>, start: nat): nat {
    if ops == [] then start else Clock(ops[|ops| - 1], ClockAfter(ops[..|ops| - 1], start))
  }

  ghost predicate TimeMovesOn(ops: seq<Op>, start: nat) {
    forall i | 0 <= i < |ops| :: ClockAfter(ops[..i], start) <= Clock(ops[i], ClockAfter(ops[..i], start))
  }

  ghost predicate UniqueThroughout(env: Env, b: Board, ops: seq<Op>, start: nat) {
    forall i | 0 <= i <= |ops| :: Unique(Run(env, b, ops[..i]).requests, ClockAfter(ops[..i], start))
  }

  ghost predicate DoublesAt(env: Env, b: Board, ops: seq<Op>, i: nat) {
    i < |ops| && Doubles(env, Run(env, b, ops[..i]), ops[i])
  }

  lemma PrefixUnique(env: Env, b: Board, ops: seq<Op>, start: nat, i: nat)
    requires i < |ops| && RunMints(env, b, ops) && TimeMovesOn(ops, start)
    requires Unique(Run(env, b, ops[..i]).requests, ClockAfter(ops[..i], start))
    ensures Unique(Run(env, b, ops[..i + 1]).requests, ClockAfter(ops[..i + 1], start)) <==> !DoublesAt(env, b, ops, i)
  {
    var before, now := Run(env, b, ops[..i]), ClockAfter(ops[..i], start);
    assert ops[..i + 1][..i] == ops[..i];
    LaterIsFewer(before.requests, now, Clock(ops[i], now));
    StepUniqueIff(env, before, ops[i], Clock(ops[i], now));
  }

  lemma {:induction false} UniqueUpTo(env: Env, b: Board, ops: seq<Op>, start: nat, n: nat)
    requires n <= |ops| && RunMints(env, b, ops) && TimeMovesOn(ops, start) && Unique(b.requests, start)
    requires forall i | 0 <= i < n :: !DoublesAt(env, b, ops, i)
    ensures Unique(Run(env, b, ops[..n]).requests, ClockAfter(ops[..n], start))
  {
    if n > 0 {
      UniqueUpTo(env, b, ops, start, n - 1);
      PrefixUnique(env, b, ops, start, n - 1);
    }
  }

  /** As time moves on, a run never shows two live requests for one candidate, action and workspace,
      exactly when no modification lands on a candidate that has one. */
  lemma RunUniqueIff(env: Env, b: Board, ops: seq<Op>, start: nat)
    requires RunMints(env, b, ops) && TimeMovesOn(ops, start) && Unique(b.requests, start)
    ensures UniqueThroughout(env, b, ops, start) <==> forall i: nat | i < |ops| :: !DoublesAt(env, b, ops, i)
  {
    if forall i: nat | i < |ops| :: !DoublesAt(env, b, ops, i) {
      forall n | 0 <= n <= |ops| ensures Unique(Run(env, b, ops[..n]).requests, ClockAfter(ops[..n], start)) {
        UniqueUpTo(env, b, ops, start, n);
      }
    } else {
      var i: nat :| i < |ops| && DoublesAt(env, b, ops, i);
      if UniqueThroughout(env, b, ops, start) {
        PrefixUnique(env, b, ops, start, i);
      }
    }
  }

  function PlainEnv(): Env {
    Env(s => s, s => s, s => s, (scope, w, t, n, h) => h, (c, n, w) => true)
  }

  function PlainProposal(content: string, stage: Stage): Proposal {
    Proposal(Global, None, None, "skill", content, stage, 60, None)
  }

  function LastCall(): Call { Call("r2", "w", None, Modify, Some("use b"), Some("b"), true, true, "r3", 0) }

  /** Two validated candidates. */
  function TwoCandidates(): Board {
    Board(map["a" := PlainProposal("a", Stage.Validated), "b" := PlainProposal("b", Stage.Validated)], map[], map[], [])
  }

  /** Both are asked about; the second is deferred; modifying the first into the second's content revives it. */
  function CollidingRun(): seq<Op> {
    [Asking("b", "w", None, "approve", "r1", 0), Asking("a", "w", None, "approve", "r2", 0),
     Rewriting("b", PlainProposal("b", Stage.Deferred)), Answering(LastCall())]
  }

  function PlainRequest(id: string): Request {
    Request(id, id, None, "w", None, "approve", Pending, None, None, None, None, 0, None, Some(REQUEST_TTL))
  }

  function BeforeLast(): Board {
    Board(map["a" := PlainProposal("a", Stage.Validated), "b" := PlainProposal("b", Stage.Deferred)],
          map["r1" := PlainRequest("b"), "r2" := PlainRequest("a")], map[], [])
  }

  lemma RunOnce(env: Env, b: Board, ops: seq<Op>, i: nat, before: Board, after: Board)
    requires i < |ops| && Run(env, b, ops[..i]) == before && Step(env, before, ops[i]) == after
    ensures Run(env, b, ops[..i + 1]) == after
  {
    RunStep(env, b, ops, i);
  }

  /** Asking about a validated candidate that nobody has asked about. */
  lemma AskPlainly(b: Board, id: string, newId: string)
    requires id in b.candidates && b.candidates[id] == PlainProposal(id, Stage.Validated)
    requires forall r | r in b.requests :: b.requests[r].candidate != id
    ensures Step(PlainEnv(), b, Asking(id, "w", None, "approve", newId, 0))
        == b.(requests := b.requests[newId := PlainRequest(id)])
  {
  }

  lemma CollidingRunReaches()
    ensures Run(PlainEnv(), TwoCandidates(), CollidingRun()[..3]) == BeforeLast()
  {
    var env, b0, ops := PlainEnv(), TwoCandidates(), CollidingRun();
    var b1 := b0.(requests := map["r1" := PlainRequest("b")]);
    var b2 := b1.(requests := b1.requests["r2" := PlainRequest("a")]);
    AskPlainly(b0, "b", "r1");
    RunOnce(env, b0, ops, 0, b0, b1);
    AskPlainly(b1, "a", "r2");
    RunOnce(env, b0, ops, 1, b1, b2);
    RunOnce(env, b0, ops, 2, b2, BeforeLast());
  }

  lemma LastCallDoubles()
    ensures Unique(BeforeLast().requests, 0) && Doubles(PlainEnv(), BeforeLast(), Answering(LastCall()))
  {
    assert LiveAt(BeforeLast().requests, "b", "approve", "w", 0, "r1");
  }

  /** The documented bound of one live request per candidate and action can be exceeded. */
  lemma ModifyingCanDouble()
    ensures Unique(TwoCandidates().requests, 0)
    ensures !Unique(Run(PlainEnv(), TwoCandidates(), CollidingRun()).requests, 0)
  {
    var ops := CollidingRun();
    CollidingRunReaches();
    RunStep(PlainEnv(), TwoCandidates(), ops, 3);
    assert ops[..4] == ops;
    LastCallDoubles();
    StepUniqueIff(PlainEnv(), BeforeLast(), Answering(LastCall()), 0);
  }
}
