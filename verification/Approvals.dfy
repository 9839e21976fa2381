/** Human approval of skill proposals: requests that expire, are answered once, and may be modified. */
module Approvals {
  import opened Common
  import opened Records

  const REQUEST_TTL := 30 * 86_400
  const MAX_INSTRUCTION := 2000
  const APPROVAL_FLOOR := 60

  datatype Stage =
    | Proposed | Evaluating | Draft | Validated | Approved | Live
    | Rejected | Deferred | Superseded | Expired | Deprecated

  datatype Proposal = Proposal(
    scope: Scope, workspace: Option<string>, task: Option<string>, name: string, content: string,
    stage: Stage, confidence: int, basedOn: Option<nat>)

  datatype Status = Pending | Granted | Refused | Postponed | Replaced | Lapsed

  datatype Response = Approve | Reject | Modify | Defer

  datatype Request = Request(
    candidate: string, hash: string, basedOn: Option<nat>, workspace: string, task: Option<string>, action: string,
    status: Status, response: Option<Response>, modification: Option<string>,
    successor: Option<string>, parent: Option<string>, createdAt: nat, respondedAt: Option<nat>, expiresAt: Option<nat>)

  type Requests = map<string, Request>

  datatype SkillId = SkillId(scope: Scope, workspace: string, name: string)

  datatype Skill = Skill(active: bool, version: nat, content: string)

  /** One publication: what was published, on whose request, and when. */
  datatype Publication = Publication(request: string, candidate: string, skill: SkillId, version: nat, content: string,
      basedOn: Option<nat>,
                                     workspace: string, task: Option<string>, at: nat)

  datatype Board = Board(
    candidates: map<string, Proposal>, requests: Requests, skills: map<SkillId, Skill>, published: seq<Publication>)

  /** Workspace keys, trimming, content hashes, candidate ids and content validation. */
  datatype Env = Env(
    canon: string -> string, trim: string -> string, hash: string -> string,
    mint: (Scope, string, string, string, string) -> string, valid: (string, string, Option<string>) -> bool)

  /** A response: `root` is the publication root, `gates` what the skill's name and file on disk allow,
      `newId` the id a successor would get. */
  datatype Call = Call(
    request: string, workspace: string, task: Option<string>, response: Response, modification: Option<string>,
    content: Option<string>, root: bool, gates: bool, newId: string, now: nat)

  function Or(o: Option<string>): string { if o.Some? then o.value else "" }

  /** Trimmed, and dropped when blank. */
  function Clean(env: Env, o: Option<string>): Option<string> {
    if o.Some? && env.trim(o.value) != "" then Some(env.trim(o.value)) else None
  }

  // ── Asking ─────────────────────────────────────────────────────────────

  predicate IsLive(r: Request, now: nat) {
    r.status == Pending && (r.expiresAt.Some? ==> r.expiresAt.value > now)
  }

  /** A request for this candidate, action and workspace that can still be answered. */
  predicate LiveAt(rs: Requests, candidate: string, action: string, workspace: string, now: nat, id: string) {
    id in rs && IsLive(rs[id], now) && rs[id].candidate == candidate && rs[id].action == action
        && rs[id].workspace == workspace
  }

  ghost predicate Taken(rs: Requests, candidate: string, action: string, workspace: string, now: nat) {
    exists id :: LiveAt(rs, candidate, action, workspace, now, id)
  }

  predicate InReach(env: Env, p: Proposal, workspace: string, task: Option<string>) {
    match p.scope
    case Global => true
    case Project => env.canon(Or(p.workspace)) == workspace
    case Task => env.canon(Or(p.workspace)) == workspace && Or(task) == Or(p.task)
  }

  function Action(env: Env, action: string): string { if env.trim(action) == "" then "approve" else env.trim(action) }

  function NewRequest(
      env: Env, id: string, p: Proposal, workspace: string, task: Option<string>, action: string,
      parent: Option<string>, now: nat): Request
  {
    Request(id, env.hash(p.content), p.basedOn, workspace, task, action, Pending, None, None, None, parent, now, None,
        Some(now + REQUEST_TTL))
  }

  predicate Askable(env: Env, b: Board, id: string, workspace: string, task: Option<string>) {
    id in b.candidates && b.candidates[id].stage == Stage.Validated
        && InReach(env, b.candidates[id], env.canon(workspace), Clean(env, task))
  }

  /** Ask for approval of a validated candidate; a live request for the same thing stands instead. */
  ghost function Ask(
      env: Env, b: Board, id: string, workspace: string, task: Option<string>, action: string, newId: string,
      now: nat): Board
  {
    if !Askable(env, b, id, workspace, task) then b
    else if Taken(b.requests, id, Action(env, action), env.canon(workspace), now) then b
    else
      var row := NewRequest(env, id, b.candidates[id], env.canon(workspace), Clean(env, task), Action(env, action),
                            None, now);
      b.(requests := b.requests[newId := row])
  }

  // ── Answering ──────────────────────────────────────────────────────────

  predicate TooLate(r: Request, now: nat) { r.expiresAt.Some? && now >= r.expiresAt.value }

  predicate Overdue(r: Request, now: nat) { r.status == Pending && r.expiresAt.Some? && r.expiresAt.value < now }

  function Swept(rs: Requests, now: nat): Requests {
    map id | id in rs :: if Overdue(rs[id], now) then rs[id].(status := Lapsed) else rs[id]
  }

  function Sweep(b: Board, now: nat): Board { b.(requests := Swept(b.requests, now)) }

  /** The request may be answered as `call` says: pending, in time, from its own workspace and task. */
  predicate Answerable(env: Env, call: Call, r: Request) {
    && !TooLate(r, call.now) && r.status == Pending
    && env.canon(call.workspace) == r.workspace
    && (r.task.Some? ==> Clean(env, call.task) == r.task)
  }

  /** The candidate is still validated, with the content and version anchor the request was made for. */
  predicate StillAsked(env: Env, r: Request, p: Proposal) {
    p.stage == Stage.Validated && env.hash(p.content) == r.hash && p.basedOn == r.basedOn
  }

  predicate Admits(env: Env, b: Board, call: Call) {
    && call.request in b.requests
    && var r := b.requests[call.request];
    && Answerable(env, call, r) && r.candidate in b.candidates && StillAsked(env, r, b.candidates[r.candidate])
  }

  /** What a responder holds after its checks: the rows as they were read. */
  datatype Ticket = Ticket(call: Call, request: Request, proposal: Proposal)

  function TicketFor(env: Env, b: Board, call: Call): Ticket
    requires Admits(env, b, call)
  {
    Ticket(call, b.requests[call.request], b.candidates[b.requests[call.request].candidate])
  }

  predicate CanMove(from: Stage, to: Stage) {
    match from
    case Proposed => to in {Evaluating, Stage.Rejected, Stage.Deferred, Stage.Expired}
    case Evaluating => to in {Draft, Stage.Rejected, Stage.Deferred, Stage.Expired}
    case Draft => to in {Validated, Stage.Rejected}
    case Validated => to in {Live, Stage.Approved, Stage.Rejected, Stage.Deferred, Stage.Superseded}
    case Approved => to in {Live, Stage.Rejected, Stage.Superseded}
    case Live => to in {Deprecated, Stage.Superseded}
    case Deferred => to in {Evaluating, Stage.Rejected, Stage.Expired}
    case _ => false
  }

  /** A responder's effect: the board it leaves, whether it went through, and the successor it minted. */
  datatype Effect = Effect(board: Board, ok: bool, successor: Option<string>)

  function Move(b: Board, id: string, to: Stage): Effect {
    if id in b.candidates && CanMove(b.candidates[id].stage, to)
    then Effect(b.(candidates := b.candidates[id := b.candidates[id].(stage := to)]), true, None)
    else Effect(b, false, None)
  }

  function SkillOf(p: Proposal): SkillId { SkillId(p.scope, Or(p.workspace), p.name) }

  /** What the candidate's own row must satisfy. */
  predicate Approvable(env: Env, p: Proposal, workspace: string) {
    && p.stage == Stage.Validated && p.confidence >= APPROVAL_FLOOR
    && (Or(p.workspace) != "" ==> env.canon(workspace) == env.canon(Or(p.workspace)))
    && env.valid(p.content, p.name, p.workspace)
  }

  /** What its name, its file and the skill it would extend must satisfy. */
  predicate Extends(b: Board, p: Proposal, gates: bool) {
    && gates
    && (SkillOf(p) in b.skills ==>
          b.skills[SkillOf(p)].active && (p.basedOn.Some? ==> p.basedOn.value == b.skills[SkillOf(p)].version))
  }

  predicate Publishable(env: Env, b: Board, id: string, workspace: string, gates: bool) {
    id in b.candidates && Approvable(env, b.candidates[id], workspace) && Extends(b, b.candidates[id], gates)
  }

  function VersionOf(b: Board, skill: SkillId): nat { if skill in b.skills then b.skills[skill].version else 0 }

  function PublicationOf(env: Env, id: string, p: Proposal, version: nat, call: Call): Publication {
    Publication(call.request, id, SkillOf(p), version, p.content, p.basedOn, env.canon(call.workspace),
                Clean(env, call.task), call.now)
  }

  /** The rows of one publication: the skill, the version, and the candidate's new stage if its row is there. */
  function Released(env: Env, b: Board, id: string, p: Proposal, version: nat, call: Call): Board {
    b.(candidates := if id in b.candidates then b.candidates[id := b.candidates[id].(stage := Live)] else b.candidates,
       skills := b.skills[SkillOf(p) := Skill(true, version, p.content)],
       published := b.published + [PublicationOf(env, id, p, version, call)])
  }

  /** Publish the candidate's current content as the next version of its skill. */
  function Publish(env: Env, b: Board, id: string, call: Call): Effect {
    if !Publishable(env, b, id, env.canon(call.workspace), call.gates) then Effect(b, false, None)
    else
      var p := b.candidates[id];
      Effect(Released(env, b, id, p, VersionOf(b, SkillOf(p)) + 1, call), true, None)
  }

  // ── Modifying ──────────────────────────────────────────────────────────

  predicate PreDraft(s: Stage) { s in {Proposed, Evaluating, Stage.Deferred} }

  /** A new proposal, or the refresh of one that is still open with the same content. */
  predicate Insertable(b: Board, id: string, p: Proposal) {
    id in b.candidates ==> PreDraft(b.candidates[id].stage) && b.candidates[id].content == p.content
  }

  function Inserted(b: Board, id: string, p: Proposal): Proposal
    requires Insertable(b, id, p)
  {
    if id !in b.candidates then p
    else
      var row := b.candidates[id];
      row.(confidence := p.confidence, basedOn := if p.basedOn.Some? then p.basedOn else row.basedOn)
  }

  /** The automated pass: a valid pre-review proposal ends up validated, an invalid one stays. */
  function Evaluated(env: Env, p: Proposal): Proposal {
    if (PreDraft(p.stage) || p.stage == Draft) && env.valid(p.content, p.name, p.workspace)
    then p.(stage := Stage.Validated)
    else p
  }

  function ModifiedContent(env: Env, t: Ticket, instruction: string): string {
    if t.call.content.Some? && env.trim(t.call.content.value) != "" then t.call.content.value
    else t.proposal.content + "\n\n## Human modification\n\n" + instruction + "\n"
  }

  function ForkId(env: Env, t: Ticket, instruction: string): string {
    env.mint(t.proposal.scope, Or(t.proposal.workspace), Or(t.proposal.task), t.proposal.name,
        env.hash(ModifiedContent(env, t, instruction)))
  }

  /** The version that is live today, if any. */
  function Anchor(b: Board, skill: SkillId): Option<nat> {
    if skill in b.skills && b.skills[skill].active then Some(b.skills[skill].version) else None
  }

  /** The modified proposal with its anchor. */
  function ForkFrom(env: Env, t: Ticket, anchor: Option<nat>, instruction: string): Proposal {
    t.proposal.(content := ModifiedContent(env, t, instruction), stage := Proposed, basedOn := anchor)
  }

  function ForkOf(env: Env, b: Board, t: Ticket, instruction: string): Proposal {
    ForkFrom(env, t, Anchor(b, SkillOf(t.proposal)), instruction)
  }

  /** What the modification itself must satisfy. */
  predicate Modifies(env: Env, t: Ticket) {
    && Clean(env, t.call.modification).Some?
    && var said := Clean(env, t.call.modification).value;
    && |said| <= MAX_INSTRUCTION && ForkId(env, t, said) != t.request.candidate
  }

  predicate Forkable(env: Env, b: Board, t: Ticket) {
    && Modifies(env, t)
    && var said := Clean(env, t.call.modification).value;
    && Insertable(b, ForkId(env, t, said), ForkOf(env, b, t, said))
  }

  /** The fork once inserted and evaluated. */
  function Successor(env: Env, b: Board, t: Ticket): Proposal
    requires Forkable(env, b, t)
  {
    var said := Clean(env, t.call.modification).value;
    Evaluated(env, Inserted(b, ForkId(env, t, said), ForkOf(env, b, t, said)))
  }

  /** The modification is accepted and its fork can be asked for. */
  predicate Forks(env: Env, b: Board, t: Ticket) {
    t.call.response == Modify && Forkable(env, b, t) && Successor(env, b, t).stage == Stage.Validated
  }

  function ForkRequest(env: Env, b: Board, t: Ticket): Request
    requires Forks(env, b, t)
  {
    NewRequest(env, ForkId(env, t, Clean(env, t.call.modification).value), Successor(env, b, t),
               t.request.workspace, t.request.task, t.request.action, Some(t.call.request), t.call.now)
  }

  /** Fork a modified candidate; if it validates, mint its request and close the parent candidate. */
  function Fork(env: Env, b: Board, t: Ticket): Effect {
    if !Forkable(env, b, t) then Effect(b, false, None)
    else
      var id := ForkId(env, t, Clean(env, t.call.modification).value);
      var p := Successor(env, b, t);
      var forked := b.(candidates := b.candidates[id := p]);
      if p.stage != Stage.Validated then Effect(forked, true, None)
      else
        var row := NewRequest(env, id, p, t.request.workspace, t.request.task, t.request.action, Some(t.call.request),
                              t.call.now);
        var asked := forked.(requests := b.requests[t.call.newId := row]);
        Move(asked, t.request.candidate, Stage.Superseded).(successor := Some(t.call.newId))
  }

  // ── A whole response ───────────────────────────────────────────────────

  function Act(env: Env, b: Board, t: Ticket): Effect {
    match t.call.response
    case Approve =>
      if !t.call.root then Effect(b, false, None)
      else Publish(env, b, t.request.candidate, t.call)
    case Reject => Move(b, t.request.candidate, Stage.Rejected)
    case Defer => Move(b, t.request.candidate, Stage.Deferred)
    case Modify => Fork(env, b, t)
  }

  function Outcome(r: Response): Status {
    match r case Approve => Granted case Reject => Refused case Defer => Postponed case Modify => Replaced
  }

  function Note(env: Env, call: Call): Option<string> {
    var said := Clean(env, call.modification);
    match call.response
    case Approve => None
    case Reject => if said.Some? then said else Some("rejected by human approver")
    case Defer => if said.Some? then said else Some("deferred by human approver")
    case Modify => said
  }

  function Answered(env: Env, r: Request, call: Call, successor: Option<string>): Request {
    r.(status := Outcome(call.response), response := Some(call.response), respondedAt := Some(call.now),
       modification := if Note(env, call).Some? then Note(env, call) else r.modification,
       successor := if successor.Some? then successor else r.successor)
  }

  predicate Commits(b: Board, id: string) { id in b.requests && b.requests[id].status == Pending }

  /** The guarded update: only a row that is still pending is answered. */
  function Commit(env: Env, b: Board, call: Call, successor: Option<string>): Board {
    if !Commits(b, call.request) then b
    else b.(requests := b.requests[call.request := Answered(env, b.requests[call.request], call, successor)])
  }

  predicate Succeeds(env: Env, b: Board, call: Call) { Admits(env, b, call) && Act(env, b, TicketFor(env, b, call)).ok }

  /** Check, act and commit, with nobody in between. */
  function Respond(env: Env, b: Board, call: Call): Board {
    if call.request in b.requests && TooLate(b.requests[call.request], call.now) then Sweep(b, call.now)
    else if !Admits(env, b, call) then b
    else
      var e := Act(env, b, TicketFor(env, b, call));
      if e.ok then Commit(env, e.board, call, e.successor) else e.board
  }

  // ── Runs ───────────────────────────────────────────────────────────────

  /** Steps of the protocol, and what others may do between them: rewrite any candidate or skill. */
  datatype Op =
    | Asking(candidate: string, workspace: string, task: Option<string>, action: string, newId: string, now: nat)
    | Answering(call: Call)
    | Sweeping(now: nat)
    | Rewriting(candidate: string, to: Proposal)
    | Dropping(candidate: string)
    | Republishing(skill: SkillId, as_: Skill)

  ghost function Step(env: Env, b: Board, op: Op): Board {
    match op
    case Asking(id, ws, task, action, newId, now) => Ask(env, b, id, ws, task, action, newId, now)
    case Answering(call) => Respond(env, b, call)
    case Sweeping(now) => Sweep(b, now)
    case Rewriting(id, p) => b.(candidates := b.candidates[id := p])
    case Dropping(id) => b.(candidates := b.candidates - {id})
    case Republishing(id, s) => b.(skills := b.skills[id := s])
  }

  /** Minted request ids are new. */
  predicate Mints(b: Board, op: Op) {
    match op
    case Asking(_, _, _, _, newId, _) => newId !in b.requests
    case Answering(call) => call.newId !in b.requests
    case _ => true
  }

  ghost function Run(env: Env, b: Board, ops: seq<Op>): Board {
    if ops == [] then b else Step(env, Run(env, b, ops[..|ops| - 1]), ops[|ops| - 1])
  }

  ghost predicate RunMints(env: Env, b: Board, ops: seq<Op>) {
    forall i | 0 <= i < |ops| :: Mints(Run(env, b, ops[..i]), ops[i])
  }
}
