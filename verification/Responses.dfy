/** What each answer to an approval request leaves behind, row by row and field by field. */
module Responses {
  import opened Common
  import opened Records
  import opened Approvals

  // ── When an answer is accepted ─────────────────────────────────────────

  predicate Blank(env: Env, o: Option<string>) { o.None? || env.trim(o.value) == "" }

  /** The request is pending, in time, answered from its own workspace and task, and its candidate is still what was
      asked about. */
  predicate Open(env: Env, b: Board, call: Call) {
    && call.request in b.requests
    && var r := b.requests[call.request];
    && r.status == Pending && (r.expiresAt.Some? ==> call.now < r.expiresAt.value)
    && env.canon(call.workspace) == r.workspace
    && (r.task.Some? ==> !Blank(env, call.task) && env.trim(call.task.value) == r.task.value)
    && r.candidate in b.candidates
    && var p := b.candidates[r.candidate];
    && p.stage == Stage.Validated && env.hash(p.content) == r.hash && p.basedOn == r.basedOn
  }

  function Owner(p: Proposal): string { if p.workspace.Some? then p.workspace.value else "" }

  /** The candidate is strong and valid, belongs here, and extends the active skill it was anchored to. */
  predicate MayPublish(env: Env, b: Board, call: Call, p: Proposal) {
    && call.root && call.gates && p.confidence >= 60 && env.valid(p.content, p.name, p.workspace)
    && (Owner(p) != "" ==> env.canon(env.canon(call.workspace)) == env.canon(Owner(p)))
    && var skill := SkillId(p.scope, Owner(p), p.name);
    && (skill in b.skills ==>
          b.skills[skill].active && (p.basedOn.Some? ==> p.basedOn.value == b.skills[skill].version))
  }

  /** The content a modification asks for: given outright, or the old one with the instruction appended. */
  function NewContent(env: Env, call: Call, p: Proposal): string
    requires call.modification.Some?
  {
    if !Blank(env, call.content) then call.content.value
    else p.content + "\n\n## Human modification\n\n" + env.trim(call.modification.value) + "\n"
  }

  function ForkName(env: Env, call: Call, p: Proposal): string
    requires call.modification.Some?
  {
    env.mint(p.scope, Owner(p), if p.task.Some? then p.task.value else "", p.name, env.hash(NewContent(env, call, p)))
  }

  /** There is an instruction of at most 2000 characters, it changes the content, and no reviewed candidate or one with
      other content is in the way. */
  predicate MayFork(env: Env, b: Board, call: Call, r: Request, p: Proposal) {
    && !Blank(env, call.modification) && |env.trim(call.modification.value)| <= 2000
    && var id := ForkName(env, call, p);
    && id != r.candidate
    && (id in b.candidates ==>
          && b.candidates[id].stage in {Proposed, Evaluating, Stage.Deferred}
          && b.candidates[id].content == NewContent(env, call, p))
  }

  /** Exactly when an answer goes through. */
  lemma SucceedsIff(env: Env, b: Board, call: Call)
    ensures Succeeds(env, b, call) <==>
            && Open(env, b, call)
            && var r := b.requests[call.request]; var p := b.candidates[r.candidate];
            && (call.response == Approve ==> MayPublish(env, b, call, p))
            && (call.response == Modify ==> MayFork(env, b, call, r, p))
  {
    if Admits(env, b, call) && call.response == Modify { ForkGoesThrough(env, b, TicketFor(env, b, call)); }
  }

  /** A fork that may be inserted can always be followed by closing its parent. */
  lemma ForkGoesThrough(env: Env, b: Board, t: Ticket)
    requires t.request.candidate in b.candidates && b.candidates[t.request.candidate].stage == Stage.Validated
    ensures Fork(env, b, t).ok <==> Forkable(env, b, t)
  {
  }

  /** A refused answer changes nothing, except that one that comes too late sweeps overdue requests. */
  lemma RefusalLeaves(env: Env, b: Board, call: Call)
    requires !Succeeds(env, b, call)
    ensures var t := Respond(env, b, call);
            && t.candidates == b.candidates && t.skills == b.skills && t.published == b.published
            && t.requests.Keys == b.requests.Keys
            && var late := call.request in b.requests && b.requests[call.request].expiresAt.Some?
                           && b.requests[call.request].expiresAt.value <= call.now;
            && (!late ==> t.requests == b.requests)
            && (late ==> forall id | id in b.requests ::
                  var r := b.requests[id];
                  t.requests[id] == if r.status == Pending && r.expiresAt.Some? && r.expiresAt.value < call.now
                                    then r.(status := Lapsed) else r)
  {
    if Admits(env, b, call) && call.response == Modify { ForkGoesThrough(env, b, TicketFor(env, b, call)); }
  }

  // ── Rejecting and deferring ────────────────────────────────────────────

  /** What is noted on a request that is turned down: the words of the approver, or a default. */
  function Remark(env: Env, call: Call, default: string): string {
    if Blank(env, call.modification) then default else env.trim(call.modification.value)
  }

  /** A rejection rejects the candidate and closes the request as rejected; nothing else moves. */
  lemma RejectionLeaves(env: Env, b: Board, call: Call)
    requires Succeeds(env, b, call) && call.response == Reject
    ensures var t, r := Respond(env, b, call), b.requests[call.request];
            && t.candidates == b.candidates[r.candidate := b.candidates[r.candidate].(stage := Stage.Rejected)]
            && t.requests == b.requests[call.request := r.(
                 status := Refused, response := Some(Reject), respondedAt := Some(call.now),
                 modification := Some(Remark(env, call, "rejected by human approver")))]
            && t.skills == b.skills && t.published == b.published
  {
  }

  /** A deferral defers the candidate and closes the request as deferred; nothing else moves. */
  lemma DeferralLeaves(env: Env, b: Board, call: Call)
    requires Succeeds(env, b, call) && call.response == Defer
    ensures var t, r := Respond(env, b, call), b.requests[call.request];
            && t.candidates == b.candidates[r.candidate := b.candidates[r.candidate].(stage := Stage.Deferred)]
            && t.requests == b.requests[call.request := r.(
                 status := Postponed, response := Some(Defer), respondedAt := Some(call.now),
                 modification := Some(Remark(env, call, "deferred by human approver")))]
            && t.skills == b.skills && t.published == b.published
  {
  }

  // ── Approving ──────────────────────────────────────────────────────────

  /** An approval makes the candidate live, its content the next version of its skill, and the request granted. */
  lemma ApprovalLeaves(env: Env, b: Board, call: Call)
    requires Succeeds(env, b, call) && call.response == Approve
    ensures var t, r := Respond(env, b, call), b.requests[call.request];
            var p := b.candidates[r.candidate]; var skill := SkillId(p.scope, Owner(p), p.name);
            var version := if skill in b.skills then b.skills[skill].version + 1 else 1;
            var task := if Blank(env, call.task) then None else Some(env.trim(call.task.value));
            && t.candidates == b.candidates[r.candidate := p.(stage := Live)]
            && t.requests == b.requests[call.request := r.(
                 status := Granted, response := Some(Approve), respondedAt := Some(call.now))]
            && t.skills == b.skills[skill := Skill(true, version, p.content)]
            && t.published == b.published + [Publication(call.request, r.candidate, skill, version, p.content,
                                                         p.basedOn, env.canon(call.workspace), task, call.now)]
  {
  }

  // ── Modifying ──────────────────────────────────────────────────────────

  /** The fork as it is left: a copy of its parent with the new content, anchored to the skill as it is live today, or
      the open row that was there, refreshed; validated if its content is valid. */
  function LeftFork(env: Env, b: Board, call: Call, p: Proposal): Proposal
    requires call.modification.Some?
  {
    var content, id, skill := NewContent(env, call, p), ForkName(env, call, p), SkillId(p.scope, Owner(p), p.name);
    var anchor := if skill in b.skills && b.skills[skill].active then Some(b.skills[skill].version) else None;
    var row := if id !in b.candidates then p.(content := content, stage := Proposed, basedOn := anchor)
               else b.candidates[id].(confidence := p.confidence,
                                      basedOn := if anchor.Some? then anchor else b.candidates[id].basedOn);
    if env.valid(row.content, row.name, row.workspace) then row.(stage := Stage.Validated) else row
  }

  /** The request for a fork: for its content and anchor, under the terms of the one it replaces, for thirty days. */
  function RequestLeft(env: Env, call: Call, id: string, fork: Proposal, r: Request): Request {
    Request(id, env.hash(fork.content), fork.basedOn, r.workspace, r.task, r.action, Pending, None, None, None,
            Some(call.request), call.now, None, Some(call.now + 2_592_000))
  }

  lemma ForkIsLeft(env: Env, b: Board, t: Ticket)
    requires Forkable(env, b, t) && t.call.modification.Some?
    ensures ForkId(env, t, Clean(env, t.call.modification).value) == ForkName(env, t.call, t.proposal)
    ensures Successor(env, b, t) == LeftFork(env, b, t.call, t.proposal)
  {
  }

  /** What acting on a modification leaves before the request is closed. */
  lemma ForkLeaves(env: Env, b: Board, t: Ticket)
    requires Forkable(env, b, t) && t.call.modification.Some?
    requires t.request.candidate in b.candidates && b.candidates[t.request.candidate] == t.proposal
    requires t.proposal.stage == Stage.Validated
    ensures var id, fork := ForkName(env, t.call, t.proposal), LeftFork(env, b, t.call, t.proposal);
            var forked := b.(candidates := b.candidates[id := fork]);
            Fork(env, b, t) ==
            if fork.stage != Stage.Validated then Effect(forked, true, None)
            else Effect(forked.(
                requests := b.requests[t.call.newId := RequestLeft(env, t.call, id, fork, t.request)],
                candidates := forked.candidates[t.request.candidate := t.proposal.(stage := Stage.Superseded)]),
              true, Some(t.call.newId))
  {
    ForkIsLeft(env, b, t);
  }

  /** A modification leaves the fork, publishes nothing, and closes the request as replaced. If the fork is valid it
      supersedes its parent and has a request of its own, which the closed one names. */
  lemma ModificationLeaves(env: Env, b: Board, call: Call)
    requires Succeeds(env, b, call) && call.response == Modify && call.newId !in b.requests
    ensures var t, r := Respond(env, b, call), b.requests[call.request];
            var p := b.candidates[r.candidate];
            && call.modification.Some?
            && var id, fork := ForkName(env, call, p), LeftFork(env, b, call, p);
            var closed := r.(status := Replaced, response := Some(Modify), respondedAt := Some(call.now),
                             modification := Some(env.trim(call.modification.value)));
            && t.skills == b.skills && t.published == b.published
            && (fork.stage == Stage.Validated ==>
                  && t.candidates == b.candidates[id := fork][r.candidate := p.(stage := Stage.Superseded)]
                  && t.requests == b.requests[call.newId := RequestLeft(env, call, id, fork, r)]
                                             [call.request := closed.(successor := Some(call.newId))])
            && (fork.stage != Stage.Validated ==>
                  t.candidates == b.candidates[id := fork] && t.requests == b.requests[call.request := closed])
  {
    var t := TicketFor(env, b, call);
    ForkGoesThrough(env, b, t);
    ForkLeaves(env, b, t);
  }

  // ── Asking ─────────────────────────────────────────────────────────────

  /** Asking adds one pending request for a validated candidate in reach, for thirty days, unless one for the same
      candidate, action and workspace can still be answered. */
  lemma AskingLeaves(
      env: Env, b: Board, id: string, workspace: string, task: Option<string>, action: string, newId: string, now: nat)
    ensures var t := Ask(env, b, id, workspace, task, action, newId, now);
            var ws, job := env.canon(workspace), if Blank(env, task) then None else Some(env.trim(task.value));
            var act := if env.trim(action) == "" then "approve" else env.trim(action);
            var askable :=
              && id in b.candidates && b.candidates[id].stage == Stage.Validated
              && var p := b.candidates[id];
              && (p.scope != Global ==> env.canon(Owner(p)) == ws)
              && (p.scope == Task ==>
                    (if job.Some? then job.value else "") == if p.task.Some? then p.task.value else "");
            var live := exists r | r in b.requests ::
              && b.requests[r].status == Pending
              && (b.requests[r].expiresAt.Some? ==> now < b.requests[r].expiresAt.value)
              && b.requests[r].candidate == id && b.requests[r].action == act && b.requests[r].workspace == ws;
            if askable && !live
            then t == b.(requests := b.requests[newId :=
              Request(id, env.hash(b.candidates[id].content), b.candidates[id].basedOn, ws, job, act, Pending, None,
                      None, None, None, now, None, Some(now + 2_592_000))])
            else t == b
  {
    var act, ws := Action(env, action), env.canon(workspace);
    if Taken(b.requests, id, act, ws, now) {
      var r :| LiveAt(b.requests, id, act, ws, now, r);
    }
    if r :| r in b.requests && b.requests[r].status == Pending
            && (b.requests[r].expiresAt.Some? ==> now < b.requests[r].expiresAt.value)
            && b.requests[r].candidate == id && b.requests[r].action == act && b.requests[r].workspace == ws {
      assert LiveAt(b.requests, id, act, ws, now, r);
    }
  }

  // ── The lifecycle, backwards ───────────────────────────────────────────

  /** From which stages each stage is reached: the table of moves read the other way. */
  lemma ReachedFrom(from: Stage, to: Stage)
    ensures CanMove(from, to) <==>
            match to
            case Proposed => false
            case Evaluating => from in {Proposed, Stage.Deferred}
            case Draft => from == Evaluating
            case Validated => from == Draft
            case Approved => from == Stage.Validated
            case Live => from in {Stage.Validated, Stage.Approved}
            case Rejected => from in {Proposed, Evaluating, Draft, Stage.Validated, Stage.Approved, Stage.Deferred}
            case Deferred => from in {Proposed, Evaluating, Stage.Validated}
            case Superseded => from in {Stage.Validated, Stage.Approved, Live}
            case Expired => from in {Proposed, Evaluating, Stage.Deferred}
            case Deprecated => from == Live
  {
  }
}
