/** The approval tables as they are updated in place, operation by operation. */
module ApprovalDesk {
  import opened Common
  import opened Records
  import opened Approvals

  class Desk {
    const env: Env
    var candidates: map<string, Proposal>
    var requests: Requests
    var skills: map<SkillId, Skill>
    var published: seq<Publication>

    constructor (env: Env)
      ensures this.env == env && State() == Board(map[], map[], map[], [])
    {
      this.env := env;
      candidates, requests, skills, published := map[], map[], map[], [];
    }

    function State(): Board reads this { Board(candidates, requests, skills, published) }

    /** The most recent live request for this candidate, action and workspace. */
    method FindLive(candidate: string, action: string, workspace: string, now: nat) returns (found: Option<string>)
      ensures found.None? <==> !Taken(requests, candidate, action, workspace, now)
      ensures found.Some? ==> LiveAt(requests, candidate, action, workspace, now, found.value)
      ensures found.Some? ==> forall id | LiveAt(requests, candidate, action, workspace, now, id) ::
          requests[id].createdAt <= requests[found.value].createdAt
    {
      found := None;
      var left := requests.Keys;
      while left != {}
        invariant left <= requests.Keys
        invariant found.Some? ==> LiveAt(requests, candidate, action, workspace, now, found.value)
        invariant forall id | LiveAt(requests, candidate, action, workspace, now, id) && id !in left ::
                    found.Some? && requests[id].createdAt <= requests[found.value].createdAt
      {
        var id :| id in left;
        left := left - {id};
        if LiveAt(requests, candidate, action, workspace, now, id)
            && (found.None? || requests[id].createdAt > requests[found.value].createdAt) {
          found := Some(id);
        }
      }
    }

    /** Ask for approval. An error leaves everything as it was: the candidate cannot be asked about from here,
        or a live request stands for other content. */
    method CreateRequest(
        id: string, workspace: string, task: Option<string>, action: string, newId: string, now: nat)
      returns (r: Result<string>)
      requires newId !in requests
      modifies this`requests
      ensures State() == Ask(env, old(State()), id, workspace, task, action, newId, now)
      ensures r.Ok? ==>
                && Askable(env, State(), id, workspace, task)
                && LiveAt(requests, id, Action(env, action), env.canon(workspace), now, r.value)
                && requests[r.value].hash == env.hash(candidates[id].content)
      ensures r.Err? && Askable(env, State(), id, workspace, task) ==>
                exists q :: LiveAt(requests, id, Action(env, action), env.canon(workspace), now, q)
                    && requests[q].hash != env.hash(candidates[id].content)
    {
      r := Err;
      if id !in candidates || candidates[id].stage != Stage.Validated { return; }
      var ws, mine := env.canon(workspace), Clean(env, task);
      if !InReach(env, candidates[id], ws, mine) { return; }
      var existing := FindLive(id, Action(env, action), ws, now);
      if existing.Some? {
        if requests[existing.value].hash == env.hash(candidates[id].content) { r := Ok(existing.value); }
        return;
      }
      requests := requests[newId := NewRequest(env, id, candidates[id], ws, mine, Action(env, action), None, now)];
      r := Ok(newId);
    }

    /** Move a candidate along its lifecycle. */
    method Transition(id: string, to: Stage) returns (ok: bool)
      modifies this`candidates
      ensures State() == Move(old(State()), id, to).board && ok == Move(old(State()), id, to).ok
    {
      ok := id in candidates && CanMove(candidates[id].stage, to);
      if ok { candidates := candidates[id := candidates[id].(stage := to)]; }
    }

    /** Insert a proposal, or refresh one that is still open with the same content. */
    method InsertCandidate(id: string, p: Proposal) returns (ok: bool)
      modifies this`candidates
      ensures ok == Insertable(old(State()), id, p)
      ensures candidates == if ok then old(candidates)[id := Inserted(old(State()), id, p)] else old(candidates)
    {
      if id in candidates {
        var row := candidates[id];
        if !PreDraft(row.stage) || row.content != p.content { return false; }
        var anchor := if p.basedOn.Some? then p.basedOn else row.basedOn;
        candidates := candidates[id := row.(confidence := p.confidence, basedOn := anchor)];
      } else {
        candidates := candidates[id := p];
      }
      return true;
    }

    /** The automated pass, stage by stage: a valid open proposal reaches validated, an invalid one stays. */
    method EvaluateContent(id: string) returns (ok: bool)
      modifies this`candidates
      ensures ok == (id in old(candidates) && (PreDraft(old(candidates)[id].stage)
          || old(candidates)[id].stage == Draft))
      ensures candidates == if ok then old(candidates)[id := Evaluated(env, old(candidates)[id])] else old(candidates)
    {
      if id !in candidates { return false; }
      var p := candidates[id];
      if !PreDraft(p.stage) && p.stage != Draft { return false; }
      if env.valid(p.content, p.name, p.workspace) {
        var step;
        if candidates[id].stage in {Proposed, Stage.Deferred} { step := Transition(id, Evaluating); }
        if candidates[id].stage == Evaluating { candidates := candidates[id := candidates[id].(stage := Draft)]; }
        if candidates[id].stage == Draft { step := Transition(id, Stage.Validated); }
      }
      return true;
    }

    /** Publish a validated candidate's content as the next version of its skill. */
    method ApproveCandidate(id: string, call: Call) returns (ok: bool)
      modifies this`candidates, this`skills, this`published
      ensures State() == Publish(env, old(State()), id, call).board && ok == Publish(env, old(State()), id, call).ok
    {
      if id !in candidates || candidates[id].stage != Stage.Validated
          || candidates[id].confidence < APPROVAL_FLOOR { return false; }
      var p := candidates[id];
      var ws := env.canon(call.workspace);
      if Or(p.workspace) != "" && env.canon(ws) != env.canon(Or(p.workspace)) { return false; }
      if !env.valid(p.content, p.name, p.workspace) || !call.gates { return false; }
      var skill, version := SkillOf(p), 1;
      if skill in skills {
        if !skills[skill].active || (p.basedOn.Some? && p.basedOn.value != skills[skill].version) { return false; }
        version := skills[skill].version + 1;
      }
      skills := skills[skill := Skill(true, version, p.content)];
      published := published + [Publication(call.request, id, skill, version, p.content, p.basedOn, ws,
          Clean(env, call.task), call.now)];
      candidates := candidates[id := p.(stage := Live)];
      return true;
    }

    /** The guarded update out of pending. */
    method TransitionRequest(call: Call, successor: Option<string>) returns (ok: bool)
      modifies this`requests
      ensures State() == Commit(env, old(State()), call, successor) && ok == Commits(old(State()), call.request)
    {
      ok := call.request in requests && requests[call.request].status == Pending;
      if ok { requests := requests[call.request := Answered(env, requests[call.request], call, successor)]; }
    }

    method ExpireRequests(now: nat)
      modifies this`requests
      ensures State() == Sweep(old(State()), now)
    {
      requests := map id | id in requests ::
        if Overdue(requests[id], now) then requests[id].(status := Lapsed) else requests[id];
    }

    /** Fork the modified candidate, evaluate it, ask for it, and close its parent. */
    method ModifyCandidate(t: Ticket) returns (ok: bool, successor: Option<string>)
      modifies this`candidates, this`requests
      ensures Effect(State(), ok, successor) == Fork(env, old(State()), t)
    {
      var said := Clean(env, t.call.modification);
      if said.None? || |said.value| > MAX_INSTRUCTION { return false, None; }
      var id := ForkId(env, t, said.value);
      if id == t.request.candidate { return false, None; }
      var inserted := InsertCandidate(id, ForkOf(env, State(), t, said.value));
      if !inserted { return false, None; }
      var _ := EvaluateContent(id);
      if candidates[id].stage != Stage.Validated { return true, None; }
      var row := NewRequest(env, id, candidates[id], t.request.workspace, t.request.task, t.request.action,
                            Some(t.call.request), t.call.now);
      requests := requests[t.call.newId := row];
      var moved := Transition(t.request.candidate, Stage.Superseded);
      return moved, Some(t.call.newId);
    }

    /** Consume a response: check, act, commit. */
    method RespondToRequest(call: Call) returns (ok: bool)
      requires call.newId !in requests
      modifies this
      ensures State() == Respond(env, old(State()), call) && ok == Succeeds(env, old(State()), call)
    {
      if call.request !in requests { return false; }
      var r := requests[call.request];
      if TooLate(r, call.now) {
        ExpireRequests(call.now);
        return false;
      }
      if !Admits(env, State(), call) { return false; }
      var t := Ticket(call, r, candidates[r.candidate]);
      var successor := None;
      match call.response {
        case Approve => if call.root { ok := ApproveCandidate(r.candidate, call); } else { ok := false; }
        case Reject => ok := Transition(r.candidate, Stage.Rejected);
        case Defer => ok := Transition(r.candidate, Stage.Deferred);
        case Modify => ok, successor := ModifyCandidate(t);
      }
      assert TicketFor(env, old(State()), call) == t;
      ghost var e := Act(env, old(State()), t);
      assert e == Effect(State(), ok, successor);
      if ok {
        var answered := TransitionRequest(call, successor);
        assert answered;
      }
    }
  }
}
