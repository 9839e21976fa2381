/** Responders whose responses are taken apart into the single reads and writes that others may come between. What one
    held connection does is one move. Two reads are joined with what follows them: that of an expired request with its
    sweep, which anyone may do at any time, and that of a skill with the checks of its name and its file, whose outcome
    is given. */
module Responders {
  import opened Common
  import opened Records
  import opened Approvals

  /** What follows a change of a candidate's stage. */
  datatype Then = ToCommit(successor: Option<string>) | ToDraft(content: string) | ToJudged

  /** How far a responder has got, with the rows it has read so far. */
  datatype Part =
    | Seen(call: Call, request: Request)
    | Ready(ticket: Ticket)
    | Approving(ticket: Ticket, row: Proposal)
    | Publishing(ticket: Ticket, row: Proposal, version: nat)
    | Forking(ticket: Ticket, anchor: Option<nat>)
    | Put(ticket: Ticket, id: string)
    | Drafting(ticket: Ticket, id: string, content: string)
    | Drafted(ticket: Ticket, id: string, content: string)
    | Judged(ticket: Ticket, id: string)
    | Found(ticket: Ticket, id: string, row: Proposal)
    | Wants(ticket: Ticket, id: string, to: Stage, next: Then)
    | Holds(ticket: Ticket, id: string, to: Stage, next: Then)

  function CallOf(part: Part): Call { if part.Seen? then part.call else part.ticket.call }

  /** The board, the responders at work, and those that have acted and not yet committed. */
  datatype World = World(board: Board, parts: map<nat, Part>, acted: map<nat, (Call, Option<string>)>)

  /** `Go` is a responder's next read or write; `Other` a whole step by somebody else. */
  datatype Turn =
    | Check(who: nat, call: Call)
    | Go(who: nat)
    | Finish(who: nat)
    | Other(op: Op)

  predicate Expires(b: Board, call: Call) { call.request in b.requests && TooLate(b.requests[call.request], call.now) }

  /** A response begins by reading its request; an expired one is swept. */
  function Checked(env: Env, w: World, who: nat, call: Call): World {
    if who in w.parts || who in w.acted then w
    else if Expires(w.board, call) then w.(board := Sweep(w.board, call.now))
    else if call.request in w.board.requests && Answerable(env, call, w.board.requests[call.request])
    then w.(parts := w.parts[who := Seen(call, w.board.requests[call.request])])
    else w
  }

  // ── The moves of one responder ─────────────────────────────────────────

  function Drop(w: World, who: nat): World { w.(parts := w.parts - {who}) }

  function At(w: World, who: nat, part: Part): World { w.(parts := w.parts[who := part]) }

  function Done(w: World, who: nat, call: Call, successor: Option<string>): World {
    w.(parts := w.parts - {who}, acted := w.acted[who := (call, successor)])
  }

  /** Read a stage before changing it. */
  function ReadStage(w: World, who: nat, t: Ticket, id: string, to: Stage, next: Then): World {
    if id in w.board.candidates && CanMove(w.board.candidates[id].stage, to) then At(w, who, Holds(t, id, to, next))
    else Drop(w, who)
  }

  function Continue(w: World, who: nat, t: Ticket, id: string, next: Then): World {
    match next
    case ToCommit(successor) => Done(w, who, t.call, successor)
    case ToDraft(content) => At(w, who, Drafting(t, id, content))
    case ToJudged => At(w, who, Judged(t, id))
  }

  /** A board with one candidate's row written. */
  function Staged(b: Board, id: string, p: Proposal): Board { b.(candidates := b.candidates[id := p]) }

  function WithStage(b: Board, id: string, to: Stage): Board
    requires id in b.candidates
  {
    b.(candidates := b.candidates[id := b.candidates[id].(stage := to)])
  }

  /** Write it: the stage that was read is not looked at again. */
  function WriteStage(w: World, who: nat, t: Ticket, id: string, to: Stage, next: Then): World {
    if id !in w.board.candidates then Drop(w, who)
    else Continue(w.(board := WithStage(w.board, id, to)), who, t, id, next)
  }

  function ReadCandidate(env: Env, w: World, who: nat, call: Call, r: Request): World {
    if r.candidate in w.board.candidates && StillAsked(env, r, w.board.candidates[r.candidate])
    then At(w, who, Ready(Ticket(call, r, w.board.candidates[r.candidate])))
    else Drop(w, who)
  }

  /** The fork goes in with the anchor that was read, unless a row in its place refuses it. */
  function PutFork(env: Env, w: World, who: nat, t: Ticket, anchor: Option<nat>): World {
    if !Modifies(env, t) then Drop(w, who)
    else
      var said := Clean(env, t.call.modification).value;
      var id, fork := ForkId(env, t, said), ForkFrom(env, t, anchor, said);
      if !Insertable(w.board, id, fork) then Drop(w, who)
      else At(w.(board := Staged(w.board, id, Inserted(w.board, id, fork))), who, Put(t, id))
  }

  /** The first move on a request that may be answered. */
  function Begin(env: Env, w: World, who: nat, t: Ticket): World {
    var id := t.request.candidate;
    match t.call.response
    case Approve =>
      if t.call.root && id in w.board.candidates
         && Approvable(env, w.board.candidates[id], env.canon(t.call.workspace))
      then At(w, who, Approving(t, w.board.candidates[id]))
      else Drop(w, who)
    case Reject => ReadStage(w, who, t, id, Stage.Rejected, ToCommit(None))
    case Defer => ReadStage(w, who, t, id, Stage.Deferred, ToCommit(None))
    case Modify =>
      if Modifies(env, t) then At(w, who, Forking(t, Anchor(w.board, SkillOf(t.proposal)))) else Drop(w, who)
  }

  function ReadSkill(w: World, who: nat, t: Ticket, row: Proposal): World {
    if Extends(w.board, row, t.call.gates) then At(w, who, Publishing(t, row, VersionOf(w.board, SkillOf(row)) + 1))
    else Drop(w, who)
  }

  /** The publishing transaction refuses a version number that is taken by now, and looks at nothing else. */
  function WriteVersion(env: Env, w: World, who: nat, t: Ticket, row: Proposal, version: nat): World {
    if VersionOf(w.board, SkillOf(row)) >= version then Drop(w, who)
    else Done(w.(board := Released(env, w.board, t.request.candidate, row, version, t.call)), who, t.call, None)
  }

  /** The evaluation of a fork begins by reading it. */
  function ReadFork(env: Env, w: World, who: nat, t: Ticket, id: string): World {
    if id !in w.board.candidates then Drop(w, who)
    else
      var p := w.board.candidates[id];
      if !PreDraft(p.stage) && p.stage != Draft then Drop(w, who)
      else if !env.valid(p.content, p.name, p.workspace) then At(w, who, Judged(t, id))
      else if p.stage == Draft then At(w, who, Wants(t, id, Stage.Validated, ToJudged))
      else if p.stage == Evaluating then At(w, who, Drafting(t, id, p.content))
      else At(w, who, Wants(t, id, Evaluating, ToDraft(p.content)))
  }

  function ReadDraft(env: Env, w: World, who: nat, t: Ticket, id: string, content: string): World {
    if id in w.board.candidates && CanMove(w.board.candidates[id].stage, Draft)
       && env.valid(content, w.board.candidates[id].name, w.board.candidates[id].workspace)
    then At(w, who, Drafted(t, id, content))
    else Drop(w, who)
  }

  /** Committing the draft is the one stage write that is guarded. */
  function WriteDraft(w: World, who: nat, t: Ticket, id: string, content: string): World {
    if id !in w.board.candidates then Drop(w, who)
    else
      var p := w.board.candidates[id];
      var b := if p.stage == Evaluating
               then w.board.(candidates := w.board.candidates[id := p.(content := content, stage := Draft)])
               else w.board;
      At(w.(board := b), who, Wants(t, id, Stage.Validated, ToJudged))
  }

  function ReadJudged(w: World, who: nat, t: Ticket, id: string): World {
    if id in w.board.candidates then At(w, who, Found(t, id, w.board.candidates[id])) else Drop(w, who)
  }

  function RequestFor(env: Env, t: Ticket, id: string, row: Proposal): Request {
    NewRequest(env, id, row, t.request.workspace, t.request.task, t.request.action, Some(t.call.request), t.call.now)
  }

  function AskFork(env: Env, w: World, who: nat, t: Ticket, id: string, row: Proposal): World {
    if row.stage != Stage.Validated then Done(w, who, t.call, None)
    else
      var b := w.board.(requests := w.board.requests[t.call.newId := RequestFor(env, t, id, row)]);
      At(w.(board := b), who, Wants(t, t.request.candidate, Stage.Superseded, ToCommit(Some(t.call.newId))))
  }

  /** One read or one write of a responder. */
  function Gone(env: Env, w: World, who: nat): World {
    if who !in w.parts then w
    else match w.parts[who]
      case Seen(call, r) => ReadCandidate(env, w, who, call, r)
      case Ready(t) => Begin(env, w, who, t)
      case Approving(t, row) => ReadSkill(w, who, t, row)
      case Publishing(t, row, version) => WriteVersion(env, w, who, t, row, version)
      case Forking(t, anchor) => PutFork(env, w, who, t, anchor)
      case Put(t, id) => ReadFork(env, w, who, t, id)
      case Drafting(t, id, content) => ReadDraft(env, w, who, t, id, content)
      case Drafted(t, id, content) => WriteDraft(w, who, t, id, content)
      case Judged(t, id) => ReadJudged(w, who, t, id)
      case Found(t, id, row) => AskFork(env, w, who, t, id, row)
      case Wants(t, id, to, next) => ReadStage(w, who, t, id, to, next)
      case Holds(t, id, to, next) => WriteStage(w, who, t, id, to, next)
  }

  function Finished(env: Env, w: World, who: nat): World {
    if who !in w.acted then w
    else w.(board := Commit(env, w.board, w.acted[who].0, w.acted[who].1), acted := w.acted - {who})
  }

  // ── Races ──────────────────────────────────────────────────────────────

  ghost function Next(env: Env, w: World, m: Turn): World {
    match m
    case Check(who, call) => Checked(env, w, who, call)
    case Go(who) => Gone(env, w, who)
    case Finish(who) => Finished(env, w, who)
    case Other(op) => w.(board := Step(env, w.board, op))
  }

  predicate Asks(w: World, who: nat) {
    who in w.parts && w.parts[who].Found? && w.parts[who].row.stage == Stage.Validated
  }

  /** Minted request ids are new. */
  predicate MintsIn(w: World, m: Turn) {
    match m
    case Go(who) => Asks(w, who) ==> w.parts[who].ticket.call.newId !in w.board.requests
    case Other(op) => Mints(w.board, op)
    case _ => true
  }

  ghost function Race(env: Env, w: World, ms: seq<Turn>): World {
    if ms == [] then w else Next(env, Race(env, w, ms[..|ms| - 1]), ms[|ms| - 1])
  }

  ghost predicate RaceMints(env: Env, w: World, ms: seq<Turn>) {
    forall i | 0 <= i < |ms| :: MintsIn(Race(env, w, ms[..i]), ms[i])
  }

  lemma FrontMints(env: Env, w: World, ms: seq<Turn>)
    requires ms != [] && RaceMints(env, w, ms)
    ensures RaceMints(env, w, ms[..|ms| - 1]) && MintsIn(Race(env, w, ms[..|ms| - 1]), ms[|ms| - 1])
  {
    assert forall i | 0 <= i < |ms| - 1 :: ms[..|ms| - 1][..i] == ms[..i];
  }

  /** Committing a draft writes the content that the evaluation read, whatever the row says by now, and only while the
      row is still being evaluated. */
  lemma DraftOverwrites(env: Env, w: World, who: nat, t: Ticket, id: string, content: string)
    requires who in w.parts && w.parts[who] == Drafted(t, id, content) && id in w.board.candidates
    ensures var b, p := Gone(env, w, who).board, w.board.candidates[id];
            && b.requests == w.board.requests && b.skills == w.board.skills && b.published == w.board.published
            && b.candidates == w.board.candidates[id :=
                 if p.stage == Evaluating then p.(content := content, stage := Draft) else p]
  {
  }

  // ── A responder alone ──────────────────────────────────────────────────

  function GoMany(env: Env, w: World, who: nat, k: nat): World
    decreases k
  {
    if k == 0 then w else GoMany(env, Gone(env, w, who), who, k - 1)
  }

  lemma {:induction false} GoAdds(env: Env, w: World, who: nat, j: nat, k: nat)
    ensures GoMany(env, GoMany(env, w, who, j), who, k) == GoMany(env, w, who, j + k)
    decreases j
  {
    if j > 0 { GoAdds(env, Gone(env, w, who), who, j - 1, k); }
  }

  /** The effect all at once. */
  function Effected(env: Env, w: World, who: nat, t: Ticket): World {
    var e := Act(env, w.board, t);
    var left := w.(board := e.board, parts := w.parts - {who});
    if e.ok then left.(acted := w.acted[who := (t.call, e.successor)]) else left
  }

  lemma Overwrites(parts: map<nat, Part>, who: nat, part: Part, p: Part)
    ensures parts[who := part] - {who} == parts - {who} && parts[who := part][who := p] == parts[who := p]
  {}

  lemma GoOnce(env: Env, w: World, who: nat)
    ensures GoMany(env, w, who, 1) == Gone(env, w, who)
  {
    assert GoMany(env, Gone(env, w, who), who, 0) == Gone(env, w, who);
  }

  /** Reading a stage and writing it with nobody in between is the guarded move. */
  lemma AloneMoves(env: Env, w: World, who: nat, t: Ticket, id: string, to: Stage, next: Then) returns (k: nat)
    requires who in w.parts && Gone(env, w, who) == ReadStage(w, who, t, id, to, next)
    ensures var e := Move(w.board, id, to);
            GoMany(env, w, who, k) == if e.ok then Continue(w.(board := e.board), who, t, id, next) else Drop(w, who)
  {
    GoOnce(env, w, who);
    k := 1;
    if Move(w.board, id, to).ok {
      k := 2;
      var one := Gone(env, w, who);
      GoOnce(env, one, who);
      GoAdds(env, w, who, 1, 1);
      var p := if next.ToDraft? then Drafting(t, id, next.content) else Judged(t, id);
      Overwrites(w.parts, who, Holds(t, id, to, next), p);
    }
  }

  /** Approving, alone. */
  lemma AloneApproves(env: Env, w: World, who: nat, t: Ticket) returns (k: nat)
    requires who in w.parts && w.parts[who] == Ready(t) && t.call.response == Approve
    ensures GoMany(env, w, who, k) == Effected(env, w, who, t)
  {
    var one := Gone(env, w, who);
    GoOnce(env, w, who);
    k := 1;
    if who in one.parts {
      var row := w.board.candidates[t.request.candidate];
      Overwrites(w.parts, who, Approving(t, row), Publishing(t, row, VersionOf(w.board, SkillOf(row)) + 1));
      var two := Gone(env, one, who);
      GoOnce(env, one, who);
      GoAdds(env, w, who, 1, 1);
      k := 2;
      if who in two.parts {
        Overwrites(w.parts, who, two.parts[who], two.parts[who]);
        GoOnce(env, two, who);
        GoAdds(env, w, who, 2, 1);
        k := 3;
      }
    }
  }

  lemma AloneDrafts(env: Env, w: World, who: nat, t: Ticket, id: string, p: Proposal) returns (k: nat)
    requires who in w.parts && w.parts[who] == Drafting(t, id, p.content)
    requires id in w.board.candidates && w.board.candidates[id] == p
    requires p.stage == Evaluating && env.valid(p.content, p.name, p.workspace)
    ensures GoMany(env, w, who, k)
            == At(w.(board := Staged(w.board, id, p.(stage := Stage.Validated))), who, Judged(t, id))
  {
    var one := Gone(env, w, who);
    assert one == At(w, who, Drafted(t, id, p.content));
    var two := Gone(env, one, who);
    Overwrites(w.parts, who, one.parts[who], Wants(t, id, Stage.Validated, ToJudged));
    assert two == At(w.(board := Staged(w.board, id, p.(stage := Draft))), who,
        Wants(t, id, Stage.Validated, ToJudged));
    GoOnce(env, w, who);
    GoOnce(env, one, who);
    GoAdds(env, w, who, 1, 1);
    var j := AloneMoves(env, two, who, t, id, Stage.Validated, ToJudged);
    GoAdds(env, w, who, 2, j);
    k := 2 + j;
    Overwrites(w.parts, who, two.parts[who], Judged(t, id));
    assert Staged(two.board, id, p.(stage := Stage.Validated)) == Staged(w.board, id, p.(stage := Stage.Validated));
  }

  /** Evaluating a candidate, alone: in a stage before review it is validated if its content is valid, and in any other
      stage the responder gives up. */
  lemma AloneJudges(env: Env, w: World, who: nat, t: Ticket, id: string, p: Proposal) returns (k: nat)
    requires who in w.parts && w.parts[who] == Put(t, id)
    requires id in w.board.candidates && w.board.candidates[id] == p
    ensures GoMany(env, w, who, k) ==
            if p.stage in {Proposed, Evaluating, Stage.Deferred, Draft}
            then At(w.(board := Staged(w.board, id, Evaluated(env, p))), who, Judged(t, id))
            else Drop(w, who)
  {
    GoOnce(env, w, who);
    k := 1;
    if p.stage == Draft && env.valid(p.content, p.name, p.workspace) {
      var one := Gone(env, w, who);
      var j := AloneMoves(env, one, who, t, id, Stage.Validated, ToJudged);
      GoAdds(env, w, who, 1, j);
      k := 1 + j;
      Overwrites(w.parts, who, one.parts[who], Judged(t, id));
    } else if p.stage in {Proposed, Evaluating, Stage.Deferred} {
      k := AlonePreDraft(env, w, who, t, id, p);
    } else {
      assert Staged(w.board, id, p) == w.board;
    }
  }

  lemma AlonePreDraft(env: Env, w: World, who: nat, t: Ticket, id: string, p: Proposal) returns (k: nat)
    requires who in w.parts && w.parts[who] == Put(t, id)
    requires id in w.board.candidates && w.board.candidates[id] == p && PreDraft(p.stage)
    ensures GoMany(env, w, who, k) == At(w.(board := Staged(w.board, id, Evaluated(env, p))), who, Judged(t, id))
  {
    var one := Gone(env, w, who);
    GoOnce(env, w, who);
    k := 1;
    if !env.valid(p.content, p.name, p.workspace) {
      assert Staged(w.board, id, p) == w.board;
    } else if p.stage == Evaluating {
      var j := AloneDrafts(env, one, who, t, id, p);
      GoAdds(env, w, who, 1, j);
      k := 1 + j;
      Overwrites(w.parts, who, one.parts[who], Judged(t, id));
    } else {
      var j := AloneOpens(env, one, who, t, id, p);
      GoAdds(env, w, who, 1, j);
      k := 1 + j;
      Overwrites(w.parts, who, one.parts[who], Judged(t, id));
    }
  }

  lemma AloneOpens(env: Env, w: World, who: nat, t: Ticket, id: string, p: Proposal) returns (k: nat)
    requires who in w.parts && w.parts[who] == Wants(t, id, Evaluating, ToDraft(p.content))
    requires id in w.board.candidates && w.board.candidates[id] == p
    requires p.stage in {Proposed, Stage.Deferred} && env.valid(p.content, p.name, p.workspace)
    ensures GoMany(env, w, who, k)
            == At(w.(board := Staged(w.board, id, p.(stage := Stage.Validated))), who, Judged(t, id))
  {
    var i := AloneMoves(env, w, who, t, id, Evaluating, ToDraft(p.content));
    var mid := GoMany(env, w, who, i);
    assert mid == At(w.(board := Staged(w.board, id, p.(stage := Evaluating))), who, Drafting(t, id, p.content));
    var j := AloneDrafts(env, mid, who, t, id, p.(stage := Evaluating));
    GoAdds(env, w, who, i, j);
    k := i + j;
    Overwrites(w.parts, who, mid.parts[who], Judged(t, id));
    assert Staged(mid.board, id, p.(stage := Stage.Validated)) == Staged(w.board, id, p.(stage := Stage.Validated));
  }

  /** Asking for an evaluated fork and closing its parent, alone. */
  lemma AloneAsks(env: Env, w: World, who: nat, t: Ticket, id: string, p: Proposal) returns (k: nat)
    requires who in w.parts && w.parts[who] == Judged(t, id) && id in w.board.candidates && w.board.candidates[id] == p
    ensures GoMany(env, w, who, k) == AskedFor(env, w, who, t, id, p)
  {
    var one := Gone(env, w, who);
    assert one == At(w, who, Found(t, id, p));
    var two := Gone(env, one, who);
    GoOnce(env, w, who);
    GoOnce(env, one, who);
    GoAdds(env, w, who, 1, 1);
    k := 2;
    Overwrites(w.parts, who, one.parts[who], one.parts[who]);
    if p.stage == Stage.Validated {
      Overwrites(w.parts, who, one.parts[who], two.parts[who]);
      Overwrites(w.parts, who, two.parts[who], two.parts[who]);
      var j := AloneMoves(env, two, who, t, t.request.candidate, Stage.Superseded, ToCommit(Some(t.call.newId)));
      GoAdds(env, w, who, 2, j);
      k := 2 + j;
    }
  }

  /** What asking and closing leave of a world. */
  function AskedFor(env: Env, w: World, who: nat, t: Ticket, id: string, p: Proposal): World {
    var asked := w.board.(requests := w.board.requests[t.call.newId := RequestFor(env, t, id, p)]);
    var e := Move(asked, t.request.candidate, Stage.Superseded);
    if p.stage != Stage.Validated then Done(w, who, t.call, None)
    else if e.ok then Done(w.(board := e.board), who, t.call, Some(t.call.newId))
    else Drop(w.(board := asked), who)
  }

  /** The fork's effect is the evaluated fork, asked for. */
  lemma ForkEffect(env: Env, w: World, who: nat, t: Ticket)
    requires Forkable(env, w.board, t) && t.call.response == Modify
    ensures var id, p := ForkId(env, t, Clean(env, t.call.modification).value), Successor(env, w.board, t);
            AskedFor(env, At(w.(board := Staged(w.board, id, p)), who, Judged(t, id)), who, t, id, p)
            == Effected(env, w, who, t)
  {
    var id := ForkId(env, t, Clean(env, t.call.modification).value);
    Overwrites(w.parts, who, Judged(t, id), Judged(t, id));
  }

  lemma AloneEvaluates(env: Env, w: World, who: nat, t: Ticket) returns (k: nat)
    requires who in w.parts && w.parts[who] == Ready(t) && t.call.response == Modify && Forkable(env, w.board, t)
    ensures var id, p := ForkId(env, t, Clean(env, t.call.modification).value), Successor(env, w.board, t);
            GoMany(env, w, who, k) == At(w.(board := Staged(w.board, id, p)), who, Judged(t, id))
  {
    var said := Clean(env, t.call.modification).value;
    var id, p := ForkId(env, t, said), Successor(env, w.board, t);
    var row := Inserted(w.board, id, ForkOf(env, w.board, t, said));
    var one := Gone(env, w, who);
    var two := Gone(env, one, who);
    GoOnce(env, w, who);
    GoOnce(env, one, who);
    GoAdds(env, w, who, 1, 1);
    Overwrites(w.parts, who, one.parts[who], Put(t, id));
    assert two == At(w.(board := Staged(w.board, id, row)), who, Put(t, id));
    var i := AloneJudges(env, two, who, t, id, row);
    GoAdds(env, w, who, 2, i);
    k := 2 + i;
    Overwrites(w.parts, who, two.parts[who], Judged(t, id));
    assert Staged(two.board, id, p) == Staged(w.board, id, p);
  }

  lemma AloneForks(env: Env, w: World, who: nat, t: Ticket) returns (k: nat)
    requires who in w.parts && w.parts[who] == Ready(t) && t.call.response == Modify
    ensures GoMany(env, w, who, k) == Effected(env, w, who, t)
  {
    if Forkable(env, w.board, t) {
      var id, p := ForkId(env, t, Clean(env, t.call.modification).value), Successor(env, w.board, t);
      var i := AloneEvaluates(env, w, who, t);
      var j := AloneAsks(env, GoMany(env, w, who, i), who, t, id, p);
      GoAdds(env, w, who, i, j);
      k := i + j;
      ForkEffect(env, w, who, t);
    } else {
      k := AloneForksNot(env, w, who, t);
    }
  }

  lemma AloneForksNot(env: Env, w: World, who: nat, t: Ticket) returns (k: nat)
    requires who in w.parts && w.parts[who] == Ready(t) && t.call.response == Modify && !Forkable(env, w.board, t)
    ensures GoMany(env, w, who, k) == Drop(w, who)
  {
    var one := Gone(env, w, who);
    GoOnce(env, w, who);
    k := 1;
    if Modifies(env, t) {
      GoOnce(env, one, who);
      GoAdds(env, w, who, 1, 1);
      k := 2;
      Overwrites(w.parts, who, one.parts[who], one.parts[who]);
    }
  }

  /** Left alone, a responder's single reads and writes add up to its effect. */
  lemma AloneIsEffect(env: Env, w: World, who: nat, t: Ticket) returns (k: nat)
    requires who in w.parts && w.parts[who] == Ready(t)
    ensures GoMany(env, w, who, k) == Effected(env, w, who, t)
  {
    match t.call.response
    case Approve => k := AloneApproves(env, w, who, t);
    case Reject => k := AloneMoves(env, w, who, t, t.request.candidate, Stage.Rejected, ToCommit(None));
    case Defer => k := AloneMoves(env, w, who, t, t.request.candidate, Stage.Deferred, ToCommit(None));
    case Modify => k := AloneForks(env, w, who, t);
  }

  /** The effect of a check that passed, committed. */
  lemma EffectCommitted(env: Env, w: World, who: nat, call: Call)
    requires who !in w.parts && who !in w.acted && Admits(env, w.board, call)
    ensures var t := TicketFor(env, w.board, call);
            Finished(env, Effected(env, At(w, who, Ready(t)), who, t), who)
                == w.(board := Respond(env, w.board, call))
  {
    var t := TicketFor(env, w.board, call);
    var e := Act(env, w.board, t);
    assert w.parts[who := Ready(t)] - {who} == w.parts;
    if e.ok { assert w.acted[who := (call, e.successor)] - {who} == w.acted; }
  }

  /** A response that nobody disturbs: checking, all its reads and writes, and committing are exactly one response. */
  lemma UndisturbedIsRespond(env: Env, w: World, who: nat, call: Call) returns (k: nat)
    requires who !in w.parts && who !in w.acted
    ensures Finished(env, GoMany(env, Checked(env, w, who, call), who, k), who)
        == w.(board := Respond(env, w.board, call))
  {
    var seen := Checked(env, w, who, call);
    k := 0;
    if who in seen.parts {
      var ready := Gone(env, seen, who);
      GoOnce(env, seen, who);
      k := 1;
      assert w.parts[who := Seen(call, w.board.requests[call.request])] - {who} == w.parts;
      if Admits(env, w.board, call) {
        var t := TicketFor(env, w.board, call);
        Overwrites(w.parts, who, seen.parts[who], Ready(t));
        assert ready == At(w, who, Ready(t)) && w.parts[who := Ready(t)] - {who} == w.parts;
        var j := AloneIsEffect(env, ready, who, t);
        GoAdds(env, seen, who, 1, j);
        k := 1 + j;
        EffectCommitted(env, w, who, call);
      }
    }
  }
}
