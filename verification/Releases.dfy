/** What racing responders publish: when it is what was asked for, and when no candidate is published twice. */
module Releases {
  import opened Common
  import opened Records
  import opened Approvals
  import opened ApprovalSafety
  import opened Responders
  import opened ApprovalRaces

  // ── Published as asked for ─────────────────────────────────────────────

  function RequestRead(part: Part): Request { if part.Seen? then part.request else part.ticket.request }

  /** The responder holds the terms of a stored request, and a candidate that matched them when it was read. */
  ghost predicate HoldsTerms(env: Env, b: Board, part: Part) {
    && CallOf(part).request in b.requests && SameTerms(b.requests[CallOf(part).request], RequestRead(part))
    && (!part.Seen? ==> Matches(env, part.ticket.request, part.ticket.proposal))
  }

  ghost predicate AllHoldTerms(env: Env, w: World) {
    forall who | who in w.parts :: HoldsTerms(env, w.board, w.parts[who])
  }

  /** A turn keeps a responder's call and what it has read, or reads matching rows. */
  lemma PartsComeFrom(env: Env, w: World, m: Turn, who: nat)
    requires who in Next(env, w, m).parts
    ensures var part := Next(env, w, m).parts[who];
            || (who in w.parts && SameReads(w.parts[who], part))
            || (who in w.parts && w.parts[who].Seen? && part.Ready? && part.ticket.call == w.parts[who].call
                && part.ticket.request == w.parts[who].request
                    && Matches(env, part.ticket.request, part.ticket.proposal))
            || (part.Seen? && Next(env, w, m).board == w.board && part.call.request in w.board.requests
                && part.request == w.board.requests[part.call.request])
  {
    if m.Other? || m.who != who {
      TurnTouchesOwn(env, w, m, who);
    } else if m.Go? {
      OwnReads(env, w, who);
    }
  }

  predicate SameReads(a: Part, b: Part) { (a.Seen? && a == b) || (!a.Seen? && !b.Seen? && a.ticket == b.ticket) }

  lemma OwnReads(env: Env, w: World, who: nat)
    requires who in w.parts && who in Gone(env, w, who).parts
    ensures var a, b := w.parts[who], Gone(env, w, who).parts[who];
            if a.Seen? then b.Ready? && b.ticket.call == a.call && b.ticket.request == a.request
                            && Matches(env, b.ticket.request, b.ticket.proposal)
            else SameReads(a, b)
  {
  }

  lemma TurnKeepsTerms(env: Env, w: World, m: Turn)
    requires MintsIn(w, m) && AllHoldTerms(env, w)
    ensures AllHoldTerms(env, Next(env, w, m))
  {
    var t := Next(env, w, m);
    TurnGuards(env, w, m);
    forall who | who in t.parts ensures HoldsTerms(env, t.board, t.parts[who]) {
      PartsComeFrom(env, w, m, who);
      if who in w.parts { TermsOutlast(env, w.board, t.board, w.parts[who]); }
    }
  }

  lemma TermsOutlast(env: Env, b: Board, after: Board, part: Part)
    requires HoldsTerms(env, b, part) && Guarded(b.requests, after.requests)
    ensures HoldsTerms(env, after, part)
  {
    assert SameTerms(b.requests[CallOf(part).request], after.requests[CallOf(part).request]);
  }

  lemma {:induction false} RaceKeepsTerms(env: Env, w: World, ms: seq<Turn>)
    requires RaceMints(env, w, ms) && AllHoldTerms(env, w)
    ensures AllHoldTerms(env, Race(env, w, ms))
  {
    if ms != [] {
      FrontMints(env, w, ms);
      RaceKeepsTerms(env, w, ms[..|ms| - 1]);
      TurnKeepsTerms(env, Race(env, w, ms[..|ms| - 1]), ms[|ms| - 1]);
    }
  }

  /** The publication is of the candidate, content and version anchor that its request was made for. */
  ghost predicate AsMade(env: Env, b: Board, p: Publication) {
    p.request in b.requests && p.candidate == b.requests[p.request].candidate
    && env.hash(p.content) == b.requests[p.request].hash && p.basedOn == b.requests[p.request].basedOn
  }

  /** The version a responder is about to write is not taken. */
  predicate WillPublish(w: World, who: nat) {
    && who in w.parts && w.parts[who].Publishing?
    && VersionOf(w.board, SkillOf(w.parts[who].row)) < w.parts[who].version
  }

  predicate ReadAsChecked(part: Part)
    requires part.Publishing?
  {
    part.row.content == part.ticket.proposal.content && part.row.basedOn == part.ticket.proposal.basedOn
  }

  lemma WriteIsAsMadeIff(env: Env, w: World, who: nat)
    requires Injective(env.hash) && WillPublish(w, who) && HoldsTerms(env, w.board, w.parts[who])
    ensures var after := Gone(env, w, who).board;
            && |after.published| == |w.board.published| + 1
            && (AsMade(env, after, after.published[|w.board.published|]) <==> ReadAsChecked(w.parts[who]))
  {
  }

  /** An approval reads the candidate again after its check: after any race, what it publishes is what its request was
      made for exactly when content and anchor of that reading are those of the check. */
  lemma RacePublishesAsMadeIff(env: Env, w: World, ms: seq<Turn>, who: nat)
    requires Injective(env.hash) && w.parts == map[] && RaceMints(env, w, ms) && WillPublish(Race(env, w, ms), who)
    ensures var t := Race(env, w, ms); var after := Gone(env, t, who).board;
            && |after.published| == |t.board.published| + 1
            && (AsMade(env, after, after.published[|t.board.published|]) <==> ReadAsChecked(t.parts[who]))
  {
    RaceKeepsTerms(env, w, ms);
    WriteIsAsMadeIff(env, Race(env, w, ms), who);
  }

  // ── Published once ─────────────────────────────────────────────────────

  ghost predicate IsReleased(b: Board, id: string) {
    exists k | 0 <= k < |b.published| :: b.published[k].candidate == id
  }

  /** No candidate is published twice, and a published one can no longer be approved. */
  ghost predicate ReleasedOnce(b: Board) {
    && (forall k | 0 <= k < |b.published| ::
          b.published[k].candidate in b.candidates && IsOver(b.candidates[b.published[k].candidate].stage))
    && (forall j, k | 0 <= j < k < |b.published| :: b.published[j].candidate != b.published[k].candidate)
  }

  /** An approver's candidate is stored. */
  predicate Stored(b: Board, part: Part) {
    part.Approving? || part.Publishing? ==> part.ticket.request.candidate in b.candidates
  }

  predicate AllStored(w: World) { forall who | who in w.parts :: Stored(w.board, w.parts[who]) }

  /** Edits by others follow the lifecycle: a stored candidate keeps its skill and moves only along its stages, none is
      deleted, and no skill's version goes back. */
  predicate Forward(b: Board, op: Op) {
    match op
    case Rewriting(id, p) =>
      id in b.candidates ==>
        && SkillOf(p) == SkillOf(b.candidates[id])
        && (p.stage == b.candidates[id].stage || CanMove(b.candidates[id].stage, p.stage))
    case Dropping(id) => id !in b.candidates
    case Republishing(id, s) => s.version >= VersionOf(b, id)
    case _ => true
  }

  predicate ForwardIn(w: World, m: Turn) { m.Other? ==> Forward(w.board, m.op) }

  /** A responder writes an open stage over a released candidate, or publishes a released candidate under a version
      that is still free. */
  ghost predicate Again(w: World, m: Turn) {
    && m.Go? && m.who in w.parts
    && match w.parts[m.who]
       case Holds(_, id, to, _) => id in w.board.candidates && IsReleased(w.board, id) && !IsOver(to)
       case Publishing(t, row, version) =>
         IsReleased(w.board, t.request.candidate) && VersionOf(w.board, SkillOf(row)) < version
       case _ => false
  }

  /** The board changes without a publication: candidates keep their skills, what is over stays over, versions grow. */
  ghost predicate Gentle(b: Board, t: Board) {
    && t.published == b.published
    && (forall id | id in b.candidates ::
          && id in t.candidates && SkillOf(t.candidates[id]) == SkillOf(b.candidates[id])
          && (IsOver(b.candidates[id].stage) ==> IsOver(t.candidates[id].stage)))
    && (forall s :: VersionOf(t, s) >= VersionOf(b, s))
  }

  lemma GentleReleasesOnce(b: Board, t: Board)
    requires ReleasedOnce(b) && Gentle(b, t)
    ensures ReleasedOnce(t) && forall id :: IsReleased(t, id) <==> IsReleased(b, id)
  {
    assert forall id :: IsReleased(t, id) <==> IsReleased(b, id);
  }

  lemma ReleasedNext(b: Board, t: Board, x: string)
    requires |t.published| == |b.published| + 1 && t.published[..|b.published|] == b.published
    ensures IsReleased(t, x) <==> IsReleased(b, x) || x == t.published[|b.published|].candidate
  {
    if k :| 0 <= k < |b.published| && b.published[k].candidate == x {
      assert t.published[..|b.published|][k] == t.published[k];
    }
    if k :| 0 <= k < |t.published| && t.published[k].candidate == x {
      if k < |b.published| { assert t.published[..|b.published|][k] == t.published[k]; }
    }
  }

  /** Publishing a stored candidate keeps publications single exactly when it has none yet. */
  lemma ReleasingOnceIff(env: Env, b: Board, id: string, row: Proposal, version: nat, call: Call)
    requires ReleasedOnce(b) && id in b.candidates
    ensures ReleasedOnce(Released(env, b, id, row, version, call)) <==> !IsReleased(b, id)
  {
    var t := Released(env, b, id, row, version, call);
    var n := |b.published|;
    assert forall k | 0 <= k < n :: t.published[k] == b.published[k];
    if k :| 0 <= k < n && b.published[k].candidate == id {
      assert t.published[k].candidate == t.published[n].candidate;
    }
  }

  /** Writing a stage keeps what is released over exactly when the stage is a final one or nothing is released there. */
  lemma StageOnceIff(b: Board, id: string, to: Stage)
    requires ReleasedOnce(b) && id in b.candidates
    ensures ReleasedOnce(WithStage(b, id, to)) <==> !IsReleased(b, id) || IsOver(to)
  {
    var t := WithStage(b, id, to);
    if k :| 0 <= k < |b.published| && b.published[k].candidate == id { assert t.published[k].candidate == id; }
  }

  // ── Moves and steps that publish nothing ───────────────────────────────

  lemma PutForkIsGentle(env: Env, w: World, who: nat, t: Ticket, anchor: Option<nat>)
    ensures Gentle(w.board, PutFork(env, w, who, t, anchor).board)
  {
  }

  lemma WriteDraftIsGentle(w: World, who: nat, t: Ticket, id: string, content: string)
    ensures Gentle(w.board, WriteDraft(w, who, t, id, content).board)
  {
  }

  lemma MovesAreGentle(env: Env, w: World, who: nat)
    requires who in w.parts && !w.parts[who].Holds? && !w.parts[who].Approving? && !w.parts[who].Publishing?
    ensures var t := Gone(env, w, who);
            Gentle(w.board, t.board)
  {
    match w.parts[who]
    case Forking(t, anchor) => PutForkIsGentle(env, w, who, t, anchor);
    case Drafted(t, id, content) => WriteDraftIsGentle(w, who, t, id, content);
    case _ =>
  }

  lemma StepIsGentle(env: Env, b: Board, op: Op)
    requires Forward(b, op) && !(op.Answering? && Succeeds(env, b, op.call) && op.call.response == Approve)
    ensures Gentle(b, Step(env, b, op))
  {
    if op.Answering? && Admits(env, b, op.call) {
      ActIsGentle(env, b, TicketFor(env, b, op.call));
    }
  }

  lemma ActIsGentle(env: Env, b: Board, t: Ticket)
    requires !(t.call.response == Approve && Act(env, b, t).ok)
    ensures Gentle(b, Act(env, b, t).board)
  {
    if t.call.response == Modify { ForkIsGentle(env, b, t); }
  }

  lemma MoveIsGentle(b: Board, id: string, to: Stage)
    ensures Gentle(b, Move(b, id, to).board)
  {
  }

  lemma ForkIsGentle(env: Env, b: Board, t: Ticket)
    ensures Gentle(b, Fork(env, b, t).board)
  {
    if Forkable(env, b, t) {
      var id, p := ForkId(env, t, Clean(env, t.call.modification).value), Successor(env, b, t);
      var forked := b.(candidates := b.candidates[id := p]);
      assert Gentle(b, forked);
      if p.stage == Stage.Validated {
        var asked := forked.(requests := Fork(env, b, t).board.requests);
        MoveIsGentle(asked, t.request.candidate, Stage.Superseded);
      }
    }
  }

  // ── Turn by turn ───────────────────────────────────────────────────────

  predicate IsApproval(env: Env, b: Board, op: Op) {
    op.Answering? && Succeeds(env, b, op.call) && op.call.response == Approve
  }

  lemma AnswerReleasesOnce(env: Env, b: Board, call: Call)
    requires ReleasedOnce(b) && IsApproval(env, b, Answering(call))
    ensures ReleasedOnce(Respond(env, b, call))
  {
    var id := b.requests[call.request].candidate;
    var p := b.candidates[id];
    var mid := Released(env, b, id, p, VersionOf(b, SkillOf(p)) + 1, call);
    assert forall k | 0 <= k < |b.published| :: b.published[k].candidate != id;
    ReleasingOnceIff(env, b, id, p, VersionOf(b, SkillOf(p)) + 1, call);
    assert Act(env, b, TicketFor(env, b, call)).board == mid;
    GentleReleasesOnce(mid, Respond(env, b, call));
  }

  lemma StepReleasesOnce(env: Env, b: Board, op: Op)
    requires ReleasedOnce(b) && Forward(b, op)
    ensures ReleasedOnce(Step(env, b, op))
  {
    if IsApproval(env, b, op) {
      AnswerReleasesOnce(env, b, op.call);
    } else {
      StepIsGentle(env, b, op);
      GentleReleasesOnce(b, Step(env, b, op));
    }
  }

  lemma GoReleasesOnceIff(env: Env, w: World, who: nat)
    requires ReleasedOnce(w.board) && AllStored(w) && who in w.parts
    ensures ReleasedOnce(Gone(env, w, who).board) <==> !Again(w, Go(who))
  {
    var part, t := w.parts[who], Gone(env, w, who);
    if part.Holds? {
      if part.id in w.board.candidates { StageOnceIff(w.board, part.id, part.to); }
    } else if part.Publishing? {
      assert Stored(w.board, part);
      if WillPublish(w, who) {
        ReleasingOnceIff(env, w.board, part.ticket.request.candidate, part.row, part.version, part.ticket.call);
      }
    } else if !part.Approving? {
      MovesAreGentle(env, w, who);
      GentleReleasesOnce(w.board, t.board);
    }
  }

  /** A turn leaves each candidate published at most once, and what is published over, exactly when it does not
      publish or reopen a released one. */
  lemma TurnReleasesOnceIff(env: Env, w: World, m: Turn)
    requires ReleasedOnce(w.board) && AllStored(w) && ForwardIn(w, m)
    ensures ReleasedOnce(Next(env, w, m).board) <==> !Again(w, m)
  {
    match m
    case Check(who, call) => GentleReleasesOnce(w.board, Next(env, w, m).board);
    case Go(who) => if who in w.parts { GoReleasesOnceIff(env, w, who); }
    case Finish(who) => GentleReleasesOnce(w.board, Next(env, w, m).board);
    case Other(op) => StepReleasesOnce(env, w.board, op);
  }

  // ── Candidates stay ────────────────────────────────────────────────────

  lemma GoKeepsCandidates(env: Env, w: World, who: nat)
    requires who in w.parts
    ensures forall id | id in w.board.candidates :: id in Gone(env, w, who).board.candidates
  {
    var part := w.parts[who];
    if !part.Holds? && !part.Approving? && !part.Publishing? { MovesAreGentle(env, w, who); }
  }

  lemma OwnStored(env: Env, w: World, who: nat)
    requires who in w.parts && who in Gone(env, w, who).parts && Stored(w.board, w.parts[who])
    ensures Stored(w.board, Gone(env, w, who).parts[who])
  {
  }

  lemma StepKeepsCandidates(env: Env, b: Board, op: Op)
    requires Forward(b, op)
    ensures forall id | id in b.candidates :: id in Step(env, b, op).candidates
  {
    if !IsApproval(env, b, op) { StepIsGentle(env, b, op); }
  }

  lemma TurnKeepsStored(env: Env, w: World, m: Turn)
    requires AllStored(w) && ForwardIn(w, m)
    ensures AllStored(Next(env, w, m))
  {
    var t := Next(env, w, m);
    if m.Other? { StepKeepsCandidates(env, w.board, m.op); }
    if m.Go? && m.who in w.parts { GoKeepsCandidates(env, w, m.who); }
    forall who | who in t.parts ensures Stored(t.board, t.parts[who]) {
      if m.Other? || m.who != who {
        TurnTouchesOwn(env, w, m, who);
      } else if m.Go? {
        OwnStored(env, w, who);
      }
    }
  }

  ghost predicate RaceForward(env: Env, w: World, ms: seq<Turn>) {
    forall i | 0 <= i < |ms| :: ForwardIn(Race(env, w, ms[..i]), ms[i])
  }

  lemma {:induction false} StoredUpTo(env: Env, w: World, ms: seq<Turn>, n: nat)
    requires n <= |ms| && RaceForward(env, w, ms) && AllStored(w)
    ensures AllStored(Race(env, w, ms[..n]))
  {
    if n > 0 {
      StoredUpTo(env, w, ms, n - 1);
      assert ms[..n][..n - 1] == ms[..n - 1];
      TurnKeepsStored(env, Race(env, w, ms[..n - 1]), ms[n - 1]);
    }
  }

  // ── The theorem ────────────────────────────────────────────────────────

  ghost predicate AgainAt(env: Env, w: World, ms: seq<Turn>, i: nat) { i < |ms| && Again(Race(env, w, ms[..i]), ms[i]) }

  ghost predicate ReleasedOnceThroughout(env: Env, w: World, ms: seq<Turn>) {
    forall i | 0 <= i <= |ms| :: ReleasedOnce(Race(env, w, ms[..i]).board)
  }

  lemma OnceNext(env: Env, w: World, ms: seq<Turn>, i: nat)
    requires i < |ms| && RaceForward(env, w, ms) && AllStored(w) && ReleasedOnce(Race(env, w, ms[..i]).board)
    ensures ReleasedOnce(Race(env, w, ms[..i + 1]).board) <==> !AgainAt(env, w, ms, i)
  {
    assert ms[..i + 1][..i] == ms[..i];
    StoredUpTo(env, w, ms, i);
    TurnReleasesOnceIff(env, Race(env, w, ms[..i]), ms[i]);
  }

  lemma {:induction false} OnceUpTo(env: Env, w: World, ms: seq<Turn>, n: nat)
    requires n <= |ms| && RaceForward(env, w, ms) && AllStored(w) && ReleasedOnce(w.board)
    requires forall i: nat | i < n :: !AgainAt(env, w, ms, i)
    ensures ReleasedOnce(Race(env, w, ms[..n]).board)
  {
    if n > 0 {
      OnceUpTo(env, w, ms, n - 1);
      OnceNext(env, w, ms, n - 1);
    }
  }

  /** Throughout a race no candidate is published twice and none that was published becomes approvable again,
      exactly when no responder writes an open stage over a released candidate or meets a free version for one. */
  lemma RaceReleasesOnceIff(env: Env, w: World, ms: seq<Turn>)
    requires RaceForward(env, w, ms) && AllStored(w) && ReleasedOnce(w.board)
    ensures ReleasedOnceThroughout(env, w, ms) <==> forall i: nat | i < |ms| :: !AgainAt(env, w, ms, i)
  {
    if forall i: nat | i < |ms| :: !AgainAt(env, w, ms, i) {
      forall n | 0 <= n <= |ms| ensures ReleasedOnce(Race(env, w, ms[..n]).board) { OnceUpTo(env, w, ms, n); }
    } else {
      var i: nat :| i < |ms| && AgainAt(env, w, ms, i);
      if ReleasedOnceThroughout(env, w, ms) { OnceNext(env, w, ms, i); }
    }
  }

  // ── Where it begins ────────────────────────────────────────────────────

  /** A late move: a stage that was read before the candidate was released is written after it, or an approver that read
      the candidate before it was released goes on to plan a version. */
  ghost predicate Late(w: World, m: Turn) {
    && m.Go? && m.who in w.parts
    && match w.parts[m.who]
       case Holds(_, id, to, _) => id in w.board.candidates && IsReleased(w.board, id) && !IsOver(to)
       case Approving(t, row) => IsReleased(w.board, t.request.candidate) && Extends(w.board, row, t.call.gates)
       case _ => false
  }

  /** An approver's reading is of the stored candidate's skill; its planned version is not past the next one, and is
      taken already if the candidate has been released since. */
  ghost predicate Sane(b: Board, part: Part) {
    part.Approving? || part.Publishing? ==>
      && part.ticket.request.candidate in b.candidates
      && SkillOf(part.row) == SkillOf(b.candidates[part.ticket.request.candidate])
      && (part.Publishing? ==>
            && part.version <= VersionOf(b, SkillOf(part.row)) + 1
            && (IsReleased(b, part.ticket.request.candidate) ==> part.version <= VersionOf(b, SkillOf(part.row))))
  }

  ghost predicate Safe(w: World) { ReleasedOnce(w.board) && forall who | who in w.parts :: Sane(w.board, w.parts[who]) }

  lemma GentleKeepsSane(b: Board, t: Board, part: Part)
    requires ReleasedOnce(b) && Gentle(b, t) && Sane(b, part)
    ensures Sane(t, part)
  {
    GentleReleasesOnce(b, t);
  }

  /** A first publication under the next or a later version. */
  lemma ReleaseKeepsSane(env: Env, b: Board, id: string, row: Proposal, version: nat, call: Call, part: Part)
    requires id in b.candidates && SkillOf(row) == SkillOf(b.candidates[id]) && VersionOf(b, SkillOf(row)) < version
    requires Sane(b, part)
    ensures Sane(Released(env, b, id, row, version, call), part)
  {
    var t := Released(env, b, id, row, version, call);
    if part.Publishing? { ReleasedNext(b, t, part.ticket.request.candidate); }
  }

  lemma StageKeepsSane(b: Board, id: string, to: Stage, part: Part)
    requires id in b.candidates && Sane(b, part)
    ensures Sane(WithStage(b, id, to), part)
  {
    assert forall x :: IsReleased(WithStage(b, id, to), x) <==> IsReleased(b, x);
  }

  /** A move that is not late leaves what every responder has read up to date. */
  lemma GoKeepsSane(env: Env, w: World, who: nat, part: Part)
    requires Safe(w) && who in w.parts && Sane(w.board, part)
    ensures Sane(Gone(env, w, who).board, part)
  {
    var p := w.parts[who];
    if p.Holds? {
      if p.id in w.board.candidates { StageKeepsSane(w.board, p.id, p.to, part); }
    } else if p.Publishing? {
      if WillPublish(w, who) {
        ReleaseKeepsSane(env, w.board, p.ticket.request.candidate, p.row, p.version, p.ticket.call, part);
      }
    } else if !p.Approving? {
      MovesAreGentle(env, w, who);
      GentleKeepsSane(w.board, Gone(env, w, who).board, part);
    }
  }

  /** What a responder reads is as the board has it, unless it plans late. */
  lemma OwnSane(env: Env, w: World, who: nat)
    requires Safe(w) && who in w.parts && !Late(w, Go(who)) && who in Gone(env, w, who).parts
    ensures Sane(w.board, Gone(env, w, who).parts[who])
  {
  }

  lemma StepKeepsSane(env: Env, b: Board, op: Op, part: Part)
    requires ReleasedOnce(b) && Forward(b, op) && Sane(b, part)
    ensures Sane(Step(env, b, op), part)
  {
    if IsApproval(env, b, op) {
      var call := op.call;
      var id := b.requests[call.request].candidate;
      var p := b.candidates[id];
      ReleaseKeepsSane(env, b, id, p, VersionOf(b, SkillOf(p)) + 1, call, part);
      AnswerReleasesOnce(env, b, call);
      var mid := Released(env, b, id, p, VersionOf(b, SkillOf(p)) + 1, call);
      assert Act(env, b, TicketFor(env, b, call)).board == mid;
    } else {
      StepIsGentle(env, b, op);
      GentleKeepsSane(b, Step(env, b, op), part);
    }
  }

  lemma AgainIsLateIn(w: World, m: Turn)
    requires Safe(w) && Again(w, m)
    ensures Late(w, m)
  {
    assert Sane(w.board, w.parts[m.who]);
  }

  lemma TurnKeepsSafe(env: Env, w: World, m: Turn)
    requires Safe(w) && ForwardIn(w, m) && !Late(w, m)
    ensures Safe(Next(env, w, m))
  {
    var t := Next(env, w, m);
    assert AllStored(w);
    if Again(w, m) { AgainIsLateIn(w, m); }
    TurnReleasesOnceIff(env, w, m);
    forall who | who in t.parts ensures Sane(t.board, t.parts[who]) { TurnKeepsSane(env, w, m, who); }
  }

  lemma TurnKeepsSane(env: Env, w: World, m: Turn, who: nat)
    requires Safe(w) && ForwardIn(w, m) && !Late(w, m) && who in Next(env, w, m).parts
    ensures Sane(Next(env, w, m).board, Next(env, w, m).parts[who])
  {
    var t := Next(env, w, m);
    if m.Other? || m.who != who { TurnTouchesOwn(env, w, m, who); }
    match m
    case Check(_, _) => if who in w.parts { GentleKeepsSane(w.board, t.board, w.parts[who]); }
    case Go(mover) =>
      if mover in w.parts {
        if mover == who { OwnSane(env, w, who); }
        GoKeepsSane(env, w, mover, t.parts[who]);
      }
    case Finish(_) => GentleKeepsSane(w.board, t.board, w.parts[who]);
    case Other(op) => StepKeepsSane(env, w.board, op, w.parts[who]);
  }

  ghost predicate LateAt(env: Env, w: World, ms: seq<Turn>, i: nat) { i < |ms| && Late(Race(env, w, ms[..i]), ms[i]) }

  lemma {:induction false} SafeUpTo(env: Env, w: World, ms: seq<Turn>, n: nat)
    requires n <= |ms| && RaceForward(env, w, ms) && Safe(w) && forall i: nat | i < n :: !LateAt(env, w, ms, i)
    ensures Safe(Race(env, w, ms[..n]))
  {
    if n > 0 {
      SafeUpTo(env, w, ms, n - 1);
      assert ms[..n][..n - 1] == ms[..n - 1] && !LateAt(env, w, ms, n - 1);
      TurnKeepsSafe(env, Race(env, w, ms[..n - 1]), ms[n - 1]);
    }
  }

  /** Every second publication and every reopening goes back to a late move: without one, each candidate is published
      at most once. */
  lemma AgainIsLate(env: Env, w: World, ms: seq<Turn>, i: nat)
    requires RaceForward(env, w, ms) && Safe(w) && AgainAt(env, w, ms, i)
    ensures exists j: nat :: j <= i && LateAt(env, w, ms, j)
  {
    if forall j: nat | j < i :: !LateAt(env, w, ms, j) {
      SafeUpTo(env, w, ms, i);
      AgainIsLateIn(Race(env, w, ms[..i]), ms[i]);
      assert LateAt(env, w, ms, i);
    }
  }
}
