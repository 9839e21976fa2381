/** Concrete races on the failing side of the exact conditions for publications. */
module RaceWitnesses {
  import opened Common
  import opened Records
  import opened Approvals
  import opened ApprovalSafety
  import opened Responders
  import opened Releases

  /** One validated candidate, one pending request for it. */
  function Start(): Board {
    Board(map["a" := PlainProposal("a", Stage.Validated)], map["r" := PlainRequest("a")], map[], [])
  }

  function Answer(request: string, response: Response): Call {
    Call(request, "w", None, response, None, None, true, true, "new", 0)
  }

  function TicketAt(response: Response): Ticket {
    Ticket(Answer("r", response), PlainRequest("a"), PlainProposal("a", Stage.Validated))
  }

  function Idle(): World { World(Start(), map[], map[]) }

  lemma RaceTo(env: Env, w: World, ms: seq<Turn>, m: Turn, mid: World, after: World)
    requires Race(env, w, ms) == mid && Next(env, mid, m) == after
    ensures Race(env, w, ms + [m]) == after
  {
    assert (ms + [m])[..|ms|] == ms;
  }

  // ── Both ready ─────────────────────────────────────────────────────────

  /** Responder 0, who answers `response`, and responder 1, who approves, have both passed their checks. */
  function BothReady(response: Response): World {
    World(Start(), map[0 := Ready(TicketAt(response)), 1 := Ready(TicketAt(Approve))], map[])
  }

  function Checks(response: Response): seq<Turn> {
    [Check(0, Answer("r", response))] + [Check(1, Answer("r", Approve))] + [Go(0)] + [Go(1)]
  }

  lemma ChecksPass(response: Response)
    ensures Race(PlainEnv(), Idle(), Checks(response)) == BothReady(response)
  {
    var env := PlainEnv();
    var c0, c1 := Check(0, Answer("r", response)), Check(1, Answer("r", Approve));
    var seen0, seen1 := Seen(Answer("r", response), PlainRequest("a")), Seen(Answer("r", Approve), PlainRequest("a"));
    var w1 := World(Start(), map[0 := seen0], map[]);
    var w2 := World(Start(), map[0 := seen0, 1 := seen1], map[]);
    var w3 := World(Start(), map[0 := Ready(TicketAt(response)), 1 := seen1], map[]);
    RaceTo(env, Idle(), [], c0, Idle(), w1);
    assert [] + [c0] == [c0];
    RaceTo(env, Idle(), [c0], c1, w1, w2);
    RaceTo(env, Idle(), [c0] + [c1], Go(0), w2, w3);
    RaceTo(env, Idle(), [c0] + [c1] + [Go(0)], Go(1), w3, BothReady(response));
  }

  // ── The second publishes while the first is under way ──────────────────

  /** The board after the first publication. */
  function Once(): Board {
    Released(PlainEnv(), Start(), "a", PlainProposal("a", Stage.Validated), 1, Answer("r", Approve))
  }

  /** Responder 1 goes through to the end of its effect while responder 0 stands at `part`. */
  lemma SecondPublishes(ms: seq<Turn>, part: Part)
    requires Race(PlainEnv(), Idle(), ms) == World(Start(), map[0 := part, 1 := Ready(TicketAt(Approve))], map[])
    ensures Race(PlainEnv(), Idle(), ms + [Go(1)] + [Go(1)] + [Go(1)])
            == World(Once(), map[0 := part], map[1 := (Answer("r", Approve), None)])
  {
    var env, t, p := PlainEnv(), TicketAt(Approve), PlainProposal("a", Stage.Validated);
    var w0 := World(Start(), map[0 := part, 1 := Ready(t)], map[]);
    var w1 := World(Start(), map[0 := part, 1 := Approving(t, p)], map[]);
    var w2 := World(Start(), map[0 := part, 1 := Publishing(t, p, 1)], map[]);
    RaceTo(env, Idle(), ms, Go(1), w0, w1);
    RaceTo(env, Idle(), ms + [Go(1)], Go(1), w1, w2);
    assert w2.parts - {1} == map[0 := part];
    RaceTo(env, Idle(), ms + [Go(1)] + [Go(1)], Go(1), w2,
        World(Once(), map[0 := part], map[1 := (Answer("r", Approve), None)]));
  }

  ghost predicate PublishedTwice(b: Board) {
    |b.published| == 2 && b.published[0].candidate == b.published[1].candidate
  }

  // ── Two approvals ──────────────────────────────────────────────────────

  /** Both approvers read the candidate and one publishes it as version 1. */
  function FirstApproval(): seq<Turn> { Checks(Approve) + [Go(0)] + [Go(1)] + [Go(1)] + [Go(1)] }

  function Planned(version: nat): World {
    var part := Publishing(TicketAt(Approve), PlainProposal("a", Stage.Validated), version);
    World(Once(), map[0 := part], map[1 := (Answer("r", Approve), None)])
  }

  function Unplanned(): World {
    Planned(2).(parts := map[0 := Approving(TicketAt(Approve), PlainProposal("a", Stage.Validated))])
  }

  /** The other then plans version 2. */
  lemma SecondPlans()
    ensures Race(PlainEnv(), Idle(), FirstApproval()) == Unplanned()
    ensures Race(PlainEnv(), Idle(), FirstApproval() + [Go(0)]) == Planned(2)
  {
    var env, t, p := PlainEnv(), TicketAt(Approve), PlainProposal("a", Stage.Validated);
    ChecksPass(Approve);
    RaceTo(env, Idle(), Checks(Approve), Go(0), BothReady(Approve),
           World(Start(), map[0 := Approving(t, p), 1 := Ready(t)], map[]));
    SecondPublishes(Checks(Approve) + [Go(0)], Approving(t, p));
    RaceTo(env, Idle(), FirstApproval(), Go(0), Unplanned(), Planned(2));
  }

  /** It writes its version: the same candidate is published twice. */
  lemma TwoApprovalsPublishTwice()
    ensures PublishedTwice(Race(PlainEnv(), Idle(), FirstApproval() + [Go(0)] + [Go(0)]).board)
  {
    SecondPlans();
    RaceTo(PlainEnv(), Idle(), FirstApproval() + [Go(0)], Go(0), Planned(2), Gone(PlainEnv(), Planned(2), 0));
  }

  function Overtaking(): Turn {
    Other(Republishing(SkillOf(PlainProposal("a", Stage.Validated)), Skill(true, 2, "a")))
  }

  /** Had somebody else published version 2 meanwhile, its write would have been refused: a late plan need not
      publish. */
  lemma LatePlanIsRefused()
    ensures Late(Race(PlainEnv(), Idle(), FirstApproval()), Go(0))
    ensures var b := Race(PlainEnv(), Idle(), FirstApproval() + [Go(0)] + [Overtaking()] + [Go(0)]).board;
            |b.published| == 1 && ReleasedOnce(b)
  {
    var env, ms := PlainEnv(), FirstApproval() + [Go(0)];
    SecondPlans();
    assert Once().published[0].candidate == "a";
    assert IsReleased(Once(), "a");
    var overtaken := Next(env, Planned(2), Overtaking());
    RaceTo(env, Idle(), ms, Overtaking(), Planned(2), overtaken);
    RaceTo(env, Idle(), ms + [Overtaking()], Go(0), overtaken, Drop(overtaken, 0));
  }

  // ── A deferral and an approval ─────────────────────────────────────────

  function StageTo(stage: Stage): Turn { Other(Rewriting("a", PlainProposal("a", stage))) }

  function DeferAndApprove(): seq<Turn> {
    Checks(Defer) + [Go(0)] + [Go(1)] + [Go(1)] + [Go(1)] + [Finish(1)] + [Go(0)]
  }

  function AskAgain(): seq<Turn> {
    Reopening() + [Other(Op.Asking("a", "w", None, "approve", "r2", 0))] + [Other(Answering(Answer("r2", Approve)))]
  }

  /** The deferral's late write: the released candidate is deferred. */
  function Revived(): Board {
    Once().(candidates := map["a" := PlainProposal("a", Stage.Deferred)],
            requests := map["r" := Answered(PlainEnv(), PlainRequest("a"), Answer("r", Approve), None)])
  }

  lemma DeferralRevives()
    ensures Race(PlainEnv(), Idle(), DeferAndApprove()).board == Revived()
  {
    var env, t := PlainEnv(), TicketAt(Defer);
    var part := Holds(t, "a", Stage.Deferred, ToCommit(None));
    var ms := Checks(Defer) + [Go(0)];
    ChecksPass(Defer);
    RaceTo(env, Idle(), Checks(Defer), Go(0), BothReady(Defer),
           World(Start(), map[0 := part, 1 := Ready(TicketAt(Approve))], map[]));
    SecondPublishes(ms, part);
    var w1 := World(Once(), map[0 := part], map[1 := (Answer("r", Approve), None)]);
    var w2 := Finished(env, w1, 1);
    RaceTo(env, Idle(), ms + [Go(1)] + [Go(1)] + [Go(1)], Finish(1), w1, w2);
    RaceTo(env, Idle(), ms + [Go(1)] + [Go(1)] + [Go(1)] + [Finish(1)], Go(0), w2, Gone(env, w2, 0));
    assert w2.board.candidates["a"] == PlainProposal("a", Live);
  }

  lemma OnBoard(env: Env, w: World, ms: seq<Turn>, op: Op, b: Board, after: Board)
    requires Race(env, w, ms).board == b && Step(env, b, op) == after
    ensures Race(env, w, ms + [Other(op)]).board == after
  {
    assert (ms + [Other(op)])[..|ms|] == ms;
  }

  function Reopened(stage: Stage): Board { Revived().(candidates := map["a" := PlainProposal("a", stage)]) }

  function Asked(): Board { Reopened(Stage.Validated).(requests := Revived().requests["r2" := PlainRequest("a")]) }

  lemma RevivedIsAsked()
    ensures Step(PlainEnv(), Reopened(Stage.Validated), Op.Asking("a", "w", None, "approve", "r2", 0)) == Asked()
  {
  }

  lemma RevivedIsPublished()
    ensures PublishedTwice(Step(PlainEnv(), Asked(), Answering(Answer("r2", Approve))))
  {
  }

  function Reopening(): seq<Turn> {
    DeferAndApprove() + [StageTo(Evaluating)] + [StageTo(Draft)] + [StageTo(Stage.Validated)]
  }

  lemma Restages(ms: seq<Turn>, from: Stage, to: Stage)
    requires Race(PlainEnv(), Idle(), ms).board == Reopened(from)
    ensures Race(PlainEnv(), Idle(), ms + [StageTo(to)]).board == Reopened(to)
  {
    OnBoard(PlainEnv(), Idle(), ms, StageTo(to).op, Reopened(from), Reopened(to));
  }

  lemma RevivedIsValidated()
    ensures Race(PlainEnv(), Idle(), Reopening()).board == Reopened(Stage.Validated)
  {
    var ms := DeferAndApprove();
    DeferralRevives();
    assert Revived() == Reopened(Stage.Deferred);
    Restages(ms, Stage.Deferred, Evaluating);
    Restages(ms + [StageTo(Evaluating)], Evaluating, Draft);
    Restages(ms + [StageTo(Evaluating)] + [StageTo(Draft)], Draft, Stage.Validated);
  }

  /** From there it is evaluated, asked for and approved again: the same candidate is published twice. */
  lemma DeferralPublishesTwice()
    ensures PublishedTwice(Race(PlainEnv(), Idle(), AskAgain()).board)
  {
    var env, ask, answer := PlainEnv(), Op.Asking("a", "w", None, "approve", "r2", 0), Answering(Answer("r2", Approve));
    RevivedIsValidated();
    RevivedIsAsked();
    OnBoard(env, Idle(), Reopening(), ask, Reopened(Stage.Validated), Asked());
    RevivedIsPublished();
    OnBoard(env, Idle(), Reopening() + [Other(ask)], answer, Asked(), Step(env, Asked(), answer));
  }

  // ── Content changed after the check ────────────────────────────────────

  function EditedRace(): seq<Turn> {
    Checks(Approve) + [Other(Rewriting("a", PlainProposal("other", Stage.Validated)))] + [Go(0)] + [Go(0)] + [Go(0)]
  }

  function Edited(): Board { Start().(candidates := map["a" := PlainProposal("other", Stage.Validated)]) }

  function AboutToWrite(): World {
    var t := TicketAt(Approve);
    World(Edited(), map[0 := Publishing(t, PlainProposal("other", Stage.Validated), 1), 1 := Ready(t)], map[])
  }

  lemma EditedRaceReaches()
    ensures Race(PlainEnv(), Idle(),
                 Checks(Approve) + [Other(Rewriting("a", PlainProposal("other", Stage.Validated)))] + [Go(0)] + [Go(0)])
            == AboutToWrite()
  {
    var env, t, p := PlainEnv(), TicketAt(Approve), PlainProposal("other", Stage.Validated);
    var edit := Other(Rewriting("a", p));
    var w1 := World(Edited(), map[0 := Ready(t), 1 := Ready(t)], map[]);
    ChecksPass(Approve);
    RaceTo(env, Idle(), Checks(Approve), edit, BothReady(Approve), w1);
    EditedGoes(Checks(Approve) + [edit]);
  }

  lemma EditedGoes(ms: seq<Turn>)
    requires Race(PlainEnv(), Idle(), ms)
             == World(Edited(), map[0 := Ready(TicketAt(Approve)), 1 := Ready(TicketAt(Approve))], map[])
    ensures Race(PlainEnv(), Idle(), ms + [Go(0)] + [Go(0)]) == AboutToWrite()
  {
    var env, t, p := PlainEnv(), TicketAt(Approve), PlainProposal("other", Stage.Validated);
    var w2 := World(Edited(), map[0 := Approving(t, p), 1 := Ready(t)], map[]);
    RaceTo(env, Idle(), ms, Go(0), World(Edited(), map[0 := Ready(t), 1 := Ready(t)], map[]), w2);
    RaceTo(env, Idle(), ms + [Go(0)], Go(0), w2, AboutToWrite());
  }

  lemma WriteIsUnasked()
    ensures var b := Gone(PlainEnv(), AboutToWrite(), 0).board;
            |b.published| == 1 && !AsMade(PlainEnv(), b, b.published[0])
  {
    var b := Gone(PlainEnv(), AboutToWrite(), 0).board;
    assert b.published[0].content == "other" && b.requests["r"].hash == "a";
  }

  /** Somebody rewrites the candidate between check and effect: what is published is not what the request was made
      for. */
  lemma EditIsPublishedUnasked()
    ensures var b := Race(PlainEnv(), Idle(), EditedRace()).board;
            |b.published| == 1 && !AsMade(PlainEnv(), b, b.published[0])
  {
    EditedRaceReaches();
    WriteIsUnasked();
    var ms := Checks(Approve) + [Other(Rewriting("a", PlainProposal("other", Stage.Validated)))] + [Go(0)] + [Go(0)];
    RaceTo(PlainEnv(), Idle(), ms, Go(0), AboutToWrite(), Gone(PlainEnv(), AboutToWrite(), 0));
  }
}
