/** One request, modified by two responders at once: its fork ends with two live requests. */
module DoubleWitness {
  import opened Common
  import opened Records
  import opened Approvals
  import opened ApprovalSafety
  import opened Responders
  import opened RaceWitnesses

  /** The request is answered: make it "b". */
  function Change(who: nat): Call {
    Call("r", "w", None, Modify, Some("use b"), Some("b"), true, true, if who == 0 then "n0" else "n1", who)
  }

  function TicketOf(who: nat): Ticket {
    Ticket(Change(who), PlainRequest("a"), PlainProposal("a", Stage.Validated))
  }

  /** A validated candidate with a pending request, and another one with the content "b". */
  function Desk(stage: Stage): Board {
    Start().(candidates := map["a" := PlainProposal("a", Stage.Validated), "b" := PlainProposal("b", stage)])
  }

  function Begun(): World { World(Desk(Evaluating), map[], map[]) }

  /** The two responders take turns. */
  function InStep(n: nat): seq<Turn> {
    if n == 0 then [Check(0, Change(0))] + [Check(1, Change(1))] else InStep(n - 1) + [Go(0)] + [Go(1)]
  }

  /** A responder's state after `n` moves. */
  function PartAt(who: nat, n: nat): Part {
    var t := TicketOf(who);
    match n
    case 0 => Seen(t.call, t.request)
    case 1 => Ready(t)
    case 2 => Forking(t, None)
    case 3 => Put(t, "b")
    case 4 => Drafting(t, "b", "b")
    case 5 => Drafted(t, "b", "b")
    case 6 => Wants(t, "b", Stage.Validated, ToJudged)
    case 7 => Holds(t, "b", Stage.Validated, ToJudged)
    case 8 => Judged(t, "b")
    case 9 => Found(t, "b", PlainProposal("b", Stage.Validated))
    case _ => Wants(t, "a", Stage.Superseded, ToCommit(Some(t.call.newId)))
  }

  /** The requests when responder 0 has made `i` moves and responder 1 `j`, one fewer or as many. */
  function RequestsAt(i: nat, j: nat): Requests {
    if i < 10 then Start().requests
    else if j < 10 then Start().requests["n0" := Row(0)]
    else Start().requests["n0" := Row(0)]["n1" := Row(1)]
  }

  function BoardAt(i: nat, j: nat): Board {
    Desk(if i < 6 then Evaluating else if i < 8 then Draft else Stage.Validated).(requests := RequestsAt(i, j))
  }

  function Row(who: nat): Request {
    RequestFor(PlainEnv(), TicketOf(who), "b", PlainProposal("b", Stage.Validated))
  }

  function WorldAt(i: nat, j: nat): World { World(BoardAt(i, j), map[0 := PartAt(0, i), 1 := PartAt(1, j)], map[]) }

  lemma BothBegin(n: nat)
    requires n < 2
    ensures Gone(PlainEnv(), WorldAt(n, n), 0) == WorldAt(n + 1, n)
    ensures Gone(PlainEnv(), WorldAt(n + 1, n), 1) == WorldAt(n + 1, n + 1)
  {
  }

  lemma BothFork(n: nat)
    requires n == 2
    ensures Gone(PlainEnv(), WorldAt(n, n), 0) == WorldAt(n + 1, n)
    ensures Gone(PlainEnv(), WorldAt(n + 1, n), 1) == WorldAt(n + 1, n + 1)
  {
  }

  lemma BothRead(n: nat)
    requires 3 <= n < 5
    ensures Gone(PlainEnv(), WorldAt(n, n), 0) == WorldAt(n + 1, n)
    ensures Gone(PlainEnv(), WorldAt(n + 1, n), 1) == WorldAt(n + 1, n + 1)
  {
  }

  lemma BothDraft(n: nat)
    requires n == 5
    ensures Gone(PlainEnv(), WorldAt(n, n), 0) == WorldAt(n + 1, n)
    ensures Gone(PlainEnv(), WorldAt(n + 1, n), 1) == WorldAt(n + 1, n + 1)
  {
  }

  lemma BothLook(n: nat)
    requires n == 6 || n == 8
    ensures Gone(PlainEnv(), WorldAt(n, n), 0) == WorldAt(n + 1, n)
    ensures Gone(PlainEnv(), WorldAt(n + 1, n), 1) == WorldAt(n + 1, n + 1)
  {
  }

  lemma BothValidate(n: nat)
    requires n == 7
    ensures Gone(PlainEnv(), WorldAt(n, n), 0) == WorldAt(n + 1, n)
    ensures Gone(PlainEnv(), WorldAt(n + 1, n), 1) == WorldAt(n + 1, n + 1)
  {
  }

  lemma BothAsk()
    ensures Gone(PlainEnv(), WorldAt(9, 9), 0) == WorldAt(10, 9)
    ensures Gone(PlainEnv(), WorldAt(10, 9), 1) == WorldAt(10, 10)
  {
  }

  lemma BothCheck()
    ensures Race(PlainEnv(), Begun(), InStep(0)) == WorldAt(0, 0)
  {
    var c0, c1 := Check(0, Change(0)), Check(1, Change(1));
    var seen := World(Desk(Evaluating), map[0 := PartAt(0, 0)], map[]);
    RaceTo(PlainEnv(), Begun(), [], c0, Begun(), seen);
    assert [] + [c0] == [c0];
    RaceTo(PlainEnv(), Begun(), [c0], c1, seen, WorldAt(0, 0));
  }

  lemma BothGo(n: nat)
    requires n < 10
    ensures Gone(PlainEnv(), WorldAt(n, n), 0) == WorldAt(n + 1, n)
    ensures Gone(PlainEnv(), WorldAt(n + 1, n), 1) == WorldAt(n + 1, n + 1)
  {
    match n
    case 2 => BothFork(n);
    case 5 => BothDraft(n);
    case 7 => BothValidate(n);
    case 9 => BothAsk();
    case _ => if n < 2 { BothBegin(n); } else if n < 5 { BothRead(n); } else { BothLook(n); }
  }

  /** Move by move, to where both have minted. */
  lemma {:induction false} InStepReaches(n: nat)
    requires n <= 10
    ensures Race(PlainEnv(), Begun(), InStep(n)) == WorldAt(n, n)
  {
    if n == 0 {
      BothCheck();
    } else {
      InStepReaches(n - 1);
      BothGo(n - 1);
      RaceTo(PlainEnv(), Begun(), InStep(n - 1), Go(0), WorldAt(n - 1, n - 1), WorldAt(n, n - 1));
      RaceTo(PlainEnv(), Begun(), InStep(n - 1) + [Go(0)], Go(1), WorldAt(n, n - 1), WorldAt(n, n));
    }
  }

  /** Both answers evaluate the fork before either mints: one pending request has led to two live ones. */
  lemma OneRequestDoubles()
    ensures Unique(Begun().board.requests, 0)
    ensures !Unique(Race(PlainEnv(), Begun(), InStep(10)).board.requests, 1)
  {
    InStepReaches(10);
    var rs := BoardAt(10, 10).requests;
    assert LiveAt(rs, "b", "approve", "w", 1, "n0") && LiveAt(rs, "b", "approve", "w", 1, "n1");
  }
}
