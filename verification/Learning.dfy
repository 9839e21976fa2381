/** The learning lifecycle: hypotheses in one table, the inferences they earn in another. */
module Learning {
  import opened Common
  import opened Records
  import opened Miner
  import opened Evaluation

  const MAX_CITATIONS := 32
  const CANDIDATE_TTL := 90 * 86_400
  const INFERENCE_TTL := 180 * 86_400

  datatype Stage = Proposed | Evaluating | Accepted | Rejected | Deferred | Superseded | Expired

  /** The place an inference lives: at most one may be active there. */
  datatype Slot = Slot(kind: string, namespace: string, scope: Scope, workspace: Option<string>, task: Option<string>)

  datatype Candidate = Candidate(
    slot: Slot, proposition: string, supporting: seq<int>, contradicting: seq<int>, confidence: int,
    stage: Stage, expiresAt: nat, inference: Option<string>)

  datatype Inference = Inference(
    slot: Slot, content: string, authority: Authority, status: RecordStatus, evidence: seq<int>,
    confidence: int, supersedes: Option<string>, expiresAt: nat)

  datatype Row = Row(workspace: string, task: Option<string>, group: KindGroup, polarity: Polarity, createdAt: nat,
      session: Option<string>)

  /** Events are append-only; candidates and inferences are rewritten by the steps below. */
  datatype Ledger = Ledger(candidates: map<string, Candidate>, records: map<string, Inference>, events: map<int, Row>)

  // ── Evidence ───────────────────────────────────────────────────────────

  predicate InScope(slot: Slot, e: Row) {
    match slot.scope
    case Global => true
    case Project => slot.workspace == Some(e.workspace)
    case Task => slot.workspace == Some(e.workspace) && e.task == slot.task
  }

  /** The cited event is real and belongs to the hypothesis's scope. */
  predicate Counts(events: map<int, Row>, slot: Slot, id: int) { id in events && InScope(slot, events[id]) }

  function Kept(events: map<int, Row>, slot: Slot, ids: seq<int>, wanted: int -> bool): seq<int> {
    if ids == [] then []
    else
      var last := ids[|ids| - 1];
      Kept(events, slot, ids[..|ids| - 1], wanted) + if Counts(events, slot, last) && wanted(last) then [last] else []
  }

  function Cited(c: Candidate): seq<int> { c.supporting + c.contradicting }

  function Supports(c: Candidate): int -> bool { id => id in c.supporting }

  function Opposes(c: Candidate): int -> bool { id => id !in c.supporting }

  /** An id cited on both sides supports. */
  function VoicedFor(events: map<int, Row>, c: Candidate): seq<int> {
    SortIds(Kept(events, c.slot, Cited(c), Supports(c)))
  }

  function VoicedAgainst(events: map<int, Row>, c: Candidate): seq<int> {
    SortIds(Kept(events, c.slot, Cited(c), Opposes(c)))
  }

  lemma {:induction false} KeptCounts(events: map<int, Row>, slot: Slot, ids: seq<int>, wanted: int -> bool)
    ensures forall id :: id in Kept(events, slot, ids, wanted) <==> id in ids && Counts(events, slot, id) && wanted(id)
  {
    if ids != [] {
      KeptCounts(events, slot, ids[..|ids| - 1], wanted);
      assert ids == ids[..|ids| - 1] + [ids[|ids| - 1]];
    }
  }

  function MembersOf(events: map<int, Row>, ids: seq<int>): seq<Member> {
    if ids == [] then []
    else
      var id := ids[|ids| - 1];
      MembersOf(events, ids[..|ids| - 1])
      + if id in events then [Member(id, events[id].group, events[id].polarity, events[id].createdAt,
          events[id].session, events[id].workspace)] else []
  }

  // ── Steps ──────────────────────────────────────────────────────────────

  predicate ActiveIn(l: Ledger, slot: Slot, id: string) {
    id in l.records && l.records[id].slot == slot && l.records[id].authority == AiInferred
        && l.records[id].status == Active
  }

  ghost predicate Occupied(l: Ledger, slot: Slot) { exists id :: ActiveIn(l, slot, id) }

  ghost function Occupant(l: Ledger, slot: Slot): string
    requires Occupied(l, slot)
  {
    var id :| ActiveIn(l, slot, id); id
  }

  function Retired(records: map<string, Inference>, id: Option<string>): map<string, Inference> {
    if id.Some? && id.value in records && records[id.value].status == Active
    then records[id.value := records[id.value].(status := RecordStatus.Rejected)]
    else records
  }

  /** A detector proposes: accepted rows refresh their evidence, open rows are rewritten, verdicts stand. */
  function Propose(
      l: Ledger, id: string, slot: Slot, proposition: string, sup: seq<int>, con: seq<int>, confidence: int, now: nat)
    : Ledger
  {
    var row := Candidate(slot, proposition, sup, con, confidence, Proposed, now + CANDIDATE_TTL, None);
    if id !in l.candidates then l.(candidates := l.candidates[id := row])
    else match l.candidates[id].stage
      case Accepted => l.(candidates := l.candidates[id := l.candidates[id].(
          supporting := sup, contradicting := con, confidence := confidence, expiresAt := now + CANDIDATE_TTL)])
      case Proposed => l.(candidates := l.candidates[id := row])
      case Evaluating => l.(candidates := l.candidates[id := row])
      case Deferred => l.(candidates := l.candidates[id := row])
      case _ => l
  }

  predicate Evaluable(l: Ledger, id: string) {
    id in l.candidates && !l.candidates[id].stage.Rejected? && !l.candidates[id].stage.Superseded?
        && !l.candidates[id].stage.Expired?
  }

  function VerdictFor(l: Ledger, c: Candidate, now: nat): Verdict {
    Judge(c.slot.scope == Global, MembersOf(l.events, VoicedFor(l.events, c)), |VoicedAgainst(l.events, c)|, now)
  }

  function Score(l: Ledger, c: Candidate, now: nat): int {
    Confidence(MembersOf(l.events, VoicedFor(l.events, c)), |VoicedAgainst(l.events, c)|, now)
  }

  /** The inference is already there, for the same evidence. */
  ghost predicate Unchanged(l: Ledger, c: Candidate) {
    Occupied(l, c.slot) && c.inference == Some(Occupant(l, c.slot)) && c.supporting == VoicedFor(l.events, c)
  }

  /** Accepting would have to write a record citing more events than a record may. */
  ghost predicate Overflows(l: Ledger, id: string, now: nat) {
    Evaluable(l, id) && VerdictFor(l, l.candidates[id], now) == Verdict.Accepted
    && !Unchanged(l, l.candidates[id]) && |VoicedFor(l.events, l.candidates[id])| > MAX_CITATIONS
  }

  function NewInference(l: Ledger, c: Candidate, now: nat, prev: Option<string>): Inference {
    Inference(c.slot, c.proposition, AiInferred, Active, VoicedFor(l.events, c), Score(l, c, now), prev,
              now + INFERENCE_TTL)
  }

  /** Write the inference: superseding the one in the slot, if any. */
  ghost function Persisted(l: Ledger, c: Candidate, newId: string, now: nat): map<string, Inference> {
    if Occupied(l, c.slot) then
      var prev := Occupant(l, c.slot);
      l.records[prev := l.records[prev].(status := RecordStatus.Superseded)]
               [newId := NewInference(l, c, now, Some(prev))]
    else l.records[newId := NewInference(l, c, now, None)]
  }

  function Judged(l: Ledger, c: Candidate, stage: Stage, now: nat): Candidate {
    c.(supporting := VoicedFor(l.events, c), contradicting := VoicedAgainst(l.events, c),
       confidence := Score(l, c, now), stage := stage)
  }

  /** Re-derive the evidence, judge it, and move the candidate with its inference. `newId` is fresh. */
  ghost function Evaluate(l: Ledger, id: string, newId: string, now: nat): Ledger {
    if !Evaluable(l, id) then l
    else
      var c := l.candidates[id];
      match VerdictFor(l, c, now)
      case Accepted =>
        if Unchanged(l, c) then l.(candidates := l.candidates[id := Judged(l, c, Stage.Accepted, now)])
        else if Overflows(l, id, now) then l.(candidates := l.candidates[id := c.(stage := Evaluating)])
        else l.(records := Persisted(l, c, newId, now),
                candidates := l.candidates[id := Judged(l, c, Stage.Accepted, now).(inference := Some(newId))])
      case Deferred(_) =>
        l.(records := if c.stage == Stage.Accepted then Retired(l.records, c.inference) else l.records,
           candidates := l.candidates[id := Judged(l, c, Stage.Deferred, now)])
      case Rejected =>
        l.(records := if c.stage == Stage.Accepted then Retired(l.records, c.inference) else l.records,
           candidates := l.candidates[id := Judged(l, c, Stage.Rejected, now)])
  }

  predicate Confirmable(l: Ledger, id: string) {
    id in l.candidates && l.candidates[id].stage == Stage.Accepted && l.candidates[id].inference.Some?
    && l.candidates[id].inference.value in l.records && l.records[l.candidates[id].inference.value].status == Active
  }

  /** The user's word turns the inference into confirmed knowledge. */
  function Confirm(l: Ledger, id: string, userConfirmed: bool, newId: string): Ledger {
    if !userConfirmed || !Confirmable(l, id) then l
    else
      var prior := l.candidates[id].inference.value;
      var confirmed := l.records[prior].(authority := UserConfirmed, confidence := 90, supersedes := Some(prior));
      l.(records := l.records[prior := l.records[prior].(status := RecordStatus.Superseded)][newId := confirmed],
         candidates := l.candidates[id := l.candidates[id].(stage := Stage.Superseded, inference := Some(newId))])
  }

  function Refuse(l: Ledger, id: string): Ledger {
    if id !in l.candidates then l
    else l.(records := Retired(l.records, l.candidates[id].inference),
            candidates := l.candidates[id := l.candidates[id].(stage := Stage.Rejected)])
  }

  predicate Lapsed(c: Candidate, now: nat) { c.stage in {Proposed, Stage.Deferred, Evaluating} && c.expiresAt < now }

  function ExpireCandidates(l: Ledger, now: nat): Ledger {
    l.(candidates := map id | id in l.candidates ::
         if Lapsed(l.candidates[id], now) then l.candidates[id].(stage := Stage.Expired) else l.candidates[id])
  }

  function ExpireRecords(l: Ledger, now: nat): Ledger {
    l.(records := map id | id in l.records ::
         if l.records[id].status == Active && l.records[id].expiresAt < now
         then l.records[id].(status := RecordStatus.Expired) else l.records[id])
  }

  // ── Runs ───────────────────────────────────────────────────────────────

  datatype Op =
    | Observe(event: int, row: Row)
    | Detect(id: string, slot: Slot, proposition: string, sup: seq<int>, con: seq<int>, confidence: int, now: nat)
    | Assess(id: string, newId: string, now: nat)
    | UserConfirms(id: string, said: bool, newId: string)
    | UserRejects(id: string)
    | SweepCandidates(now: nat)
    | SweepRecords(now: nat)

  ghost function Step(l: Ledger, op: Op): Ledger {
    match op
    case Observe(e, row) => if e in l.events then l else l.(events := l.events[e := row])
    case Detect(id, slot, prop, sup, con, conf, now) => Propose(l, id, slot, prop, sup, con, conf, now)
    case Assess(id, newId, now) => Evaluate(l, id, newId, now)
    case UserConfirms(id, said, newId) => Confirm(l, id, said, newId)
    case UserRejects(id) => Refuse(l, id)
    case SweepCandidates(now) => ExpireCandidates(l, now)
    case SweepRecords(now) => ExpireRecords(l, now)
  }

  /** Minted record ids are new, and no evaluation stops half-way. */
  ghost predicate Completes(l: Ledger, op: Op) {
    match op
    case Assess(id, newId, now) => newId !in l.records && !Overflows(l, id, now)
    case UserConfirms(id, said, newId) => newId !in l.records
    case _ => true
  }

  ghost function Run(l: Ledger, ops: seq<Op>): Ledger {
    if ops == [] then l else Step(Run(l, ops[..|ops| - 1]), ops[|ops| - 1])
  }

  ghost predicate RunCompletes(l: Ledger, ops: seq<Op>) {
    forall i | 0 <= i < |ops| :: Completes(Run(l, ops[..i]), ops[i])
  }

  // ── What every run keeps ───────────────────────────────────────────────

  predicate Inferred(l: Ledger, r: string) {
    r in l.records && l.records[r].authority == AiInferred && l.records[r].status == Active
  }

  /** An active inference belongs to exactly one accepted candidate, of the same slot. */
  ghost predicate Owned(l: Ledger, r: string) {
    && (exists id | id in l.candidates :: l.candidates[id].inference == Some(r))
    && forall id | id in l.candidates && l.candidates[id].inference == Some(r) ::
         l.candidates[id].stage == Stage.Accepted && r in l.records && l.candidates[id].slot == l.records[r].slot
  }

  /** It rests on at least three different stored events of its scope. */
  ghost predicate Grounded(l: Ledger, r: string) {
    && r in l.records && |l.records[r].evidence| >= MIN_SUPPORT && Increasing(l.records[r].evidence)
    && forall i | 0 <= i < |l.records[r].evidence| :: Counts(l.events, l.records[r].slot, l.records[r].evidence[i])
  }

  ghost predicate Sound(l: Ledger) {
    && (forall a, b | a in l.candidates && b in l.candidates && a != b && l.candidates[a].inference.Some? ::
          l.candidates[a].inference != l.candidates[b].inference)
    && (forall a | a in l.candidates && l.candidates[a].inference.Some? :: l.candidates[a].inference.value in l.records)
    && (forall r | Inferred(l, r) :: Owned(l, r) && Grounded(l, r))
    && OnePerSlot(l)
  }

  /** No slot holds two active inferences. */
  ghost predicate OnePerSlot(l: Ledger) {
    forall r, q | Inferred(l, r) && Inferred(l, q) && l.records[r].slot == l.records[q].slot :: r == q
  }

  /** What voicing keeps: real, in-scope events of the supporting side, each once. */
  lemma VoicedIsGrounded(events: map<int, Row>, c: Candidate)
    ensures Increasing(VoicedFor(events, c))
    ensures forall id :: id in VoicedFor(events, c) <==> id in c.supporting && Counts(events, c.slot, id)
    ensures forall id :: id in VoicedAgainst(events, c) <==>
        id in c.contradicting && id !in c.supporting && Counts(events, c.slot, id)
  {
    var yes, no := Supports(c), Opposes(c);
    KeptCounts(events, c.slot, Cited(c), yes);
    KeptCounts(events, c.slot, Cited(c), no);
    SortIdsSorts(Kept(events, c.slot, Cited(c), yes));
    SortIdsSorts(Kept(events, c.slot, Cited(c), no));
  }

  lemma {:induction false} MembersMatch(events: map<int, Row>, ids: seq<int>)
    ensures |MembersOf(events, ids)| <= |ids|
  {
    if ids != [] { MembersMatch(events, ids[..|ids| - 1]); }
  }

  /** Acceptance rests on at least three voiced events. */
  lemma AcceptedHasSupport(l: Ledger, c: Candidate, now: nat)
    requires VerdictFor(l, c, now) == Verdict.Accepted
    ensures |VoicedFor(l.events, c)| >= MIN_SUPPORT
  {
    MembersMatch(l.events, VoicedFor(l.events, c));
  }

  lemma ObserveKeeps(l: Ledger, e: int, row: Row)
    requires Sound(l) && e !in l.events
    ensures Sound(l.(events := l.events[e := row]))
  {
    var t := l.(events := l.events[e := row]);
    forall r | Inferred(t, r) ensures Owned(t, r)
        && Grounded(t, r) { assert Inferred(l, r) && Owned(l, r) && Grounded(l, r); }
    forall r, q | Inferred(t, r) && Inferred(t, q) && t.records[r].slot == t.records[q].slot ensures r == q {
      assert Inferred(l, r) && Inferred(l, q);
    }
  }

  /** Rewriting one candidate is harmless when it keeps its claim, or drops one that is not active. */
  lemma EditKeeps(l: Ledger, id: string, c: Candidate)
    requires Sound(l)
    requires c.inference.Some? ==> id in l.candidates && c.inference == l.candidates[id].inference
    requires id in l.candidates && l.candidates[id].inference.Some? && Inferred(l, l.candidates[id].inference.value) ==>
               c.inference == l.candidates[id].inference && c.stage == Stage.Accepted && c.slot == l.candidates[id].slot
    ensures Sound(l.(candidates := l.candidates[id := c]))
  {
    var t := l.(candidates := l.candidates[id := c]);
    forall r | Inferred(t, r) ensures Owned(t, r) && Grounded(t, r) {
      assert Inferred(l, r) && Owned(l, r) && Grounded(l, r);
      var o :| o in l.candidates && l.candidates[o].inference == Some(r);
      assert o in t.candidates && t.candidates[o].inference == Some(r);
    }
    forall r, q | Inferred(t, r) && Inferred(t, q) && t.records[r].slot == t.records[q].slot ensures r == q {
      assert Inferred(l, r) && Inferred(l, q);
    }
  }

  /** Taking a record out of the active inferences and rewriting its owner. */
  lemma RetireKeeps(l: Ledger, id: string, c: Candidate)
    requires Sound(l) && id in l.candidates && c.inference == l.candidates[id].inference
    ensures Sound(Ledger(l.candidates[id := c], Retired(l.records, l.candidates[id].inference), l.events))
  {
    var gone := l.candidates[id].inference;
    var mid := l.(records := Retired(l.records, gone));
    assert Sound(mid) by { DeactivateKeeps(l, mid.records); }
    EditKeeps(mid, id, c);
  }

  /** Fewer active inferences, nothing else changed about the rest. */
  lemma DeactivateKeeps(l: Ledger, records: map<string, Inference>)
    requires Sound(l) && records.Keys == l.records.Keys
    requires forall r | r in records :: records[r] == l.records[r] || records[r].status != Active
    ensures Sound(l.(records := records))
  {
    var t := l.(records := records);
    forall r | Inferred(t, r) ensures Inferred(l, r) && Owned(t, r) && Grounded(t, r) {
      assert Inferred(l, r) && Owned(l, r) && Grounded(l, r);
      var o :| o in l.candidates && l.candidates[o].inference == Some(r);
      assert o in t.candidates;
    }
  }

  /** A new inference in an empty slot, claimed by a candidate that claims no other active one. */
  lemma AddKeeps(l: Ledger, id: string, c: Candidate, r: string, rec: Inference)
    requires Sound(l) && r !in l.records
    requires id in l.candidates && (l.candidates[id].inference.Some? ==> !Inferred(l, l.candidates[id].inference.value))
    requires c.inference == Some(r)
    requires rec.status == Active && rec.authority == AiInferred ==>
               !Occupied(l, rec.slot) && c.slot == rec.slot && c.stage == Stage.Accepted
                   && |rec.evidence| >= MIN_SUPPORT && Increasing(rec.evidence)
               && forall i | 0 <= i < |rec.evidence| :: Counts(l.events, rec.slot, rec.evidence[i])
    ensures Sound(Ledger(l.candidates[id := c], l.records[r := rec], l.events))
  {
    var t := Ledger(l.candidates[id := c], l.records[r := rec], l.events);
    forall a | a in l.candidates && l.candidates[a].inference.Some? ensures l.candidates[a].inference != Some(r) {
      assert l.candidates[a].inference.value in l.records;
    }
    forall q | Inferred(t, q) ensures Owned(t, q) && Grounded(t, q) {
      if q == r {
        assert id in t.candidates && t.candidates[id].inference == Some(r);
      } else {
        assert Inferred(l, q) && Owned(l, q) && Grounded(l, q);
        var o :| o in l.candidates && l.candidates[o].inference == Some(q);
        assert o in t.candidates && t.candidates[o].inference == Some(q);
      }
    }
    forall q, p | Inferred(t, q) && Inferred(t, p) && t.records[q].slot == t.records[p].slot ensures q == p {
      if q != p && q != r && p != r { assert Inferred(l, q) && Inferred(l, p); }
      if q != p && (q == r || p == r) { assert ActiveIn(l, rec.slot, if q == r then p else q); }
    }
  }

  /** An active claim of a candidate sits in the candidate's own slot. */
  lemma ClaimSitsInSlot(l: Ledger, id: string)
    requires Sound(l) && id in l.candidates && l.candidates[id].inference.Some?
        && Inferred(l, l.candidates[id].inference.value)
    ensures l.candidates[id].stage == Stage.Accepted
    ensures Occupied(l, l.candidates[id].slot) && Occupant(l, l.candidates[id].slot) == l.candidates[id].inference.value
  {
    var r, slot := l.candidates[id].inference.value, l.candidates[id].slot;
    assert Owned(l, r);
    assert ActiveIn(l, slot, r);
    assert ActiveIn(l, slot, Occupant(l, slot)) && Inferred(l, Occupant(l, slot));
  }

  lemma AcceptKeeps(l: Ledger, id: string, newId: string, now: nat)
    requires Sound(l) && id in l.candidates && newId !in l.records
    requires VerdictFor(l, l.candidates[id], now) == Verdict.Accepted
    ensures var c := l.candidates[id];
            Sound(Ledger(l.candidates[id := Judged(l, c, Stage.Accepted, now).(inference := Some(newId))],
                Persisted(l, c, newId, now), l.events))
  {
    var c := l.candidates[id];
    var slot := c.slot;
    VoicedIsGrounded(l.events, c);
    AcceptedHasSupport(l, c, now);
    if c.inference.Some? && Inferred(l, c.inference.value) { ClaimSitsInSlot(l, id); }
    var next := Judged(l, c, Stage.Accepted, now).(inference := Some(newId));
    if Occupied(l, slot) {
      var prev := Occupant(l, slot);
      var mid := l.(records := l.records[prev := l.records[prev].(status := RecordStatus.Superseded)]);
      DeactivateKeeps(l, mid.records);
      forall q ensures !ActiveIn(mid, slot, q) {
        if ActiveIn(mid, slot, q) { assert Inferred(l, q) && Inferred(l, prev); }
      }
      AddKeeps(mid, id, next, newId, NewInference(l, c, now, Some(prev)));
    } else {
      AddKeeps(l, id, next, newId, NewInference(l, c, now, None));
    }
  }

  lemma AssessKeeps(l: Ledger, id: string, newId: string, now: nat)
    requires Sound(l) && newId !in l.records && !Overflows(l, id, now)
    ensures Sound(Evaluate(l, id, newId, now))
  {
    if Evaluable(l, id) {
      var c := l.candidates[id];
      if c.inference.Some? && Inferred(l, c.inference.value) { ClaimSitsInSlot(l, id); }
      match VerdictFor(l, c, now)
      case Accepted =>
        if Unchanged(l, c) {
          EditKeeps(l, id, Judged(l, c, Stage.Accepted, now));
        } else {
          AcceptKeeps(l, id, newId, now);
        }
      case Deferred(_) => LapseKeeps(l, id, Stage.Deferred, now);
      case Rejected => LapseKeeps(l, id, Stage.Rejected, now);
    }
  }

  lemma LapseKeeps(l: Ledger, id: string, stage: Stage, now: nat)
    requires Sound(l) && id in l.candidates
    ensures var c := l.candidates[id];
            Sound(Ledger(l.candidates[id := Judged(l, c, stage, now)],
                         if c.stage == Stage.Accepted then Retired(l.records, c.inference) else l.records, l.events))
  {
    var c := l.candidates[id];
    if c.stage == Stage.Accepted {
      RetireKeeps(l, id, Judged(l, c, stage, now));
    } else {
      EditKeeps(l, id, Judged(l, c, stage, now));
    }
  }

  lemma ConfirmKeeps(l: Ledger, id: string, said: bool, newId: string)
    requires Sound(l) && newId !in l.records
    ensures Sound(Confirm(l, id, said, newId))
  {
    if said && Confirmable(l, id) {
      var c := l.candidates[id];
      var prior := c.inference.value;
      var mid := l.(records := l.records[prior := l.records[prior].(status := RecordStatus.Superseded)]);
      DeactivateKeeps(l, mid.records);
      AddKeeps(mid, id, c.(stage := Stage.Superseded, inference := Some(newId)), newId,
               l.records[prior].(authority := UserConfirmed, confidence := 90, supersedes := Some(prior)));
    }
  }

  lemma SweepKeeps(l: Ledger, now: nat)
    requires Sound(l)
    ensures Sound(ExpireCandidates(l, now))
  {
    var t := ExpireCandidates(l, now);
    forall r | Inferred(t, r) ensures Owned(t, r) && Grounded(t, r) {
      assert Inferred(l, r) && Owned(l, r) && Grounded(l, r);
      var o :| o in l.candidates && l.candidates[o].inference == Some(r);
      assert o in t.candidates && t.candidates[o].inference == Some(r);
    }
    forall r, q | Inferred(t, r) && Inferred(t, q) && t.records[r].slot == t.records[q].slot ensures r == q {
      assert Inferred(l, r) && Inferred(l, q);
    }
  }

  lemma StepKeeps(l: Ledger, op: Op)
    requires Sound(l) && Completes(l, op)
    ensures Sound(Step(l, op))
  {
    match op
    case Observe(e, row) => if e !in l.events { ObserveKeeps(l, e, row); }
    case Detect(id, slot, prop, sup, con, conf, now) =>
      var t := Step(l, op);
      if t != l {
        if id in l.candidates && l.candidates[id].inference.Some?
            && Inferred(l, l.candidates[id].inference.value) { ClaimSitsInSlot(l, id); }
        EditKeeps(l, id, t.candidates[id]);
      }
    case Assess(id, newId, now) => AssessKeeps(l, id, newId, now);
    case UserConfirms(id, said, newId) => ConfirmKeeps(l, id, said, newId);
    case UserRejects(id) =>
      if id in l.candidates { RetireKeeps(l, id, l.candidates[id].(stage := Stage.Rejected)); }
    case SweepCandidates(now) => SweepKeeps(l, now);
    case SweepRecords(now) => DeactivateKeeps(l, ExpireRecords(l, now).records);
  }

  /** Over every run of completed steps, whatever evidence the detections cite: each active inference belongs to
      exactly one accepted candidate and rests on three distinct stored events of its scope, and no slot holds two.
      */
  lemma {:induction false} CompletedRunKeeps(l: Ledger, ops: seq<Op>)
    requires Sound(l) && RunCompletes(l, ops)
    ensures Sound(Run(l, ops))
  {
    if ops != [] {
      var front := ops[..|ops| - 1];
      assert RunCompletes(l, front) by { assert forall i | 0 <= i < |front| :: front[..i] == ops[..i]; }
      CompletedRunKeeps(l, front);
      StepKeeps(Run(l, front), ops[|ops| - 1]);
    }
  }

  // ── What even broken-off evaluations keep ──────────────────────────────

  ghost predicate MintsNew(l: Ledger, op: Op) {
    match op
    case Assess(_, newId, _) => newId !in l.records
    case UserConfirms(_, _, newId) => newId !in l.records
    case _ => true
  }

  /** Retiring and rewriting records in place creates no second occupant. */
  lemma FewerKeepOnePerSlot(l: Ledger, t: Ledger)
    requires OnePerSlot(l) && forall r | Inferred(t, r) :: Inferred(l, r) && t.records[r].slot == l.records[r].slot
    ensures OnePerSlot(t)
  {}

  lemma PersistKeepsOnePerSlot(l: Ledger, t: Ledger, c: Candidate, newId: string, now: nat)
    requires OnePerSlot(l) && newId !in l.records && t.records == Persisted(l, c, newId, now)
    ensures OnePerSlot(t)
  {
    assert Occupied(l, c.slot) ==> Inferred(l, Occupant(l, c.slot));
    forall r | Inferred(t, r) && r != newId ensures Inferred(l, r) && t.records[r].slot == l.records[r].slot
        && l.records[r].slot != c.slot {
      assert Inferred(l, r);
      assert l.records[r].slot == c.slot ==> ActiveIn(l, c.slot, r);
    }
  }

  lemma AssessKeepsOnePerSlot(l: Ledger, op: Op)
    requires OnePerSlot(l) && MintsNew(l, op) && op.Assess?
    ensures OnePerSlot(Step(l, op))
  {
    if WritesInference(l, op) {
      PersistKeepsOnePerSlot(l, Step(l, op), l.candidates[op.id], op.newId, op.now);
    } else {
      FewerKeepOnePerSlot(l, Step(l, op));
    }
  }

  lemma StepKeepsOnePerSlot(l: Ledger, op: Op)
    requires OnePerSlot(l) && MintsNew(l, op)
    ensures OnePerSlot(Step(l, op))
  {
    match op
    case Assess(_, _, _) => AssessKeepsOnePerSlot(l, op);
    case _ => FewerKeepOnePerSlot(l, Step(l, op));
  }

  /** The evaluation writes a new inference. */
  ghost predicate WritesInference(l: Ledger, op: Op) {
    op.Assess? && Evaluable(l, op.id) && VerdictFor(l, l.candidates[op.id], op.now) == Verdict.Accepted
    && !Unchanged(l, l.candidates[op.id]) && !Overflows(l, op.id, op.now)
  }

  /** Over every run, broken-off evaluations included, no slot holds two active inferences. */
  lemma {:induction false} RunKeepsOnePerSlot(l: Ledger, ops: seq<Op>)
    requires OnePerSlot(l) && forall i | 0 <= i < |ops| :: MintsNew(Run(l, ops[..i]), ops[i])
    ensures OnePerSlot(Run(l, ops))
  {
    if ops != [] {
      var n := |ops| - 1;
      assert forall i | 0 <= i < n :: ops[..n][..i] == ops[..i];
      RunKeepsOnePerSlot(l, ops[..n]);
      StepKeepsOnePerSlot(Run(l, ops[..n]), ops[n]);
    }
  }

  ghost predicate IsRejected(l: Ledger, id: string) { id in l.candidates && l.candidates[id].stage == Stage.Rejected }

  lemma RejectedStays(l: Ledger, op: Op, id: string)
    requires IsRejected(l, id)
    ensures IsRejected(Step(l, op), id)
  {}

  /** A rejection is final: no run, complete or not, brings the candidate back. */
  lemma {:induction false} RejectedIsAbsorbing(l: Ledger, ops: seq<Op>, id: string)
    requires IsRejected(l, id)
    ensures IsRejected(Run(l, ops), id)
  {
    if ops != [] {
      RejectedIsAbsorbing(l, ops[..|ops| - 1], id);
      RejectedStays(Run(l, ops[..|ops| - 1]), ops[|ops| - 1], id);
    }
  }

  /** An evaluation that would cite more events than a record may hold stops half-way. It breaks the
      invariant exactly when the candidate was accepted and its inference still stands. */
  lemma AssessKeepsIff(l: Ledger, id: string, newId: string, now: nat)
    requires Sound(l) && newId !in l.records
    ensures Sound(Evaluate(l, id, newId, now)) <==>
            !(Overflows(l, id, now) && l.candidates[id].inference.Some?
                && Inferred(l, l.candidates[id].inference.value))
  {
    if Overflows(l, id, now) {
      var c := l.candidates[id];
      var t := Evaluate(l, id, newId, now);
      if c.inference.Some? && Inferred(l, c.inference.value) {
        assert Inferred(t, c.inference.value) && t.candidates[id].inference == c.inference;
        assert !Owned(t, c.inference.value);
      } else {
        EditKeeps(l, id, c.(stage := Evaluating));
      }
    } else {
      AssessKeeps(l, id, newId, now);
    }
  }

  // ── Every run of what the detectors write ──────────────────────────────

  /** Evidence as the detectors cite it: sorted without repeats, all of it stored events of the scope. */
  ghost predicate Tidied(events: map<int, Row>, slot: Slot, ids: seq<int>) {
    Increasing(ids) && forall id | id in ids :: Counts(events, slot, id)
  }

  ghost predicate Tidy(l: Ledger) {
    forall id | id in l.candidates && l.candidates[id].stage == Stage.Accepted ::
      Tidied(l.events, l.candidates[id].slot, l.candidates[id].supporting)
  }

  /** A candidate's id is minted from its slot, so a detection under a known id is about the same slot. */
  ghost predicate Detects(l: Ledger, op: Op) {
    op.Detect? ==> Tidied(l.events, op.slot, op.sup) && (op.id in l.candidates ==> op.slot == l.candidates[op.id].slot)
  }

  /** Tidy evidence is voiced as it is. */
  lemma TidyIsVoiced(events: map<int, Row>, c: Candidate)
    requires Tidied(events, c.slot, c.supporting)
    ensures VoicedFor(events, c) == c.supporting
  {
    VoicedIsGrounded(events, c);
    forall y ensures y in VoicedFor(events, c) <==> y in c.supporting {}
    IncreasingUnique(VoicedFor(events, c), c.supporting);
  }

  /** An accepted candidate's tidy evidence never breaks an evaluation off while its inference stands: the inference is
      already there. */
  lemma StandingNeverOverflows(l: Ledger, id: string, now: nat)
    requires Sound(l) && Tidy(l) && id in l.candidates && l.candidates[id].inference.Some?
    requires Inferred(l, l.candidates[id].inference.value)
    ensures !Overflows(l, id, now)
  {
    ClaimSitsInSlot(l, id);
    TidyIsVoiced(l.events, l.candidates[id]);
  }

  lemma TidyStepSound(l: Ledger, op: Op)
    requires Sound(l) && Tidy(l) && MintsNew(l, op)
    ensures Sound(Step(l, op))
  {
    if op.Assess? {
      AssessKeepsIff(l, op.id, op.newId, op.now);
      if op.id in l.candidates && l.candidates[op.id].inference.Some?
          && Inferred(l, l.candidates[op.id].inference.value) {
        StandingNeverOverflows(l, op.id, op.now);
      }
    } else {
      StepKeeps(l, op);
    }
  }

  lemma TidyEvaluate(l: Ledger, id: string, newId: string, now: nat)
    requires Tidy(l)
    ensures Tidy(Evaluate(l, id, newId, now))
  {
    if Evaluable(l, id) {
      var t, c := Evaluate(l, id, newId, now), l.candidates[id];
      EvaluateEdits(l, id, newId, now);
      VoicedIsGrounded(l.events, c);
      forall x | x in t.candidates && t.candidates[x].stage == Stage.Accepted
        ensures Tidied(t.events, t.candidates[x].slot, t.candidates[x].supporting)
      {
        if x != id { assert Tidied(l.events, l.candidates[x].slot, l.candidates[x].supporting); }
      }
    }
  }

  /** An evaluation rewrites its own candidate, and accepts it only with its voiced evidence. */
  lemma EvaluateEdits(l: Ledger, id: string, newId: string, now: nat)
    requires Evaluable(l, id)
    ensures var t := Evaluate(l, id, newId, now);
            && t.events == l.events && id in t.candidates && t.candidates == l.candidates[id := t.candidates[id]]
            && t.candidates[id].slot == l.candidates[id].slot
            && (t.candidates[id].stage == Stage.Accepted ==>
                t.candidates[id].supporting == VoicedFor(l.events, l.candidates[id]))
  {}

  lemma TidyStep(l: Ledger, op: Op)
    requires Tidy(l) && Detects(l, op)
    ensures Tidy(Step(l, op))
  {
    match op
    case Assess(id, newId, now) => TidyEvaluate(l, id, newId, now);
    case _ =>
  }

  /** Over every run in which the detectors cite stored events of the scope, sorted and once each, broken-off
      evaluations included: each active inference belongs to exactly one accepted candidate and rests on three
      distinct stored events of its scope, and no slot holds two. */
  lemma {:induction false} RunKeeps(l: Ledger, ops: seq<Op>)
    requires Sound(l) && Tidy(l)
    requires forall i | 0 <= i < |ops| :: MintsNew(Run(l, ops[..i]), ops[i]) && Detects(Run(l, ops[..i]), ops[i])
    ensures Sound(Run(l, ops)) && Tidy(Run(l, ops))
  {
    if ops != [] {
      var n := |ops| - 1;
      assert forall i | 0 <= i < n :: ops[..n][..i] == ops[..i];
      RunKeeps(l, ops[..n]);
      TidyStepSound(Run(l, ops[..n]), ops[n]);
      TidyStep(Run(l, ops[..n]), ops[n]);
    }
  }
}
