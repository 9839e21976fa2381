/** Session and event history: the rows, the write steps, and what every run of them keeps. */
module History {
  import opened Common

  const MAX_SUMMARY_CHARS := 2000
  const MAX_TITLE_CHARS := 120
  const MAX_REASON_CHARS := 200

  datatype SessionStatus = Active | Completed | Abandoned

  /** The closing envelope: built by a close, or carried verbatim by an import. */
  datatype Snapshot =
    | Built(summary: string, status: SessionStatus, closedAt: nat, eventCount: int)
    | Carried(text: string)

  datatype Session = Session(
    workspace: string, task: Option<string>, title: Option<string>, status: SessionStatus,
    source: Option<string>, parent: Option<string>, startedAt: nat, updatedAt: nat,
    closedAt: Option<nat>, endReason: Option<string>, eventCount: int, snapshot: Option<Snapshot>)

  datatype Event = Event(
    session: Option<string>, workspace: string, task: Option<string>, kind: string,
    tool: Option<string>, path: Option<string>, outcome: Option<string>,
    summary: Option<string>, payload: Option<string>, key: Option<string>,
    source: Option<string>, createdAt: nat)

  /** What an event without a key is hashed from. */
  datatype Material = Material(
    workspace: string, kind: string, tool: string, path: string, outcome: string,
    summary: string, payload: string, createdAt: nat)

  /** The text services the history code calls: nothing below depends on how they work.
      `text` and `blob` redact and truncate, `digest` renders a content-addressed key,
      `eventOk` and `inputOk` are the shape checks on stored and on recorded events; neither
      looks at the session link. */
  datatype Services = Services(
    canon: string -> string, trim: string -> string,
    text: (string, nat) -> string, blob: string -> string,
    digest: Material -> string, eventOk: Event -> bool, inputOk: Event -> bool)

  /** The tables. `byKey` is the unique index on dedup keys; `nextId` the row-id counter. */
  datatype History = History(
    sessions: map<string, Session>, events: map<int, Event>, byKey: map<string, int>, nextId: int)

  datatype Recorded = Recorded(history: History, id: int, duplicate: bool)

  // ── Well-formed tables ─────────────────────────────────────────────────

  ghost predicate WellFormed(h: History) {
    && (forall id | id in h.events :: 0 < id < h.nextId)
    && (forall k | k in h.byKey :: h.byKey[k] in h.events && h.events[h.byKey[k]].key == Some(k))
    && (forall id | id in h.events && h.events[id].key.Some? ::
          h.events[id].key.value in h.byKey && h.byKey[h.events[id].key.value] == id)
    && h.nextId > 0
  }

  function LinkedIds(events: map<int, Event>, sid: string): (ids: set<int>) {
    set id | id in events && events[id].session == Some(sid)
  }

  function Linked(events: map<int, Event>, sid: string): int { |LinkedIds(events, sid)| }

  /** Every link has its session and every counter equals the linked rows. */
  ghost predicate Counted(h: History) {
    && (forall id | id in h.events && h.events[id].session.Some? :: h.events[id].session.value in h.sessions)
    && (forall sid | sid in h.sessions :: h.sessions[sid].eventCount == Linked(h.events, sid))
  }

  ghost predicate Valid(h: History) { WellFormed(h) && Counted(h) }

  lemma LinkedAfterInsert(events: map<int, Event>, id: int, e: Event, sid: string)
    requires id !in events
    ensures Linked(events[id := e], sid) == Linked(events, sid) + (if e.session == Some(sid) then 1 else 0)
  {
    var before, after := LinkedIds(events, sid), LinkedIds(events[id := e], sid);
    assert id !in before;
    assert after == if e.session == Some(sid) then before + {id} else before;
  }

  // ── Write steps ────────────────────────────────────────────────────────

  function KeepText(svc: Services, t: Option<string>, max: nat): Option<string> {
    if t.Some? && svc.trim(svc.text(t.value, max)) != "" then Some(svc.text(t.value, max)) else None
  }

  function KeepBlob(svc: Services, t: Option<string>): Option<string> {
    if t.Some? && svc.blob(t.value) != "" then Some(svc.blob(t.value)) else None
  }

  function KeepTrimmed(svc: Services, t: Option<string>): Option<string> {
    if t.Some? && svc.trim(t.value) != "" then Some(svc.trim(t.value)) else None
  }

  function KeepSnapshot(svc: Services, s: Option<Snapshot>): Option<Snapshot> {
    if s.Some? && s.value.Carried?
    then if svc.blob(s.value.text) == "" then None else Some(Carried(svc.blob(s.value.text)))
    else s
  }

  function Bumped(s: Session, at: nat): Session { s.(eventCount := s.eventCount + 1, updatedAt := at) }

  /** The fresh row, its index entry and the heartbeat of its session. */
  function Inserted(h: History, e: Event): History {
    History(
      if e.session.Some? && e.session.value in h.sessions
      then h.sessions[e.session.value := Bumped(h.sessions[e.session.value], e.createdAt)] else h.sessions,
      h.events[h.nextId := e],
      if e.key.Some? then h.byKey[e.key.value := h.nextId] else h.byKey,
      h.nextId + 1)
  }

  /** One event inside a transaction: replayed by key, refused on an unknown session, or inserted. */
  function RecordInTx(h: History, e: Event): Result<Recorded> {
    if e.key.Some? && e.key.value in h.byKey then Ok(Recorded(h, h.byKey[e.key.value], true))
    else if e.session.Some? && e.session.value !in h.sessions then Err
    else Ok(Recorded(Inserted(h, e), h.nextId, false))
  }

  /** A live event as it will be stored. */
  function Cleaned(svc: Services, e: Event): Event {
    e.(workspace := svc.canon(e.workspace), task := KeepTrimmed(svc, e.task),
       summary := KeepText(svc, e.summary, MAX_SUMMARY_CHARS), payload := KeepBlob(svc, e.payload))
  }

  function RecordHistory(svc: Services, h: History, e: Event): Result<Recorded> {
    if !svc.inputOk(e) || svc.canon(e.workspace) == "" then Err
    else RecordInTx(h, Cleaned(svc, e))
  }

  function SynthesizedKey(svc: Services, c: Event): string {
    svc.digest(Material(c.workspace, c.kind, c.tool.GetOr(""), c.path.GetOr(""), c.outcome.GetOr(""),
                        c.summary.GetOr(""), c.payload.GetOr(""), c.createdAt))
  }

  /** The key an imported event is stored under: its own, or one derived from its content. */
  function ImportKey(svc: Services, e: Event): string {
    if e.key.Some? then e.key.value else SynthesizedKey(svc, Cleaned(svc, e).(kind := svc.trim(e.kind)))
  }

  /** An imported event as it will be stored: unknown sessions are dropped, a key is always present. */
  function ImportedEvent(svc: Services, h: History, e: Event): Event {
    Cleaned(svc, e).(
      kind := svc.trim(e.kind),
      session := if e.session.Some? && svc.trim(e.session.value) != "" && e.session.value in h.sessions
                 then e.session else None,
      key := Some(ImportKey(svc, e)))
  }

  function ImportEvent(svc: Services, h: History, e: Event): Result<Recorded> {
    var row := ImportedEvent(svc, h, e);
    if row.workspace == "" || row.kind == "" || !svc.eventOk(row.(session := None)) then Err
    else RecordInTx(h, row)
  }

  /** A bundled session as it will be stored when absent: its counter starts at zero. */
  function ImportedSession(svc: Services, s: Session): Session {
    s.(workspace := svc.canon(s.workspace), task := KeepTrimmed(svc, s.task),
       title := KeepText(svc, s.title, MAX_TITLE_CHARS), source := KeepTrimmed(svc, s.source),
       parent := KeepTrimmed(svc, s.parent), endReason := KeepText(svc, s.endReason, MAX_TITLE_CHARS),
       snapshot := KeepSnapshot(svc, s.snapshot), eventCount := 0)
  }

  /** The stored id is trimmed. */
  function ImportSession(svc: Services, h: History, id: string, s: Session): Result<History> {
    if svc.trim(id) == "" || svc.canon(s.workspace) == "" then Err
    else if svc.trim(id) in h.sessions then Ok(h)
    else Ok(h.(sessions := h.sessions[svc.trim(id) := ImportedSession(svc, s)]))
  }

  function RecountOne(h: History, id: string): History {
    if id in h.sessions
    then h.(sessions := h.sessions[id := h.sessions[id].(eventCount := Linked(h.events, id))])
    else h
  }

  function Recount(h: History, ids: seq<string>): History {
    if ids == [] then h else RecountOne(Recount(h, ids[..|ids| - 1]), ids[|ids| - 1])
  }

  function OpenedSession(ws: string, task: Option<string>, title: Option<string>, now: nat): Session {
    Session(ws, task, title, Active, None, None, now, now, None, None, 0, None)
  }

  /** A freshly minted id is one the table does not hold. */
  function OpenSession(
      svc: Services, h: History, id: string, ws: string, task: Option<string>, title: Option<string>, now: nat)
    : Result<History>
  {
    if svc.canon(ws) == "" || id in h.sessions then Err
    else Ok(h.(sessions := h.sessions[id := OpenedSession(svc.canon(ws), KeepTrimmed(svc, task), title, now)]))
  }

  /** An active session of exactly this workspace and task. */
  predicate Serves(svc: Services, h: History, ws: string, task: Option<string>, sid: string) {
    sid in h.sessions && h.sessions[sid].workspace == svc.canon(ws) && h.sessions[sid].status == Active
    && h.sessions[sid].task == KeepTrimmed(svc, task)
  }

  predicate Resumes(svc: Services, h: History, ws: string, task: Option<string>) {
    exists sid | sid in h.sessions :: Serves(svc, h, ws, task, sid)
  }

  /** Opened later, or at the same time with the larger id. */
  predicate NewerSession(h: History, a: string, b: string)
    requires a in h.sessions && b in h.sessions
  {
    h.sessions[a].startedAt > h.sessions[b].startedAt
    || (h.sessions[a].startedAt == h.sessions[b].startedAt && Before(b, a))
  }

  /** The session that is resumed: the newest active one of the pair. */
  ghost predicate Newest(svc: Services, h: History, ws: string, task: Option<string>, sid: string) {
    Serves(svc, h, ws, task, sid)
    && forall other | other != sid && Serves(svc, h, ws, task, other) :: NewerSession(h, sid, other)
  }

  function EnsureSession(
      svc: Services, h: History, id: string, ws: string, task: Option<string>, now: nat): Result<History>
  {
    if Resumes(svc, h, ws, task) then Ok(h) else OpenSession(svc, h, id, ws, task, None, now)
  }

  function CloseSession(
      svc: Services, h: History, id: string, status: SessionStatus, reason: Option<string>, summary: Option<string>,
      now: nat): Result<History>
  {
    if status == Active || id !in h.sessions || h.sessions[id].status != Active then Err
    else
      var why := KeepTrimmed(svc, KeepText(svc, reason, MAX_REASON_CHARS));
      var note := KeepTrimmed(svc, KeepText(svc, summary, MAX_SUMMARY_CHARS));
      Ok(h.(sessions := h.sessions[id := h.sessions[id].(
        status := status, closedAt := Some(now), updatedAt := now, endReason := why,
        snapshot := if note.Some? then Some(Built(note.value, status, now, h.sessions[id].eventCount)) else None)]))
  }

  // ── Runs ───────────────────────────────────────────────────────────────

  datatype Op =
    | Open(id: string, ws: string, task: Option<string>, title: Option<string>, now: nat)
    | Ensure(id: string, ws: string, task: Option<string>, now: nat)
    | Record(event: Event)
    | ImportOne(event: Event)
    | ImportSess(id: string, session: Session)
    | RecountSome(ids: seq<string>)
    | Close(id: string, status: SessionStatus, reason: Option<string>, summary: Option<string>, now: nat)
    | Touch(id: string, now: nat)
    | Retitle(id: string, heading: string)

  function OrSame(h: History, r: Result<History>): History { if r.Ok? then r.value else h }
  function OrSameRecorded(h: History, r: Result<Recorded>): History { if r.Ok? then r.value.history else h }

  /** A refused operation leaves the tables alone. */
  function Step(svc: Services, h: History, op: Op): History {
    match op
    case Open(id, ws, task, title, now) => OrSame(h, OpenSession(svc, h, id, ws, task, title, now))
    case Ensure(id, ws, task, now) => OrSame(h, EnsureSession(svc, h, id, ws, task, now))
    case Record(e) => OrSameRecorded(h, RecordHistory(svc, h, e))
    case ImportOne(e) => OrSameRecorded(h, ImportEvent(svc, h, e))
    case ImportSess(id, s) => OrSame(h, ImportSession(svc, h, id, s))
    case RecountSome(ids) => Recount(h, ids)
    case Close(id, status, reason, summary, now) => OrSame(h, CloseSession(svc, h, id, status, reason, summary, now))
    case Touch(id, now) =>
      if id in h.sessions then h.(sessions := h.sessions[id := h.sessions[id].(updatedAt := now)]) else h
    case Retitle(id, heading) =>
      var cleaned := KeepTrimmed(svc, KeepText(svc, Some(heading), MAX_TITLE_CHARS));
      if cleaned.Some? && id in h.sessions
      then h.(sessions := h.sessions[id := h.sessions[id].(title := cleaned)]) else h
  }

  function Run(svc: Services, h: History, ops: seq<Op>): History {
    if ops == [] then h else Step(svc, Run(svc, h, ops[..|ops| - 1]), ops[|ops| - 1])
  }

  /** What no step takes back: stored events, their keys, and the ending of a closed session. */
  ghost predicate Extends(a: History, b: History) {
    && (forall id | id in a.events :: id in b.events && b.events[id] == a.events[id])
    && (forall k | k in a.byKey :: k in b.byKey && b.byKey[k] == a.byKey[k])
    && (forall sid | sid in a.sessions :: sid in b.sessions
          && (a.sessions[sid].status != Active ==> SameEnding(a.sessions[sid], b.sessions[sid])))
    && a.nextId <= b.nextId
  }

  ghost predicate SameEnding(a: Session, b: Session) {
    b.status == a.status && b.closedAt == a.closedAt && b.endReason == a.endReason && b.snapshot == a.snapshot
  }

  lemma InsertKeeps(h: History, e: Event)
    requires WellFormed(h)
    requires e.key.None? || e.key.value !in h.byKey
    ensures WellFormed(Inserted(h, e)) && Extends(h, Inserted(h, e))
    ensures Counted(h) && (e.session.None? || e.session.value in h.sessions) ==> Counted(Inserted(h, e))
  {
    if Counted(h) && (e.session.None? || e.session.value in h.sessions) { InsertCounts(h, e); }
  }

  lemma InsertCounts(h: History, e: Event)
    requires WellFormed(h) && Counted(h) && (e.session.None? || e.session.value in h.sessions)
    ensures Counted(Inserted(h, e))
  {
    var t := Inserted(h, e);
    assert h.nextId !in h.events;
    forall sid | sid in t.sessions ensures t.sessions[sid].eventCount == Linked(t.events, sid) {
      LinkedAfterInsert(h.events, h.nextId, e, sid);
    }
  }

  lemma FreshSessionKeeps(h: History, id: string, s: Session)
    requires Valid(h) && id !in h.sessions && s.eventCount == 0
    ensures Valid(h.(sessions := h.sessions[id := s])) && Extends(h, h.(sessions := h.sessions[id := s]))
  {
    forall e | e in h.events ensures h.events[e].session != Some(id) {
      assert h.events[e].session.Some? ==> h.events[e].session.value in h.sessions;
    }
    assert LinkedIds(h.events, id) == {};
  }

  lemma EditedSessionKeeps(h: History, id: string, s: Session)
    requires Valid(h) && id in h.sessions && s.eventCount == h.sessions[id].eventCount
    requires h.sessions[id].status == Active || SameEnding(h.sessions[id], s)
    ensures Valid(h.(sessions := h.sessions[id := s])) && Extends(h, h.(sessions := h.sessions[id := s]))
  {}

  lemma {:induction false} RecountChangesNothing(h: History, ids: seq<string>)
    requires Counted(h)
    ensures Recount(h, ids) == h
  {
    if ids != [] {
      RecountChangesNothing(h, ids[..|ids| - 1]);
      var id := ids[|ids| - 1];
      if id in h.sessions {
        assert h.sessions[id := h.sessions[id].(eventCount := Linked(h.events, id))] == h.sessions;
      }
    }
  }

  lemma EventStepKeeps(h: History, row: Event)
    requires Valid(h)
    ensures var t := OrSameRecorded(h, RecordInTx(h, row)); Valid(t) && Extends(h, t)
  {
    if row.key.None? || row.key.value !in h.byKey { InsertKeeps(h, row); }
  }

  lemma StepKeeps(svc: Services, h: History, op: Op)
    requires Valid(h)
    ensures Valid(Step(svc, h, op)) && Extends(h, Step(svc, h, op))
  {
    match op
    case Record(e) => EventStepKeeps(h, Cleaned(svc, e));
    case ImportOne(e) => EventStepKeeps(h, ImportedEvent(svc, h, e));
    case RecountSome(ids) => RecountChangesNothing(h, ids);
    case Open(_, _, _, _, _) => OpeningKeeps(svc, h, op);
    case Ensure(_, _, _, _) => OpeningKeeps(svc, h, op);
    case ImportSess(_, _) => OpeningKeeps(svc, h, op);
    case _ => EditingKeeps(svc, h, op);
  }

  lemma OpeningKeeps(svc: Services, h: History, op: Op)
    requires Valid(h) && (op.Open? || op.Ensure? || op.ImportSess?)
    ensures Valid(Step(svc, h, op)) && Extends(h, Step(svc, h, op))
  {
    var t, id := Step(svc, h, op), if op.ImportSess? then svc.trim(op.id) else op.id;
    if t != h { FreshSessionKeeps(h, id, t.sessions[id]); }
  }

  lemma EditingKeeps(svc: Services, h: History, op: Op)
    requires Valid(h) && (op.Close? || op.Touch? || op.Retitle?)
    ensures Valid(Step(svc, h, op)) && Extends(h, Step(svc, h, op))
  {
    var t := Step(svc, h, op);
    if t != h { EditedSessionKeeps(h, op.id, t.sessions[op.id]); }
  }

  /** Over any run, counters equal links, keys name one event each, and nothing stored or ended is rewritten. */
  lemma {:induction false} RunKeeps(svc: Services, h: History, ops: seq<Op>)
    requires Valid(h)
    ensures Valid(Run(svc, h, ops)) && Extends(h, Run(svc, h, ops))
  {
    if ops != [] {
      RunKeeps(svc, h, ops[..|ops| - 1]);
      StepKeeps(svc, Run(svc, h, ops[..|ops| - 1]), ops[|ops| - 1]);
    }
  }

  /** Once a key has an event, replaying it after any run returns that event's id and writes nothing. */
  lemma ReplayForever(svc: Services, h: History, first: Event, ops: seq<Op>, again: Event)
    requires Valid(h) && first.key.Some? && again.key == first.key
    requires RecordInTx(h, first).Ok?
    ensures var r := RecordInTx(h, first).value;
            var later := Run(svc, r.history, ops);
            RecordInTx(later, again) == Ok(Recorded(later, r.id, true))
  {
    var r := RecordInTx(h, first).value;
    if !r.duplicate { InsertKeeps(h, first); }
    RunKeeps(svc, r.history, ops);
  }

  /** Restart safety: ensuring returns the newest active session of the pair, the new one when there was none;
      a second call opens nothing and finds the very same session. */
  lemma EnsureResumes(
      svc: Services, h: History, id: string, ws: string, task: Option<string>, now: nat, id2: string, later: nat)
    requires EnsureSession(svc, h, id, ws, task, now).Ok?
    ensures var once := EnsureSession(svc, h, id, ws, task, now).value;
            && EnsureSession(svc, once, id2, ws, task, later) == Ok(once)
            && (Resumes(svc, h, ws, task) ==> once == h)
            && (!Resumes(svc, h, ws, task) ==> Newest(svc, once, ws, task, id))
            && forall a, b | Newest(svc, once, ws, task, a) && Newest(svc, once, ws, task, b) :: a == b
  {
    var once := EnsureSession(svc, h, id, ws, task, now).value;
    if !Resumes(svc, h, ws, task) {
      assert Serves(svc, once, ws, task, id);
      forall other | other != id && Serves(svc, once, ws, task, other) ensures false {
        assert Serves(svc, h, ws, task, other);
      }
    }
    forall a, b | Newest(svc, once, ws, task, a) && Newest(svc, once, ws, task, b) ensures a == b {
      if a != b {
        assert NewerSession(once, a, b) && NewerSession(once, b, a);
        BeforeConnected(a, b);
      }
    }
  }

  /** The raw append path links without bumping the counter: counters survive it exactly when the
      appended event carries no session, or is refused for reusing a key. */
  function AppendEvent(h: History, e: Event): History {
    if e.key.Some? && e.key.value in h.byKey then h
    else Inserted(h, e).(sessions := h.sessions)
  }

  lemma AppendKeepsCountsIff(h: History, e: Event)
    requires Valid(h)
    ensures Valid(AppendEvent(h, e)) <==> e.session.None? || (e.key.Some? && e.key.value in h.byKey)
  {
    if e.key.None? || e.key.value !in h.byKey {
      InsertKeeps(h, e);
      var t := AppendEvent(h, e);
      if e.session.Some? {
        assert t.events[h.nextId].session.value == e.session.value;
        LinkedAfterInsert(h.events, h.nextId, e, e.session.value);
      } else {
        forall sid | sid in t.sessions ensures t.sessions[sid].eventCount == Linked(t.events, sid) {
          LinkedAfterInsert(h.events, h.nextId, e, sid);
        }
      }
    }
  }
}
