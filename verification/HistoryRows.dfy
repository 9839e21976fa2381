/** What each history operation leaves in the tables, row by row and field by field. */
module HistoryRows {
  import opened Common
  import opened History

  // ── Texts ──────────────────────────────────────────────────────────────

  /** Redacted and cut to length, and dropped when nothing is left to read. */
  function Wording(svc: Services, t: Option<string>, max: nat): Option<string> {
    match t
    case None => None
    case Some(raw) => if svc.trim(svc.text(raw, max)) == "" then None else Some(svc.text(raw, max))
  }

  /** Trimmed, and dropped when blank. */
  function Label(svc: Services, t: Option<string>): Option<string> {
    match t
    case None => None
    case Some(raw) => if svc.trim(raw) == "" then None else Some(svc.trim(raw))
  }

  /** Redacted, and dropped when nothing is left. */
  function Body(svc: Services, t: Option<string>): Option<string> {
    match t
    case None => None
    case Some(raw) => if svc.blob(raw) == "" then None else Some(svc.blob(raw))
  }

  // ── Events ─────────────────────────────────────────────────────────────

  /** The row of an event: its workspace canonical, its texts cleaned, all else as given. */
  function RowOf(svc: Services, e: Event, session: Option<string>, kind: string, key: Option<string>): Event {
    Event(session, svc.canon(e.workspace), Label(svc, e.task), kind, e.tool, e.path, e.outcome,
          Wording(svc, e.summary, 2000), Body(svc, e.payload), key, e.source, e.createdAt)
  }

  /** The tables with one more event, counted and timed in its session. */
  ghost predicate Adds(h: History, t: History, row: Event) {
    && t.events == h.events[h.nextId := row] && t.nextId == h.nextId + 1
    && t.byKey == (if row.key.Some? then h.byKey[row.key.value := h.nextId] else h.byKey)
    && t.sessions.Keys == h.sessions.Keys
    && forall s | s in h.sessions ::
         t.sessions[s] == if row.session == Some(s)
                          then h.sessions[s].(eventCount := h.sessions[s].eventCount + 1, updatedAt := row.createdAt)
                          else h.sessions[s]
  }

  predicate KnownKey(h: History, key: Option<string>) { key.Some? && key.value in h.byKey }

  /** A recorded event is refused, found under its key, or added under the next id. */
  lemma RecordingLeaves(svc: Services, h: History, e: Event)
    ensures var r := RecordHistory(svc, h, e); var bad := !svc.inputOk(e) || svc.canon(e.workspace) == "";
            var lost := e.session.Some? && e.session.value !in h.sessions;
            && (r.Err? <==> bad || (!KnownKey(h, e.key) && lost))
            && (r.Ok? && KnownKey(h, e.key) ==> r.value == Recorded(h, h.byKey[e.key.value], true))
            && (r.Ok? && !KnownKey(h, e.key) ==>
                  !r.value.duplicate && r.value.id == h.nextId
                  && Adds(h, r.value.history, RowOf(svc, e, e.session, e.kind, e.key)))
  {
  }

  /** The key of an imported event: its own, or a digest of what it says. */
  function KeyFor(svc: Services, e: Event): string {
    if e.key.Some? then e.key.value
    else
      var row := RowOf(svc, e, None, svc.trim(e.kind), None);
      svc.digest(Material(row.workspace, row.kind, row.tool.GetOr(""), row.path.GetOr(""), row.outcome.GetOr(""),
                          row.summary.GetOr(""), row.payload.GetOr(""), row.createdAt))
  }

  /** An imported event keeps its session only if it is stored. */
  function LinkFor(svc: Services, h: History, e: Event): Option<string> {
    if e.session.Some? && svc.trim(e.session.value) != "" && e.session.value in h.sessions then e.session else None
  }

  /** An imported event is refused, found under its key, or added under the next id, with a key and a known session. */
  lemma ImportingLeaves(svc: Services, h: History, e: Event)
    ensures var r, key := ImportEvent(svc, h, e), KeyFor(svc, e);
            var row := RowOf(svc, e, LinkFor(svc, h, e), svc.trim(e.kind), Some(key));
            && (r.Err? <==> row.workspace == "" || row.kind == "" || !svc.eventOk(row.(session := None)))
            && (r.Ok? && key in h.byKey ==> r.value == Recorded(h, h.byKey[key], true))
            && (r.Ok? && key !in h.byKey ==>
                  !r.value.duplicate && r.value.id == h.nextId && Adds(h, r.value.history, row))
  {
  }

  // ── Sessions ───────────────────────────────────────────────────────────

  function SnapshotFor(svc: Services, s: Option<Snapshot>): Option<Snapshot> {
    match s
    case Some(Carried(text)) => if svc.blob(text) == "" then None else Some(Carried(svc.blob(text)))
    case _ => s
  }

  /** The row of a bundled session: cleaned, with nothing counted yet. */
  function SessionFor(svc: Services, s: Session): Session {
    Session(svc.canon(s.workspace), Label(svc, s.task), Wording(svc, s.title, 120), s.status, Label(svc, s.source),
            Label(svc, s.parent), s.startedAt, s.updatedAt, s.closedAt, Wording(svc, s.endReason, 120), 0,
            SnapshotFor(svc, s.snapshot))
  }

  /** A bundled session is stored under its trimmed id, unless that is blank, taken, or in no workspace. */
  lemma SessionImportLeaves(svc: Services, h: History, id: string, s: Session)
    ensures var r, sid := ImportSession(svc, h, id, s), svc.trim(id);
            && (r.Err? <==> sid == "" || svc.canon(s.workspace) == "")
            && (r.Ok? ==> r.value == if sid in h.sessions then h
                                     else h.(sessions := h.sessions[sid := SessionFor(svc, s)]))
  {
  }

  /** A new session is active and empty; ensuring opens one, untitled, exactly when none of the pair is active. */
  lemma OpeningLeaves(
      svc: Services, h: History, id: string, ws: string, task: Option<string>, title: Option<string>, now: nat)
    ensures var r, place := OpenSession(svc, h, id, ws, task, title, now), svc.canon(ws);
            && (r.Err? <==> place == "" || id in h.sessions)
            && Step(svc, h, Open(id, ws, task, title, now)) == (if r.Ok? then r.value else h)
            && (r.Ok? ==> r.value == h.(sessions := h.sessions[id :=
                  Session(place, Label(svc, task), title, Active, None, None, now, now, None, None, 0, None)]))
    ensures var running := exists s | s in h.sessions :: Runs(svc, h, ws, task, s);
            EnsureSession(svc, h, id, ws, task, now)
            == if running then Ok(h) else OpenSession(svc, h, id, ws, task, None, now)
  {
    forall s ensures Serves(svc, h, ws, task, s) <==> Runs(svc, h, ws, task, s) {}
    assert Resumes(svc, h, ws, task) <==> exists s | s in h.sessions :: Serves(svc, h, ws, task, s);
  }

  /** The session that is resumed was opened last of the active ones of the pair, ties to the larger id. */
  lemma ResumingFinds(svc: Services, h: History, ws: string, task: Option<string>, sid: string)
    ensures Newest(svc, h, ws, task, sid) <==>
            && Runs(svc, h, ws, task, sid)
            && forall s | s != sid && Runs(svc, h, ws, task, s) ::
                 && h.sessions[s].startedAt <= h.sessions[sid].startedAt
                 && (h.sessions[s].startedAt == h.sessions[sid].startedAt ==> Before(s, sid))
  {
    forall s ensures Serves(svc, h, ws, task, s) <==> Runs(svc, h, ws, task, s) {}
  }

  predicate Runs(svc: Services, h: History, ws: string, task: Option<string>, sid: string) {
    && sid in h.sessions && h.sessions[sid].status == Active && h.sessions[sid].workspace == svc.canon(ws)
    && h.sessions[sid].task == Label(svc, task)
  }

  /** Closing takes an active session to a final status, notes why, and keeps its summary with the counts of the day. */
  lemma ClosingLeaves(
      svc: Services, h: History, id: string, status: SessionStatus, reason: Option<string>, summary: Option<string>,
      now: nat)
    ensures var r := CloseSession(svc, h, id, status, reason, summary, now);
            && (r.Ok? <==> status != Active && id in h.sessions && h.sessions[id].status == Active)
            && (r.Ok? ==>
                  var s := h.sessions[id];
                  var note := Label(svc, Wording(svc, summary, 2000));
                  r.value == h.(sessions := h.sessions[id := Session(
                    s.workspace, s.task, s.title, status, s.source, s.parent, s.startedAt, now, Some(now),
                    Label(svc, Wording(svc, reason, 200)), s.eventCount,
                    if note.Some? then Some(Built(note.value, status, now, s.eventCount)) else None)]))
  {
  }

  /** A touch moves a session's time, a new heading its title. */
  lemma EditingLeaves(svc: Services, h: History, id: string, now: nat, heading: string)
    requires id in h.sessions
    ensures Step(svc, h, Touch(id, now)) == h.(sessions := h.sessions[id := h.sessions[id].(updatedAt := now)])
    ensures var title := Label(svc, Wording(svc, Some(heading), 120));
            Step(svc, h, Retitle(id, heading))
            == if title.None? then h else h.(sessions := h.sessions[id := h.sessions[id].(title := title)])
  {
  }
}
