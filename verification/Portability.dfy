/** The import protocol: plan against the store, then write sessions, events and records in order.
    The process may die after any write; what is proved is what a later run makes of that. */
module Portability {
  import opened Common
  import opened History
  import opened Records

  datatype SessionRow = SessionRow(id: string, session: Session)
  datatype EventRow = EventRow(id: Option<int>, event: Event)
  datatype RecordRow = RecordRow(id: string, record: Record)

  /** The parsed rows of one export. `skillRoots` are the workspace roots its skill rows mention. */
  datatype Bundle = Bundle(
    sessions: seq<SessionRow>, events: seq<EventRow>, records: seq<RecordRow>, skillRoots: seq<string>)

  datatype Options = Options(
    defaultWorkspace: Option<string>, workspaceMap: map<string, string>, origin: string, dryRun: bool)

  /** `svc` serves the history writes; `recordOk` is the shape check on records. */
  datatype Env = Env(svc: Services, recordOk: Record -> bool)

  datatype Store = Store(history: History, records: map<string, Record>)

  // ── Planning ───────────────────────────────────────────────────────────

  datatype Action = Insert | Update | Duplicate | Conflict | SkipOlder

  datatype Planned = Planned(id: string, record: Record, action: Action)

  datatype Plan = Plan(sessions: seq<SessionRow>, events: seq<EventRow>, records: seq<Planned>)

  predicate IsWrite(a: Action) { a == Insert || a == Update }

  /** Same content: import origin is bookkeeping, and evidence ids are local coordinates of which
      only the number matters. */
  predicate SameRecord(a: Record, b: Record) {
    |a.evidence| == |b.evidence| && a.(origin := None, evidence := []) == b.(origin := None, evidence := [])
  }

  function DecideMerge(local: Record, imported: Record): Action {
    if imported.updatedAt < local.updatedAt then SkipOlder
    else if imported.updatedAt == local.updatedAt then
      if SameRecord(local, imported) then Duplicate else Conflict
    else if AuthorityRank(imported.authority) < AuthorityRank(local.authority) then Conflict
    else Update
  }

  function ActionFor(records: map<string, Record>, row: RecordRow): Action {
    if row.id in records then DecideMerge(records[row.id], row.record) else Insert
  }

  function SourceRoots(svc: Services, b: Bundle): set<string> {
    (set r <- b.sessions | svc.trim(r.session.workspace) != "" :: r.session.workspace)
    + (set r <- b.events | svc.trim(r.event.workspace) != "" :: r.event.workspace)
    + (set r <- b.records | r.record.workspace.Some? && svc.trim(r.record.workspace.value) != "" ::
        r.record.workspace.value)
    + (set w <- b.skillRoots | svc.trim(w) != "" :: w)
  }

  /** The default target applies only when the bundle speaks of exactly one workspace. */
  function AutoDefault(svc: Services, b: Bundle, opts: Options): Option<string> {
    if opts.defaultWorkspace.Some? && |SourceRoots(svc, b)| == 1 then opts.defaultWorkspace else None
  }

  function MappedWorkspace(svc: Services, opts: Options, auto: Option<string>, ws: string): Option<string> {
    if ws in opts.workspaceMap then Some(svc.canon(opts.workspaceMap[ws]))
    else if auto.Some? then Some(svc.canon(auto.value))
    else None
  }

  function PlannedSession(svc: Services, opts: Options, auto: Option<string>, r: SessionRow): SessionRow {
    r.(session := r.session.(workspace := MappedWorkspace(svc, opts, auto,
        r.session.workspace).GetOr(r.session.workspace)))
  }

  function PlannedEvent(svc: Services, opts: Options, auto: Option<string>, r: EventRow): EventRow {
    r.(event := r.event.(workspace := MappedWorkspace(svc, opts, auto, r.event.workspace).GetOr(r.event.workspace)))
  }

  /** A scoped record whose workspace maps nowhere is skipped. */
  predicate Kept(svc: Services, opts: Options, auto: Option<string>, r: RecordRow) {
    r.record.scope == Global || MappedWorkspace(svc, opts, auto, r.record.workspace.GetOr("")).Some?
  }

  function Localized(svc: Services, opts: Options, auto: Option<string>, r: RecordRow): RecordRow {
    if r.record.scope == Global then r
    else r.(record := r.record.(workspace := MappedWorkspace(svc, opts, auto, r.record.workspace.GetOr(""))))
  }

  function KeptRows(svc: Services, opts: Options, auto: Option<string>, rows: seq<RecordRow>): seq<RecordRow> {
    if rows == [] then []
    else
      var last := rows[|rows| - 1];
      KeptRows(svc, opts, auto, rows[..|rows| - 1])
      + if Kept(svc, opts, auto, last) then [Localized(svc, opts, auto, last)] else []
  }

  predicate Resolves(h: History, planned: set<int>, c: Citation) {
    c.Cite? && (c.id in planned || c.id in h.events)
  }

  function PlannedIds(rows: seq<EventRow>): set<int> { set r <- rows | r.id.Some? :: r.id.value }

  predicate RowPlans(env: Env, h: History, b: Bundle, opts: Options, r: RecordRow) {
    && env.recordOk(r.record)
    && (Kept(env.svc, opts, AutoDefault(env.svc, b, opts), r) ==>
          forall i | 0 <= i < |r.record.evidence| :: Resolves(h, PlannedIds(b.events), r.record.evidence[i]))
  }

  /** One malformed row or one citation that resolves nowhere refuses the whole bundle. */
  predicate PlanOk(env: Env, h: History, b: Bundle, opts: Options) {
    && (forall i | 0 <= i < |b.events| :: env.svc.eventOk(b.events[i].event.(session := None)))
    && (forall i | 0 <= i < |b.records| :: RowPlans(env, h, b, opts, b.records[i]))
  }

  function Rows(env: Env, b: Bundle, opts: Options): seq<RecordRow> {
    KeptRows(env.svc, opts, AutoDefault(env.svc, b, opts), b.records)
  }

  function Decided(records: map<string, Record>, rows: seq<RecordRow>): (ps: seq<Planned>) {
    seq(|rows|, i requires 0 <= i < |rows| => Planned(rows[i].id, rows[i].record, ActionFor(records, rows[i])))
  }

  function SessionsToWrite(env: Env, b: Bundle, opts: Options): seq<SessionRow> {
    var auto := AutoDefault(env.svc, b, opts);
    seq(|b.sessions|, i requires 0 <= i < |b.sessions| => PlannedSession(env.svc, opts, auto, b.sessions[i]))
  }

  function EventsToWrite(env: Env, b: Bundle, opts: Options): seq<EventRow> {
    var auto := AutoDefault(env.svc, b, opts);
    seq(|b.events|, i requires 0 <= i < |b.events| => PlannedEvent(env.svc, opts, auto, b.events[i]))
  }

  function BuildPlan(env: Env, st: Store, b: Bundle, opts: Options): Result<Plan> {
    if PlanOk(env, st.history, b, opts)
    then Ok(Plan(SessionsToWrite(env, b, opts), EventsToWrite(env, b, opts), Decided(st.records, Rows(env, b, opts))))
    else Err
  }

  // ── Applying: history writes ───────────────────────────────────────────

  datatype Write = PutSession(s: SessionRow) | PutEvent(e: EventRow)

  function ApplyWrite(svc: Services, h: History, w: Write): Result<History> {
    match w
    case PutSession(r) => ImportSession(svc, h, r.id, r.session)
    case PutEvent(r) =>
      match ImportEvent(svc, h, r.event)
      case Ok(done) => Ok(done.history)
      case Err => Err
  }

  datatype Progress = Progress(history: History, failed: bool)

  /** Writes in order, up to the first refusal. */
  function Writes(svc: Services, h: History, ws: seq<Write>): Progress {
    if ws == [] then Progress(h, false)
    else
      var p := Writes(svc, h, ws[..|ws| - 1]);
      if p.failed then p
      else
        match ApplyWrite(svc, p.history, ws[|ws| - 1])
        case Ok(t) => Progress(t, false)
        case Err => Progress(p.history, true)
  }

  function WriteList(sessions: seq<SessionRow>, events: seq<EventRow>): seq<Write> {
    seq(|sessions|, i requires 0 <= i < |sessions| => PutSession(sessions[i]))
    + seq(|events|, i requires 0 <= i < |events| => PutEvent(events[i]))
  }

  function TrimmedIds(svc: Services, rows: seq<SessionRow>): set<string> { set r <- rows :: svc.trim(r.id) }

  /** The rows this run inserted itself, under their ids as written in the bundle: only these are recounted.
      The inserted session has the trimmed id, so a padded id is recounted in vain. */
  function NewSessions(svc: Services, h: History, rows: seq<SessionRow>): seq<string> {
    if rows == [] then []
    else
      var front, id := rows[..|rows| - 1], rows[|rows| - 1].id;
      if svc.trim(id) in h.sessions || svc.trim(id) in TrimmedIds(svc, front) then NewSessions(svc, h, front)
      else NewSessions(svc, h, front) + [id]
  }

  /** Original id to local id, the last bundled row winning; a row without an id counts as 0. */
  function EventMap(svc: Services, byKey: map<string, int>, rows: seq<EventRow>): map<int, int> {
    if rows == [] then map[]
    else
      var last := rows[|rows| - 1];
      var before := EventMap(svc, byKey, rows[..|rows| - 1]);
      if ImportKey(svc, last.event) in byKey
      then before[last.id.GetOr(0) := byKey[ImportKey(svc, last.event)]]
      else before
  }

  // ── Applying: record writes ────────────────────────────────────────────

  function Remapped(m: map<int, int>, c: Citation): Citation {
    if c.Cite? && !c.padded && c.id in m then Cite(m[c.id], false) else c
  }

  function RemappedAll(m: map<int, int>, cs: seq<Citation>): seq<Citation> {
    seq(|cs|, i requires 0 <= i < |cs| => Remapped(m, cs[i]))
  }

  function Normalized(svc: Services, r: Record): Record {
    r.(workspace := if r.workspace.Some? then Some(svc.canon(r.workspace.value)) else None,
       task := KeepTrimmed(svc, r.task))
  }

  /** Every citation must name a stored event, of the record's own workspace when it has one. */
  predicate EvidenceHolds(h: History, r: Record) {
    forall i | 0 <= i < |r.evidence| ::
      && r.evidence[i].Cite? && r.evidence[i].id in h.events
      && (r.workspace.Some? ==> h.events[r.evidence[i].id].workspace == r.workspace.value)
  }

  predicate Storable(env: Env, h: History, r: Record) {
    env.recordOk(Normalized(env.svc, r)) && EvidenceHolds(h, Normalized(env.svc, r))
  }

  /** Upsert that keeps the first creation time. */
  function Upserted(svc: Services, records: map<string, Record>, id: string, r: Record): map<string, Record> {
    var n := Normalized(svc, r);
    records[id := if id in records then n.(createdAt := records[id].createdAt) else n]
  }

  function Outgoing(m: map<int, int>, opts: Options, r: Record): Record {
    r.(evidence := RemappedAll(m, r.evidence), origin := Some(opts.origin))
  }

  datatype RecordProgress = RecordProgress(records: map<string, Record>, failed: bool)

  function ApplyRecord(
      env: Env, h: History, m: map<int, int>, opts: Options, records: map<string, Record>, p: Planned)
    : Result<map<string, Record>>
  {
    if !IsWrite(p.action) then Ok(records)
    else if Storable(env, h, Outgoing(m, opts, p.record))
    then Ok(Upserted(env.svc, records, p.id, Outgoing(m, opts, p.record)))
    else Err
  }

  function RecordWrites(
      env: Env, h: History, m: map<int, int>, opts: Options, records: map<string, Record>, ps: seq<Planned>)
    : RecordProgress
  {
    if ps == [] then RecordProgress(records, false)
    else
      var done := RecordWrites(env, h, m, opts, records, ps[..|ps| - 1]);
      if done.failed then done
      else
        match ApplyRecord(env, h, m, opts, done.records, ps[|ps| - 1])
        case Ok(t) => RecordProgress(t, false)
        case Err => RecordProgress(done.records, true)
  }

  // ── The whole import, and where it may stop ────────────────────────────

  datatype Outcome = Outcome(store: Store, ok: bool)

  function ListOf(env: Env, b: Bundle, opts: Options): seq<Write> {
    WriteList(SessionsToWrite(env, b, opts), EventsToWrite(env, b, opts))
  }

  /** History after all session and event writes. */
  function Written(env: Env, st: Store, b: Bundle, opts: Options): Progress {
    Writes(env.svc, st.history, ListOf(env, b, opts))
  }

  function Recounted(env: Env, st: Store, b: Bundle, opts: Options): History {
    Recount(Written(env, st, b, opts).history, NewSessions(env.svc, st.history, SessionsToWrite(env, b, opts)))
  }

  function MapOf(env: Env, h: History, b: Bundle, opts: Options): map<int, int> {
    EventMap(env.svc, h.byKey, EventsToWrite(env, b, opts))
  }

  function RecordsAfter(env: Env, h: History, st: Store, b: Bundle, opts: Options, ps: seq<Planned>): RecordProgress {
    RecordWrites(env, h, MapOf(env, h, b, opts), opts, st.records, ps)
  }

  function Import(env: Env, st: Store, b: Bundle, opts: Options): Outcome {
    if !PlanOk(env, st.history, b, opts) then Outcome(st, false)
    else if opts.dryRun then Outcome(st, true)
    else
      var p := Written(env, st, b, opts);
      if p.failed then Outcome(Store(p.history, st.records), false)
      else
        var h := Recounted(env, st, b, opts);
        var r := RecordsAfter(env, h, st, b, opts, Decided(st.records, Rows(env, b, opts)));
        Outcome(Store(h, r.records), !r.failed)
  }

  /** A point where the process may die: after `n` history writes, counter refreshes or record writes. */
  datatype Stop = InWrites(n: nat) | InRecounts(n: nat) | InRecords(n: nat)

  function Upto<T>(s: seq<T>, n: nat): seq<T> { if n <= |s| then s[..n] else s }

  /** What is on disk when the process dies there. */
  function Interrupted(env: Env, st: Store, b: Bundle, opts: Options, stop: Stop): Store {
    if !PlanOk(env, st.history, b, opts) || opts.dryRun then st
    else
      var p := Written(env, st, b, opts);
      match stop
      case InWrites(n) => Store(Writes(env.svc, st.history, Upto(ListOf(env, b, opts), n)).history, st.records)
      case InRecounts(n) =>
        if p.failed then Store(p.history, st.records)
        else Store(Recount(p.history, Upto(NewSessions(env.svc, st.history, SessionsToWrite(env, b, opts)), n)),
            st.records)
      case InRecords(n) =>
        if p.failed then Store(p.history, st.records)
        else
          var h := Recounted(env, st, b, opts);
          Store(h, RecordsAfter(env, h, st, b, opts, Upto(Decided(st.records, Rows(env, b, opts)), n)).records)
  }
}
