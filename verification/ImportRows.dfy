/** Where the rows of a bundle land: which workspace they get, and what else of them is stored. */
module ImportRows {
  import opened Common
  import opened History
  import opened HistoryRows
  import opened Records
  import opened Portability
  import opened Convergence
  import opened ImportSafety
  import opened MergeOrder

  // ── The workspace of a row ─────────────────────────────────────────────

  /** The bundle speaks of this workspace. */
  ghost predicate IsRoot(svc: Services, b: Bundle, ws: string) {
    && svc.trim(ws) != ""
    && (|| (exists r | r in b.sessions :: r.session.workspace == ws)
        || (exists r | r in b.events :: r.event.workspace == ws)
        || (exists r | r in b.records :: r.record.workspace == Some(ws))
        || ws in b.skillRoots)
  }

  ghost predicate OneRoot(svc: Services, b: Bundle) {
    exists ws :: IsRoot(svc, b, ws) && forall other | IsRoot(svc, b, other) :: other == ws
  }

  /** An explicit mapping decides; failing that the default, if the bundle speaks of one workspace only. */
  ghost function Target(svc: Services, b: Bundle, opts: Options, ws: string): Option<string> {
    if ws in opts.workspaceMap then Some(svc.canon(opts.workspaceMap[ws]))
    else if opts.defaultWorkspace.Some? && OneRoot(svc, b) then Some(svc.canon(opts.defaultWorkspace.value))
    else None
  }

  lemma RootsAreSource(svc: Services, b: Bundle, ws: string)
    ensures ws in SourceRoots(svc, b) <==> IsRoot(svc, b, ws)
  {
  }

  lemma OneRootIff(svc: Services, b: Bundle)
    ensures |SourceRoots(svc, b)| == 1 <==> OneRoot(svc, b)
  {
    var roots := SourceRoots(svc, b);
    forall ws ensures ws in roots <==> IsRoot(svc, b, ws) { RootsAreSource(svc, b, ws); }
    if |roots| == 1 {
      var ws :| ws in roots;
      assert |roots - {ws}| == 0;
      assert IsRoot(svc, b, ws) && forall other | IsRoot(svc, b, other) :: other == ws;
    }
    if ws :| IsRoot(svc, b, ws) && forall other | IsRoot(svc, b, other) :: other == ws {
      assert roots == {ws};
    }
  }

  lemma TargetIsMapped(svc: Services, b: Bundle, opts: Options, ws: string)
    ensures MappedWorkspace(svc, opts, AutoDefault(svc, b, opts), ws) == Target(svc, b, opts, ws)
  {
    OneRootIff(svc, b);
  }

  /** Sessions and events that have no target keep their own workspace. */
  ghost function PlaceOf(svc: Services, b: Bundle, opts: Options, ws: string): string {
    Target(svc, b, opts, ws).GetOr(ws)
  }

  ghost predicate Complete(env: Env, st: Store, b: Bundle, opts: Options) {
    !opts.dryRun && Import(env, st, b, opts).ok
  }

  // ── Sessions ───────────────────────────────────────────────────────────

  /** The same session, apart from what its events count and time. */
  predicate SameBut(a: Session, b: Session) { a.(eventCount := b.eventCount, updatedAt := b.updatedAt) == b }

  lemma WriteKeepsSession(svc: Services, h: History, w: Write, sid: string)
    requires ApplyWrite(svc, h, w).Ok? && sid in h.sessions
    ensures var t := ApplyWrite(svc, h, w).value; sid in t.sessions && SameBut(t.sessions[sid], h.sessions[sid])
  {
  }

  lemma {:induction false} WritesKeepSession(svc: Services, h: History, ws: seq<Write>, sid: string)
    requires sid in h.sessions
    ensures var t := Writes(svc, h, ws).history; sid in t.sessions && SameBut(t.sessions[sid], h.sessions[sid])
  {
    if ws != [] {
      var p := Writes(svc, h, ws[..|ws| - 1]);
      WritesKeepSession(svc, h, ws[..|ws| - 1], sid);
      if !p.failed && ApplyWrite(svc, p.history, ws[|ws| - 1]).Ok? {
        WriteKeepsSession(svc, p.history, ws[|ws| - 1], sid);
      }
    }
  }

  lemma {:induction false} RecountKeepsSession(h: History, ids: seq<string>, sid: string)
    requires sid in h.sessions
    ensures var t := Recount(h, ids); sid in t.sessions && SameBut(t.sessions[sid], h.sessions[sid])
  {
    if ids != [] { RecountKeepsSession(h, ids[..|ids| - 1], sid); }
  }

  /** The first row of an id that is not stored yet is what gets stored. */
  lemma FirstRowOpens(svc: Services, h: History, ws: seq<Write>, i: nat)
    requires !Writes(svc, h, ws).failed && i < |ws| && ws[i].PutSession? && svc.trim(ws[i].s.id) !in h.sessions
    requires forall j | 0 <= j < i && ws[j].PutSession? :: svc.trim(ws[j].s.id) != svc.trim(ws[i].s.id)
    ensures var t, sid := Writes(svc, h, ws).history, svc.trim(ws[i].s.id);
            sid in t.sessions && SameBut(t.sessions[sid], SessionFor(svc, ws[i].s.session))
  {
    var sid := svc.trim(ws[i].s.id);
    var before, after := ws[..i], ws[..i + 1];
    assert ws == after + ws[i + 1..] && after[..i] == before && after[i] == ws[i];
    WritesConcat(svc, h, after, ws[i + 1..]);
    if sid in Writes(svc, h, before).history.sessions { WritesOpen(svc, h, before, sid); }
    SessionImportLeaves(svc, Writes(svc, h, before).history, ws[i].s.id, ws[i].s.session);
    WritesKeepSession(svc, Writes(svc, h, after).history, ws[i + 1..], sid);
  }

  /** A bundled session that the store does not have is stored in its target workspace, or in its own. */
  lemma SessionsLand(env: Env, st: Store, b: Bundle, opts: Options, i: nat)
    requires Complete(env, st, b, opts) && i < |b.sessions|
    requires env.svc.trim(b.sessions[i].id) !in st.history.sessions
    requires forall j | 0 <= j < i :: env.svc.trim(b.sessions[j].id) != env.svc.trim(b.sessions[i].id)
    ensures var t, s := Import(env, st, b, opts).store.history, b.sessions[i].session;
            var sid := env.svc.trim(b.sessions[i].id);
            && sid in t.sessions
            && SameBut(t.sessions[sid],
                       SessionFor(env.svc, s.(workspace := PlaceOf(env.svc, b, opts, s.workspace))))
  {
    var ws, sid := ListOf(env, b, opts), env.svc.trim(b.sessions[i].id);
    TargetIsMapped(env.svc, b, opts, b.sessions[i].session.workspace);
    assert ws[i] == PutSession(SessionsToWrite(env, b, opts)[i]);
    forall j | 0 <= j < i && ws[j].PutSession? ensures env.svc.trim(ws[j].s.id) != sid {
      assert ws[j] == PutSession(SessionsToWrite(env, b, opts)[j]);
    }
    FirstRowOpens(env.svc, st.history, ws, i);
    RecountKeepsSession(Written(env, st, b, opts).history,
                        NewSessions(env.svc, st.history, SessionsToWrite(env, b, opts)), sid);
  }

  lemma {:induction false} FirstIsNew(svc: Services, h: History, rows: seq<SessionRow>, i: nat)
    requires i < |rows| && svc.trim(rows[i].id) !in h.sessions
    requires forall j | 0 <= j < i :: svc.trim(rows[j].id) != svc.trim(rows[i].id)
    ensures rows[i].id in NewSessions(svc, h, rows)
  {
    var n := |rows| - 1;
    if i < n {
      FirstIsNew(svc, h, rows[..n], i);
    }
  }

  /** Its counter is the number of its events, if its id was written without blanks around it. */
  lemma SessionsAreCounted(env: Env, st: Store, b: Bundle, opts: Options, i: nat)
    requires Complete(env, st, b, opts) && i < |b.sessions|
    requires env.svc.trim(b.sessions[i].id) == b.sessions[i].id && b.sessions[i].id !in st.history.sessions
    requires forall j | 0 <= j < i :: env.svc.trim(b.sessions[j].id) != b.sessions[i].id
    ensures var t, sid := Import(env, st, b, opts).store.history, b.sessions[i].id;
            sid in t.sessions && t.sessions[sid].eventCount == Linked(t.events, sid)
  {
    var rows, sid := SessionsToWrite(env, b, opts), b.sessions[i].id;
    forall j | 0 <= j < |rows| ensures rows[j].id == b.sessions[j].id {}
    FirstIsNew(env.svc, st.history, rows, i);
    SessionsLand(env, st, b, opts, i);
    RecountTouchesCounters(Written(env, st, b, opts).history, NewSessions(env.svc, st.history, rows));
    RecountKeys(Written(env, st, b, opts).history, NewSessions(env.svc, st.history, rows));
    RecountSets(Written(env, st, b, opts).history, NewSessions(env.svc, st.history, rows), sid);
  }

  lemma {:induction false} RecountKeys(h: History, ids: seq<string>)
    ensures Recount(h, ids).sessions.Keys == h.sessions.Keys
  {
    if ids != [] { RecountKeys(h, ids[..|ids| - 1]); }
  }

  /** A stored session is left alone, apart from what its events count and time. */
  lemma StoredSessionsStay(env: Env, st: Store, b: Bundle, opts: Options, sid: string)
    requires sid in st.history.sessions
    ensures var t := Import(env, st, b, opts).store.history;
            sid in t.sessions && SameBut(t.sessions[sid], st.history.sessions[sid])
  {
    WritesKeepSession(env.svc, st.history, ListOf(env, b, opts), sid);
    RecountKeepsSession(Written(env, st, b, opts).history,
                        NewSessions(env.svc, st.history, SessionsToWrite(env, b, opts)), sid);
  }

  // ── Events ─────────────────────────────────────────────────────────────

  lemma {:induction false} KeysComeFrom(svc: Services, h: History, ws: seq<Write>, key: string)
    requires key in Writes(svc, h, ws).history.byKey && key !in h.byKey
    ensures exists i | 0 <= i < |ws| :: ws[i].PutEvent? && ImportKey(svc, ws[i].e.event) == key
  {
    if ws != [] {
      var front := ws[..|ws| - 1];
      if key in Writes(svc, h, front).history.byKey {
        KeysComeFrom(svc, h, front, key);
        var i :| 0 <= i < |front| && front[i].PutEvent? && ImportKey(svc, front[i].e.event) == key;
        assert ws[i] == front[i];
      } else {
        assert ws[|ws| - 1].PutEvent?;
      }
    }
  }

  lemma KeyIsImportKey(svc: Services, e: Event)
    ensures ImportKey(svc, e) == KeyFor(svc, e)
  {
  }

  /** The first row of a key that is not stored yet is what gets stored, linked to a session known by then. */
  lemma FirstRowAdds(svc: Services, h: History, ws: seq<Write>, i: nat)
    requires WellFormed(h) && !Writes(svc, h, ws).failed && i < |ws| && ws[i].PutEvent?
    requires KeyFor(svc, ws[i].e.event) !in h.byKey
    requires forall j | 0 <= j < i && ws[j].PutEvent? :: KeyFor(svc, ws[j].e.event) != KeyFor(svc, ws[i].e.event)
    ensures var t, e, key := Writes(svc, h, ws).history, ws[i].e.event, KeyFor(svc, ws[i].e.event);
            && key in t.byKey && t.byKey[key] in t.events
            && t.events[t.byKey[key]]
               == RowOf(svc, e, LinkFor(svc, Writes(svc, h, ws[..i]).history, e), svc.trim(e.kind), Some(key))
  {
    var e, key := ws[i].e.event, KeyFor(svc, ws[i].e.event);
    var before, after := ws[..i], ws[..i + 1];
    assert ws == after + ws[i + 1..] && after[..i] == before && after[i] == ws[i];
    WritesConcat(svc, h, after, ws[i + 1..]);
    var p, q := Writes(svc, h, before).history, Writes(svc, h, after).history;
    forall w: Event ensures ImportKey(svc, w) == KeyFor(svc, w) { KeyIsImportKey(svc, w); }
    if key in p.byKey { KeysComeFrom(svc, h, before, key); }
    ImportingLeaves(svc, p, e);
    WritesTrack(svc, h, after, "");
    WritesTrack(svc, q, ws[i + 1..], "");
  }

  /** The session the event names is stored, or brought along by the bundle. */
  ghost function LandingLink(env: Env, st: Store, b: Bundle, e: Event): Option<string> {
    if e.session.Some? && env.svc.trim(e.session.value) != ""
       && (e.session.value in st.history.sessions
           || exists r | r in b.sessions :: env.svc.trim(r.id) == e.session.value)
    then e.session else None
  }

  /** By the time of the event writes the sessions are the stored ones and the bundled ones. */
  lemma SessionsKnown(env: Env, st: Store, b: Bundle, opts: Options, n: nat, sid: string)
    requires |b.sessions| <= n <= |ListOf(env, b, opts)| && !Written(env, st, b, opts).failed
    ensures sid in Writes(env.svc, st.history, ListOf(env, b, opts)[..n]).history.sessions <==>
            sid in st.history.sessions || exists r | r in b.sessions :: env.svc.trim(r.id) == sid
  {
    var ws := ListOf(env, b, opts);
    var p := Writes(env.svc, st.history, ws[..n]);
    assert ws == ws[..n] + ws[n..];
    WritesConcat(env.svc, st.history, ws[..n], ws[n..]);
    WritesSettle(env.svc, st.history, ws[..n]);
    if sid in p.history.sessions && sid !in st.history.sessions {
      OpenedAreBundled(env, st, b, opts, n, sid);
    }
    if r :| r in b.sessions && env.svc.trim(r.id) == sid {
      var j :| 0 <= j < |b.sessions| && b.sessions[j] == r;
      assert ws[..n][j] == PutSession(SessionsToWrite(env, b, opts)[j]);
      assert Settled(env.svc, p.history, ws[..n][j]);
    }
  }

  ghost function Moved(env: Env, b: Bundle, opts: Options, e: Event): Event {
    e.(workspace := PlaceOf(env.svc, b, opts, e.workspace))
  }

  lemma EventAt(env: Env, b: Bundle, opts: Options, j: nat)
    requires j < |b.events|
    ensures var ws, at := ListOf(env, b, opts), |b.sessions| + j;
            && at < |ws| && ws[at].PutEvent?
            && ws[at].e.event == Moved(env, b, opts, b.events[j].event)
  {
    TargetIsMapped(env.svc, b, opts, b.events[j].event.workspace);
  }

  /** The key an event is stored under, once moved. */
  ghost function LandingKey(env: Env, b: Bundle, opts: Options, j: nat): string
    requires j < |b.events|
  {
    KeyFor(env.svc, Moved(env, b, opts, b.events[j].event))
  }

  ghost predicate FirstOfKey(env: Env, b: Bundle, opts: Options, i: nat) {
    i < |b.events| && forall j | 0 <= j < i :: LandingKey(env, b, opts, j) != LandingKey(env, b, opts, i)
  }

  lemma EarlierKeysDiffer(env: Env, b: Bundle, opts: Options, i: nat, at: nat)
    requires FirstOfKey(env, b, opts, i) && at < |b.sessions| + i && ListOf(env, b, opts)[at].PutEvent?
    ensures KeyFor(env.svc, ListOf(env, b, opts)[at].e.event) != LandingKey(env, b, opts, i)
  {
    assert at >= |b.sessions|;
    EventAt(env, b, opts, at - |b.sessions|);
    assert LandingKey(env, b, opts, at - |b.sessions|) != LandingKey(env, b, opts, i);
  }

  /** A bundled event whose key the store does not have is stored in its target workspace, or in its own. */
  lemma EventsLand(env: Env, st: Store, b: Bundle, opts: Options, i: nat)
    requires WellFormed(st.history) && Complete(env, st, b, opts) && FirstOfKey(env, b, opts, i)
    requires LandingKey(env, b, opts, i) !in st.history.byKey
    ensures var t, e := Import(env, st, b, opts).store.history, b.events[i].event;
            var key := LandingKey(env, b, opts, i);
            && key in t.byKey && t.byKey[key] in t.events
            && t.events[t.byKey[key]] == RowOf(env.svc, Moved(env, b, opts, e), LandingLink(env, st, b, e),
                                               env.svc.trim(e.kind), Some(key))
  {
    var ws, at := ListOf(env, b, opts), |b.sessions| + i;
    EventAt(env, b, opts, i);
    forall j | 0 <= j < at && ws[j].PutEvent? ensures KeyFor(env.svc, ws[j].e.event) != LandingKey(env, b, opts, i) {
      EarlierKeysDiffer(env, b, opts, i, j);
    }
    FirstRowAdds(env.svc, st.history, ws, at);
    LinkLands(env, st, b, opts, at, b.events[i].event);
    RecountTouchesCounters(Written(env, st, b, opts).history,
                           NewSessions(env.svc, st.history, SessionsToWrite(env, b, opts)));
  }

  lemma LinkLands(env: Env, st: Store, b: Bundle, opts: Options, n: nat, e: Event)
    requires |b.sessions| <= n <= |ListOf(env, b, opts)| && !Written(env, st, b, opts).failed
    ensures LinkFor(env.svc, Writes(env.svc, st.history, ListOf(env, b, opts)[..n]).history, Moved(env, b, opts, e))
            == LandingLink(env, st, b, e)
  {
    if e.session.Some? { SessionsKnown(env, st, b, opts, n, e.session.value); }
  }

  // ── Records ────────────────────────────────────────────────────────────

  /** A record without a scope is taken as it is; a scoped one only if its workspace has a target. */
  ghost predicate Placed(env: Env, b: Bundle, opts: Options, r: Record) {
    r.scope == Global || Target(env.svc, b, opts, r.workspace.GetOr("")).Some?
  }

  ghost function PlacedIn(env: Env, b: Bundle, opts: Options, r: Record): Option<string>
    requires Placed(env, b, opts, r)
  {
    if r.scope != Global then Some(env.svc.canon(Target(env.svc, b, opts, r.workspace.GetOr("")).value))
    else match r.workspace
      case None => None
      case Some(ws) => Some(env.svc.canon(ws))
  }

  /** There is no such record yet, or an older one of no more authority. */
  predicate Supplants(records: map<string, Record>, row: RecordRow) {
    row.id in records ==>
      && records[row.id].updatedAt < row.record.updatedAt
      && AuthorityRank(records[row.id].authority) <= AuthorityRank(row.record.authority)
  }

  lemma SupplantsIsWrite(records: map<string, Record>, row: RecordRow)
    ensures IsWrite(ActionFor(records, row)) <==> Supplants(records, row)
  {
  }

  lemma KeptIsPlaced(env: Env, b: Bundle, opts: Options, row: RecordRow)
    ensures var auto, r := AutoDefault(env.svc, b, opts), row.record;
            && (Kept(env.svc, opts, auto, row) <==> Placed(env, b, opts, r))
            && (Placed(env, b, opts, r) ==>
                  var landed := Localized(env.svc, opts, auto, row);
                  && landed == row.(record := r.(workspace := landed.record.workspace))
                  && Normalized(env.svc, landed.record).workspace == PlacedIn(env, b, opts, r))
  {
    TargetIsMapped(env.svc, b, opts, row.record.workspace.GetOr(""));
  }

  lemma {:induction false} KeptRowsAre(svc: Services, opts: Options, auto: Option<string>, rows: seq<RecordRow>)
    ensures forall i | 0 <= i < |rows| && Kept(svc, opts, auto, rows[i]) ::
              Localized(svc, opts, auto, rows[i]) in KeptRows(svc, opts, auto, rows)
    ensures forall r | r in KeptRows(svc, opts, auto, rows) ::
              exists i | 0 <= i < |rows| :: Kept(svc, opts, auto, rows[i]) && r == Localized(svc, opts, auto, rows[i])
  {
    if rows != [] {
      var n := |rows| - 1;
      KeptRowsAre(svc, opts, auto, rows[..n]);
      forall r | r in KeptRows(svc, opts, auto, rows)
        ensures exists i | 0 <= i < |rows| :: Kept(svc, opts, auto, rows[i]) && r == Localized(svc, opts, auto, rows[i])
      {
        if r in KeptRows(svc, opts, auto, rows[..n]) {
          var i :| 0 <= i < n && Kept(svc, opts, auto, rows[i]) && r == Localized(svc, opts, auto, rows[i]);
        }
      }
    }
  }

  /** The stored row of a record that is written: in its place, its task trimmed, its origin noted, its first creation
      time kept, as many citations as before, and each of them a stored event of the record's workspace. */
  ghost predicate Lands(env: Env, st: Store, b: Bundle, opts: Options, row: RecordRow, t: Store) {
    && row.id in t.records && Placed(env, b, opts, row.record)
    && var r, n := row.record, t.records[row.id];
    && n == Record.Record(r.kind, r.namespace, r.content, r.authority, r.scope, PlacedIn(env, b, opts, r),
                          Label(env.svc, r.task), r.status, n.evidence, Some(opts.origin),
                          if row.id in st.records then st.records[row.id].createdAt else r.createdAt, r.updatedAt)
    && |n.evidence| == |r.evidence|
    && forall i | 0 <= i < |n.evidence| ::
         && n.evidence[i].Cite? && n.evidence[i].id in t.history.events
         && (n.workspace.Some? ==> t.history.events[n.evidence[i].id].workspace == n.workspace.value)
  }

  /** What is written for a row that has a place. */
  lemma WrittenForm(env: Env, b: Bundle, opts: Options, row: RecordRow, m: map<int, int>, at: nat)
    requires Placed(env, b, opts, row.record)
    ensures var r, landed := row.record, Localized(env.svc, opts, AutoDefault(env.svc, b, opts), row);
            && landed.id == row.id && landed.record.evidence == r.evidence && landed.record.createdAt == r.createdAt
            && landed.record.updatedAt == r.updatedAt && landed.record.authority == r.authority
            && Normalized(env.svc, Outgoing(m, opts, landed.record)).(createdAt := at)
               == Record.Record(r.kind, r.namespace, r.content, r.authority, r.scope, PlacedIn(env, b, opts, r),
                                Label(env.svc, r.task), r.status, RemappedAll(m, r.evidence), Some(opts.origin), at,
                                r.updatedAt)
  {
    KeptIsPlaced(env, b, opts, row);
  }

  /** The row that is written, found among the rows to write. */
  lemma PlacedIsWritten(env: Env, st: Store, b: Bundle, opts: Options, i: nat) returns (at: nat)
    requires Complete(env, st, b, opts) && UniqueIds(b.records) && i < |b.records|
    requires Placed(env, b, opts, b.records[i].record) && Supplants(st.records, b.records[i])
    ensures var t, h := Import(env, st, b, opts).store, Recounted(env, st, b, opts);
            var landed := Localized(env.svc, opts, AutoDefault(env.svc, b, opts), b.records[i]);
            var out := Outgoing(MapOf(env, h, b, opts), opts, landed.record);
            && t.history == h && Storable(env, h, out)
            && landed.id in t.records && t.records[landed.id] == Normalized(env.svc, out).(createdAt := at)
            && at == if landed.id in st.records then st.records[landed.id].createdAt else landed.record.createdAt
  {
    var rows, auto := Rows(env, b, opts), AutoDefault(env.svc, b, opts);
    var h := Recounted(env, st, b, opts);
    var landed := Localized(env.svc, opts, auto, b.records[i]);
    KeptIsPlaced(env, b, opts, b.records[i]);
    KeptRowsAre(env.svc, opts, auto, b.records);
    var k :| 0 <= k < |rows| && rows[k] == landed;
    SupplantsIsWrite(st.records, landed);
    assert Decided(st.records, rows)[..|rows|] == Decided(st.records, rows);
    KeptRowsUnique(env.svc, opts, auto, b.records);
    WrittenStays(env, h, MapOf(env, h, b, opts), opts, st.records, rows, |rows|, k);
    RowIsFound(rows, k);
    OneImportCreates(env, st, Job(b, opts), landed.id);
    at := if landed.id in st.records then st.records[landed.id].createdAt else landed.record.createdAt;
  }

  /** A record that has a place and supplants what is stored is written there. */
  lemma RecordsLand(env: Env, st: Store, b: Bundle, opts: Options, i: nat)
    requires Complete(env, st, b, opts) && UniqueIds(b.records) && i < |b.records|
    requires Placed(env, b, opts, b.records[i].record) && Supplants(st.records, b.records[i])
    ensures Lands(env, st, b, opts, b.records[i], Import(env, st, b, opts).store)
  {
    var at := PlacedIsWritten(env, st, b, opts, i);
    WrittenForm(env, b, opts, b.records[i], MapOf(env, Recounted(env, st, b, opts), b, opts), at);
  }

  lemma {:induction false} RowIsFound(rows: seq<RecordRow>, k: nat)
    requires UniqueIds(rows) && k < |rows|
    ensures RowFor(rows, rows[k].id) == Some(rows[k].record)
  {
    if k < |rows| - 1 { RowIsFound(rows[..|rows| - 1], k); }
  }

  /** A record that no row supplants stays as it is, or stays away. */
  lemma RecordsStay(env: Env, st: Store, b: Bundle, opts: Options, id: string)
    requires Complete(env, st, b, opts)
    requires forall i | 0 <= i < |b.records| && b.records[i].id == id ::
               !(Placed(env, b, opts, b.records[i].record) && Supplants(st.records, b.records[i]))
    ensures var t := Import(env, st, b, opts).store.records;
            (id in t <==> id in st.records) && (id in t ==> t[id] == st.records[id])
  {
    var rows, auto := Rows(env, b, opts), AutoDefault(env.svc, b, opts);
    var h, ps := Recounted(env, st, b, opts), Decided(st.records, rows);
    KeptRowsAre(env.svc, opts, auto, b.records);
    forall p | p in ps && p.id == id ensures !IsWrite(p.action) {
      var k :| 0 <= k < |ps| && ps[k] == p;
      assert rows[k] in rows;
      var i :| 0 <= i < |b.records| && Kept(env.svc, opts, auto, b.records[i])
               && rows[k] == Localized(env.svc, opts, auto, b.records[i]);
      KeptIsPlaced(env, b, opts, b.records[i]);
      SupplantsIsWrite(st.records, rows[k]);
    }
    UntouchedStays(env, h, MapOf(env, h, b, opts), opts, st.records, ps, id);
  }

  // ── Planning ───────────────────────────────────────────────────────────

  /** The same record, wherever it came from and whichever events it cites, as long as it cites as many. */
  predicate SaysTheSame(a: Record, b: Record) {
    && a.kind == b.kind && a.namespace == b.namespace && a.content == b.content && a.authority == b.authority
    && a.scope == b.scope && a.workspace == b.workspace && a.task == b.task && a.status == b.status
    && a.createdAt == b.createdAt && a.updatedAt == b.updatedAt && |a.evidence| == |b.evidence|
  }

  /** What is planned for a row against the stored record: nothing is overwritten that is newer, of more authority, or
      of the same time. */
  lemma PlannedAction(records: map<string, Record>, row: RecordRow)
    ensures var action := ActionFor(records, row);
            if row.id !in records then action == Insert
            else
              var local, new_ := records[row.id], row.record;
              if new_.updatedAt < local.updatedAt then action == SkipOlder
              else if new_.updatedAt > local.updatedAt then
                action == if AuthorityRank(new_.authority) >= AuthorityRank(local.authority) then Update else Conflict
              else action == if SaysTheSame(local, new_) then Duplicate else Conflict
  {
  }

  /** The citation names an event of the bundle or of the store. */
  ghost predicate Found(st: Store, b: Bundle, c: Citation) {
    c.Cite? && (c.id in st.history.events || exists r | r in b.events :: r.id == Some(c.id))
  }

  /** A bundle is planned exactly when its events and records are well formed and every record that has a place cites
      what is there; otherwise nothing at all is written. */
  lemma PlanningLeaves(env: Env, st: Store, b: Bundle, opts: Options)
    ensures var plans :=
              && (forall r | r in b.events :: env.svc.eventOk(r.event.(session := None)))
              && (forall r | r in b.records ::
                    && env.recordOk(r.record)
                    && (Placed(env, b, opts, r.record) ==> forall c | c in r.record.evidence :: Found(st, b, c)));
            && (plans <==> PlanOk(env, st.history, b, opts))
            && (!plans ==> Import(env, st, b, opts) == Outcome(st, false))
            && (plans && opts.dryRun ==> Import(env, st, b, opts) == Outcome(st, true))
  {
    forall i | 0 <= i < |b.records|
      ensures RowPlans(env, st.history, b, opts, b.records[i]) <==>
              && env.recordOk(b.records[i].record)
              && (Placed(env, b, opts, b.records[i].record) ==>
                    forall c | c in b.records[i].record.evidence :: Found(st, b, c))
    {
      KeptIsPlaced(env, b, opts, b.records[i]);
      forall c ensures Resolves(st.history, PlannedIds(b.events), c) <==> Found(st, b, c) {}
    }
  }
}
