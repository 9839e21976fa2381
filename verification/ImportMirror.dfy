/** The import as it runs: plan everything, then drive the store table by table. */
module ImportMirror {
  import opened Common
  import opened History
  import opened Records
  import opened Portability
  import opened Convergence
  import opened ImportSafety
  import opened ContextStore

  method PlanSessions(env: Env, b: Bundle, opts: Options) returns (sessions: seq<SessionRow>)
    ensures sessions == SessionsToWrite(env, b, opts)
  {
    var auto := AutoDefault(env.svc, b, opts);
    sessions := [];
    for i := 0 to |b.sessions|
      invariant sessions == SessionsToWrite(env, b, opts)[..i]
    {
      sessions := sessions + [PlannedSession(env.svc, opts, auto, b.sessions[i])];
    }
  }

  method PlanEvents(env: Env, b: Bundle, opts: Options) returns (ok: bool, events: seq<EventRow>, planned: set<int>)
    ensures ok <==> forall k | 0 <= k < |b.events| :: env.svc.eventOk(b.events[k].event.(session := None))
    ensures ok ==> events == EventsToWrite(env, b, opts) && planned == PlannedIds(b.events)
  {
    var auto := AutoDefault(env.svc, b, opts);
    events, planned := [], {};
    for i := 0 to |b.events|
      invariant events == EventsToWrite(env, b, opts)[..i]
      invariant planned == PlannedIds(b.events[..i])
      invariant forall k | 0 <= k < i :: env.svc.eventOk(b.events[k].event.(session := None))
    {
      if !env.svc.eventOk(b.events[i].event.(session := None)) {
        return false, [], {};
      }
      events := events + [PlannedEvent(env.svc, opts, auto, b.events[i])];
      assert b.events[..i + 1] == b.events[..i] + [b.events[i]];
      if b.events[i].id.Some? {
        planned := planned + {b.events[i].id.value};
      }
    }
    assert b.events[..|b.events|] == b.events;
    ok := true;
  }

  lemma DecidedNext(
      svc: Services, opts: Options, auto: Option<string>, records: map<string, Record>, rows: seq<RecordRow>, i: nat)
    requires i < |rows|
    ensures var local := Localized(svc, opts, auto, rows[i]);
            Decided(records, KeptRows(svc, opts, auto, rows[..i + 1])) ==
            Decided(records, KeptRows(svc, opts, auto, rows[..i]))
            + if Kept(svc, opts, auto, rows[i]) then [Planned(local.id, local.record, ActionFor(records, local))]
                else []
  {
    assert rows[..i + 1][..i] == rows[..i];
  }

  method PlanRecords(
      env: Env, store: ContextStore, b: Bundle, opts: Options, planned: set<int>) returns (ok: bool, rows: seq<Planned>)
    requires planned == PlannedIds(b.events)
    ensures ok <==> forall i | 0 <= i < |b.records| :: RowPlans(env, store.Tables(), b, opts, b.records[i])
    ensures ok ==> rows == Decided(store.records, Rows(env, b, opts))
  {
    var auto := AutoDefault(env.svc, b, opts);
    rows := [];
    for i := 0 to |b.records|
      invariant rows == Decided(store.records, KeptRows(env.svc, opts, auto, b.records[..i]))
      invariant forall k | 0 <= k < i :: RowPlans(env, store.Tables(), b, opts, b.records[k])
    {
      var row := b.records[i];
      DecidedNext(env.svc, opts, auto, store.records, b.records, i);
      if !env.recordOk(row.record) {
        assert !RowPlans(env, store.Tables(), b, opts, row);
        return false, [];
      }
      if Kept(env.svc, opts, auto, row) {
        var resolved := AllResolve(store, planned, row.record.evidence);
        if !resolved {
          assert !RowPlans(env, store.Tables(), b, opts, row);
          return false, [];
        }
        var local := Localized(env.svc, opts, auto, row);
        rows := rows + [Planned(local.id, local.record, ActionFor(store.records, local))];
      }
    }
    assert b.records[..|b.records|] == b.records;
    ok := true;
  }

  /** Plan against the store without touching it. */
  method PlanImport(env: Env, store: ContextStore, b: Bundle, opts: Options) returns (plan: Result<Plan>)
    ensures plan == BuildPlan(env, store.State(), b, opts)
  {
    var sessions := PlanSessions(env, b, opts);
    var eventsOk, events, planned := PlanEvents(env, b, opts);
    if !eventsOk { return Err; }
    var recordsOk, rows := PlanRecords(env, store, b, opts, planned);
    if !recordsOk { return Err; }
    return Ok(Plan(sessions, events, rows));
  }

  method AllResolve(store: ContextStore, planned: set<int>, cited: seq<Citation>) returns (all: bool)
    ensures all <==> forall i | 0 <= i < |cited| :: Resolves(store.Tables(), planned, cited[i])
  {
    for i := 0 to |cited|
      invariant forall k | 0 <= k < i :: Resolves(store.Tables(), planned, cited[k])
    {
      if cited[i].Garbled? || (cited[i].id !in planned && cited[i].id !in store.events) {
        assert !Resolves(store.Tables(), planned, cited[i]);
        return false;
      }
    }
    all := true;
  }

  /** One more write: the list goes on, or stops there for good. */
  lemma WritesAdvance(svc: Services, h0: History, h: History, ws: seq<Write>, i: nat)
    requires i < |ws| && Writes(svc, h0, ws[..i]) == Progress(h, false)
    ensures ApplyWrite(svc, h, ws[i]).Ok? ==>
        Writes(svc, h0, ws[..i + 1]) == Progress(ApplyWrite(svc, h, ws[i]).value, false)
    ensures ApplyWrite(svc, h, ws[i]).Err? ==> Writes(svc, h0, ws) == Progress(h, true)
  {
    assert ws[..i + 1][..i] == ws[..i];
    assert ws == ws[..i + 1] + ws[i + 1..];
    WritesConcat(svc, h0, ws[..i + 1], ws[i + 1..]);
  }

  /** After these rows: the ids this run inserted, and all the sessions there are. */
  ghost predicate Added(svc: Services, h0: History, rows: seq<SessionRow>, added: seq<string>, sessions: set<string>) {
    added == NewSessions(svc, h0, rows) && sessions == h0.sessions.Keys + TrimmedIds(svc, rows)
  }

  lemma AddedNext(svc: Services, h0: History, rows: seq<SessionRow>, i: nat, added: seq<string>, sessions: set<string>)
    requires i < |rows| && Added(svc, h0, rows[..i], added, sessions)
    ensures var sid := svc.trim(rows[i].id);
            Added(svc, h0, rows[..i + 1], if sid in sessions then added else added + [rows[i].id], sessions + {sid})
  {
    assert rows[..i + 1][..i] == rows[..i];
    TrimmedNext(svc, rows[..i + 1]);
  }

  /** Sessions first, so that event links survive; the ids inserted by this run are remembered. */
  method ApplySessions(env: Env, store: ContextStore, rows: seq<SessionRow>) returns (ok: bool, added: seq<string>)
    modifies store`sessions
    ensures Progress(store.Tables(), !ok) == Writes(env.svc, old(store.Tables()), WriteList(rows, []))
    ensures ok ==> added == NewSessions(env.svc, old(store.Tables()), rows)
  {
    added := [];
    ghost var h0, ws := store.Tables(), WriteList(rows, []);
    for i := 0 to |rows|
      invariant Progress(store.Tables(), false) == Writes(env.svc, h0, ws[..i])
      invariant Added(env.svc, h0, rows[..i], added, store.sessions.Keys)
    {
      assert ws[i] == PutSession(rows[i]);
      AddedNext(env.svc, h0, rows, i, added, store.sessions.Keys);
      WritesAdvance(env.svc, h0, store.Tables(), ws, i);
      ghost var was := store.sessions.Keys;
      var inserted;
      ok, inserted := store.ImportSession(env.svc, rows[i].id, rows[i].session);
      if !ok {
        return;
      }
      if inserted {
        added := added + [rows[i].id];
      }
      assert store.sessions.Keys == (if inserted then was + {env.svc.trim(rows[i].id)} else was)
                                 == was + {env.svc.trim(rows[i].id)};
    }
    assert ws[..|rows|] == ws && rows[..|rows|] == rows;
    ok := true;
  }

  lemma {:induction false} EventMapStable(svc: Services, a: map<string, int>, b: map<string, int>, rows: seq<EventRow>)
    requires forall k | k in a :: k in b && b[k] == a[k]
    requires forall i | 0 <= i < |rows| :: ImportKey(svc, rows[i].event) in a
    ensures EventMap(svc, b, rows) == EventMap(svc, a, rows)
  {
    if rows != [] { EventMapStable(svc, a, b, rows[..|rows| - 1]); }
  }

  /** An imported event is stored under its key, and the keys of others keep their rows. */
  lemma ImportedUnderKey(svc: Services, h: History, e: Event)
    requires WellFormed(h) && ImportEvent(svc, h, e).Ok?
    ensures var r := ImportEvent(svc, h, e).value;
            && WellFormed(r.history) && Extends(h, r.history)
            && ImportKey(svc, e) in r.history.byKey && r.history.byKey[ImportKey(svc, e)] == r.id
  {
    var row := ImportedEvent(svc, h, e);
    if row.key.value !in h.byKey { InsertKeeps(h, row); }
  }

  /** `local` maps the first `i` bundled events, all of them stored. */
  ghost predicate MapsUpTo(svc: Services, byKey: map<string, int>, rows: seq<EventRow>, i: nat, local: map<int, int>)
    requires i <= |rows|
  {
    && local == EventMap(svc, byKey, rows[..i])
    && forall k | 0 <= k < i :: ImportKey(svc, rows[k].event) in byKey
  }

  lemma MapAdvances(svc: Services, h: History, rows: seq<EventRow>, i: nat, local: map<int, int>)
    requires i < |rows| && WellFormed(h) && MapsUpTo(svc, h.byKey, rows, i, local)
    requires ImportEvent(svc, h, rows[i].event).Ok?
    ensures var r := ImportEvent(svc, h, rows[i].event).value;
            WellFormed(r.history) && MapsUpTo(svc, r.history.byKey, rows, i + 1, local[rows[i].id.GetOr(0) := r.id])
  {
    ImportedUnderKey(svc, h, rows[i].event);
    var b := ImportEvent(svc, h, rows[i].event).value.history.byKey;
    assert rows[..i + 1][..i] == rows[..i];
    EventMapStable(svc, h.byKey, b, rows[..i]);
  }

  /** Events next, building the map from original to local ids. */
  method ApplyEvents(env: Env, store: ContextStore, rows: seq<EventRow>) returns (ok: bool, local: map<int, int>)
    requires WellFormed(store.Tables())
    modifies store`sessions, store`events, store`byKey, store`nextId
    ensures Progress(store.Tables(), !ok) == Writes(env.svc, old(store.Tables()), WriteList([], rows))
    ensures ok ==> local == EventMap(env.svc, store.byKey, rows)
  {
    local := map[];
    ghost var h0, ws := store.Tables(), WriteList([], rows);
    for i := 0 to |rows|
      invariant WellFormed(store.Tables()) && MapsUpTo(env.svc, store.byKey, rows, i, local)
      invariant Progress(store.Tables(), false) == Writes(env.svc, h0, ws[..i])
    {
      assert ws[i] == PutEvent(rows[i]);
      WritesAdvance(env.svc, h0, store.Tables(), ws, i);
      if ImportEvent(env.svc, store.Tables(), rows[i].event).Ok? {
        MapAdvances(env.svc, store.Tables(), rows, i, local);
      }
      var id, duplicate;
      ok, id, duplicate := store.ImportEvent(env.svc, rows[i].event);
      if !ok {
        return;
      }
      local := local[rows[i].id.GetOr(0) := id];
    }
    assert ws[..|rows|] == ws && rows[..|rows|] == rows;
    ok := true;
  }

  /** Records last, their evidence in local ids. */
  method ApplyRecords(
      env: Env, store: ContextStore, local: map<int, int>, opts: Options, rows: seq<Planned>) returns (ok: bool)
    modifies store`records
    ensures RecordProgress(store.records, !ok)
        == RecordWrites(env, store.Tables(), local, opts, old(store.records), rows)
  {
    ghost var before := store.records;
    for i := 0 to |rows|
      invariant RecordProgress(store.records, false)
          == RecordWrites(env, store.Tables(), local, opts, before, rows[..i])
    {
      assert rows[..i + 1][..i] == rows[..i];
      if IsWrite(rows[i].action) {
        var evidence: seq<Citation> := [];
        for k := 0 to |rows[i].record.evidence|
          invariant evidence == RemappedAll(local, rows[i].record.evidence)[..k]
        {
          var cited := rows[i].record.evidence[k];
          if cited.Cite? && !cited.padded && cited.id in local {
            cited := Cite(local[cited.id], false);
          }
          evidence := evidence + [cited];
        }
        var r := rows[i].record.(evidence := evidence, origin := Some(opts.origin));
        assert r == Outgoing(local, opts, rows[i].record);
        ok := store.ImportRecord(env, rows[i].id, r);
        if !ok {
          assert RecordWrites(env, store.Tables(), local, opts, before, rows[..i + 1]).failed;
          assert rows == rows[..i + 1] + rows[i + 1..];
          RecordWritesConcat(env, store.Tables(), local, opts, before, rows[..i + 1], rows[i + 1..]);
          return;
        }
      }
    }
    assert rows[..|rows|] == rows;
    ok := true;
  }

  /** Import one bundle: nothing is written unless all of it plans. */
  method Import(env: Env, store: ContextStore, b: Bundle, opts: Options) returns (ok: bool)
    requires WellFormed(store.Tables())
    modifies store
    ensures Outcome(store.State(), ok) == Portability.Import(env, old(store.State()), b, opts)
  {
    ghost var st := store.State();
    var planned := PlanImport(env, store, b, opts);
    if planned.Err? {
      return false;
    }
    if opts.dryRun {
      return true;
    }
    var plan := planned.value;
    var added, local;
    ok, added := ApplySessions(env, store, plan.sessions);
    ghost var first, second := WriteList(plan.sessions, []), WriteList([], plan.events);
    assert ListOf(env, b, opts) == first + second;
    WritesConcat(env.svc, st.history, first, second);
    if !ok {
      return;
    }
    WritesTrack(env.svc, st.history, first, "");
    ok, local := ApplyEvents(env, store, plan.events);
    if !ok {
      return;
    }
    RecountTouchesCounters(store.Tables(), added);
    if added != [] {
      store.RecountSessions(added);
    }
    ok := ApplyRecords(env, store, local, opts, plan.records);
  }
}
