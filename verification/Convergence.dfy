/** An import that died half-way is finished by running it again; a finished one is repeated in vain. */
module Convergence {
  import opened Common
  import opened History
  import opened Records
  import opened Portability

  // ── History writes are absorbed when repeated ──────────────────────────

  ghost predicate Settled(svc: Services, h: History, w: Write) { ApplyWrite(svc, h, w) == Ok(h) }

  ghost predicate Grows(a: History, b: History) {
    a.sessions.Keys <= b.sessions.Keys && a.byKey.Keys <= b.byKey.Keys
  }

  lemma StepSettles(svc: Services, h: History, w: Write)
    requires ApplyWrite(svc, h, w).Ok?
    ensures var t := ApplyWrite(svc, h, w).value; Settled(svc, t, w) && Grows(h, t)
  {}

  lemma SettledStays(svc: Services, a: History, b: History, w: Write)
    requires Settled(svc, a, w) && Grows(a, b)
    ensures Settled(svc, b, w)
  {
    match w
    case PutSession(r) =>
      assert svc.trim(r.id) in a.sessions;
    case PutEvent(r) =>
      var before, after := ImportedEvent(svc, a, r.event), ImportedEvent(svc, b, r.event);
      assert before.(session := None) == after.(session := None);
      assert before.key.value in a.byKey;
  }

  lemma {:induction false} WritesConcat(svc: Services, h: History, a: seq<Write>, b: seq<Write>)
    ensures var p := Writes(svc, h, a);
            Writes(svc, h, a + b) == if p.failed then p else Writes(svc, p.history, b)
  {
    if b == [] {
      assert a + b == a;
    } else {
      WritesConcat(svc, h, a, b[..|b| - 1]);
      assert (a + b)[..|a + b| - 1] == a + b[..|b| - 1];
    }
  }

  lemma {:induction false} WritesSettle(svc: Services, h: History, ws: seq<Write>)
    ensures Grows(h, Writes(svc, h, ws).history)
    ensures !Writes(svc, h, ws).failed ==> forall i | 0 <= i < |ws| :: Settled(svc, Writes(svc, h, ws).history, ws[i])
  {
    if ws != [] {
      var front, last := ws[..|ws| - 1], ws[|ws| - 1];
      WritesSettle(svc, h, front);
      var p := Writes(svc, h, front);
      if !p.failed && ApplyWrite(svc, p.history, last).Ok? {
        StepSettles(svc, p.history, last);
        forall i | 0 <= i < |front| ensures Settled(svc, Writes(svc, h, ws).history, ws[i]) {
          assert ws[i] == front[i];
          SettledStays(svc, p.history, Writes(svc, h, ws).history, front[i]);
        }
      }
    }
  }

  lemma {:induction false} SettledWritesAreNoOps(svc: Services, h: History, ws: seq<Write>)
    requires forall i | 0 <= i < |ws| :: Settled(svc, h, ws[i])
    ensures Writes(svc, h, ws) == Progress(h, false)
  {
    if ws != [] { SettledWritesAreNoOps(svc, h, ws[..|ws| - 1]); }
  }

  /** Running the same list again from where it ended goes nowhere, refusal included. */
  lemma {:induction false} WritesIdempotent(svc: Services, h: History, ws: seq<Write>)
    ensures Writes(svc, Writes(svc, h, ws).history, ws) == Writes(svc, h, ws)
  {
    if ws != [] {
      var front, last := ws[..|ws| - 1], ws[|ws| - 1];
      var p := Writes(svc, h, front);
      WritesIdempotent(svc, h, front);
      if !p.failed {
        if ApplyWrite(svc, p.history, last).Ok? {
          WritesSettle(svc, h, ws);
          SettledWritesAreNoOps(svc, Writes(svc, h, ws).history, ws);
        }
      }
    }
  }

  /** Dying after any prefix and starting over ends where one uninterrupted pass ends. */
  lemma WritesResume(svc: Services, h: History, ws: seq<Write>, n: nat)
    requires n <= |ws|
    ensures Writes(svc, Writes(svc, h, ws[..n]).history, ws) == Writes(svc, h, ws)
  {
    var p := Writes(svc, h, ws[..n]);
    assert ws == ws[..n] + ws[n..];
    WritesConcat(svc, h, ws[..n], ws[n..]);
    WritesConcat(svc, p.history, ws[..n], ws[n..]);
    WritesIdempotent(svc, h, ws[..n]);
  }

  // ── What makes a write refuse ──────────────────────────────────────────

  /** The row as it will be stored has no id, workspace or kind, or fails the shape check: nothing in the store
      matters. */
  predicate Refuses(svc: Services, w: Write) {
    match w
    case PutSession(r) => svc.trim(r.id) == "" || svc.canon(r.session.workspace) == ""
    case PutEvent(r) =>
      || svc.canon(r.event.workspace) == "" || svc.trim(r.event.kind) == ""
      || !svc.eventOk(Cleaned(svc, r.event).(kind := svc.trim(r.event.kind), session := None,
                                             key := Some(ImportKey(svc, r.event))))
  }

  lemma RefusesIff(svc: Services, h: History, w: Write)
    ensures ApplyWrite(svc, h, w).Err? <==> Refuses(svc, w)
  {
    if w.PutEvent? {
      assert ImportedEvent(svc, h, w.e.event).(session := None)
          == Cleaned(svc, w.e.event).(kind := svc.trim(w.e.event.kind), session := None,
                                      key := Some(ImportKey(svc, w.e.event)));
    }
  }

  ghost predicate SomeRefuses(svc: Services, ws: seq<Write>) { exists i | 0 <= i < |ws| :: Refuses(svc, ws[i]) }

  /** Whether the history writes are all accepted is decided by the rows alone. */
  lemma {:induction false} WritesFailIff(svc: Services, h: History, ws: seq<Write>)
    ensures Writes(svc, h, ws).failed <==> SomeRefuses(svc, ws)
  {
    if ws != [] {
      var front, last := ws[..|ws| - 1], ws[|ws| - 1];
      WritesFailIff(svc, h, front);
      RefusesIff(svc, Writes(svc, h, front).history, last);
      SomeRefusesNext(svc, ws);
    }
  }

  lemma SomeRefusesNext(svc: Services, ws: seq<Write>)
    requires ws != []
    ensures SomeRefuses(svc, ws) <==> SomeRefuses(svc, ws[..|ws| - 1]) || Refuses(svc, ws[|ws| - 1])
  {
    var front := ws[..|ws| - 1];
    if i :| 0 <= i < |front| && Refuses(svc, front[i]) { assert Refuses(svc, ws[i]); }
    if i :| 0 <= i < |ws| && Refuses(svc, ws[i]) { if i < |front| { assert Refuses(svc, front[i]); } }
  }

  // ── Counters ───────────────────────────────────────────────────────────

  /** How far a session's counter is ahead of its links; an absent session counts as zero. */
  function Drift(h: History, sid: string): int {
    (if sid in h.sessions then h.sessions[sid].eventCount else 0) - Linked(h.events, sid)
  }

  lemma StepTracks(svc: Services, h: History, w: Write, sid: string)
    requires WellFormed(h) && ApplyWrite(svc, h, w).Ok?
    ensures var t := ApplyWrite(svc, h, w).value; WellFormed(t) && Extends(h, t) && Drift(t, sid) == Drift(h, sid)
  {
    if w.PutEvent? {
      var row := ImportedEvent(svc, h, w.e.event);
      if row.key.value !in h.byKey {
        InsertKeeps(h, row);
        LinkedAfterInsert(h.events, h.nextId, row, sid);
      }
    }
  }

  /** Session and event writes never change a drift, not even of the sessions they insert. */
  lemma {:induction false} WritesTrack(svc: Services, h: History, ws: seq<Write>, sid: string)
    requires WellFormed(h)
    ensures var t := Writes(svc, h, ws).history; WellFormed(t) && Extends(h, t) && Drift(t, sid) == Drift(h, sid)
  {
    if ws != [] {
      WritesTrack(svc, h, ws[..|ws| - 1], sid);
      var p := Writes(svc, h, ws[..|ws| - 1]);
      if !p.failed && ApplyWrite(svc, p.history, ws[|ws| - 1]).Ok? {
        StepTracks(svc, p.history, ws[|ws| - 1], sid);
      }
    }
  }

  /** No session that the import would insert and recount has drifted: for a bundled session the store lacks this says
      that no stored event links to it. */
  ghost predicate NoDangling(svc: Services, h: History, b: Bundle) {
    forall id | id in NewSessions(svc, h, b.sessions) && (id in h.sessions || id in TrimmedIds(svc, b.sessions)) ::
      Drift(h, id) == 0
  }

  lemma TrimmedNext(svc: Services, rows: seq<SessionRow>)
    requires rows != []
    ensures TrimmedIds(svc, rows) == TrimmedIds(svc, rows[..|rows| - 1]) + {svc.trim(rows[|rows| - 1].id)}
  {
    assert rows == rows[..|rows| - 1] + [rows[|rows| - 1]];
  }

  ghost predicate SameRowIds(rows: seq<SessionRow>, others: seq<SessionRow>) {
    |rows| == |others| && forall i | 0 <= i < |rows| :: rows[i].id == others[i].id
  }

  /** Which rows are new depends on their ids alone. */
  lemma {:induction false} NewSessionsById(svc: Services, h: History, rows: seq<SessionRow>, others: seq<SessionRow>)
    requires SameRowIds(rows, others)
    ensures TrimmedIds(svc, rows) == TrimmedIds(svc, others) && NewSessions(svc, h, rows) == NewSessions(svc, h, others)
  {
    if rows != [] {
      NewSessionsById(svc, h, rows[..|rows| - 1], others[..|rows| - 1]);
      TrimmedNext(svc, rows);
      TrimmedNext(svc, others);
    }
  }

  /** Fewer rows are new to a larger table, and none to one that has them all. */
  lemma {:induction false} NewSessionsShrink(svc: Services, a: History, c: History, rows: seq<SessionRow>)
    requires a.sessions.Keys <= c.sessions.Keys
    ensures forall id | id in NewSessions(svc, c, rows) :: id in NewSessions(svc, a, rows)
    ensures TrimmedIds(svc, rows) <= c.sessions.Keys ==> NewSessions(svc, c, rows) == []
  {
    if rows != [] {
      NewSessionsShrink(svc, a, c, rows[..|rows| - 1]);
      TrimmedNext(svc, rows);
    }
  }

  lemma SameIds(env: Env, b: Bundle, opts: Options, a: History, c: History)
    requires a.sessions.Keys <= c.sessions.Keys
    ensures var rows := SessionsToWrite(env, b, opts);
            && TrimmedIds(env.svc, rows) == TrimmedIds(env.svc, b.sessions)
            && NewSessions(env.svc, a, rows) == NewSessions(env.svc, a, b.sessions)
            && (forall id | id in NewSessions(env.svc, c, b.sessions) :: id in NewSessions(env.svc, a, b.sessions))
            && (TrimmedIds(env.svc, rows) <= c.sessions.Keys ==> NewSessions(env.svc, c, rows) == [])
  {
    var rows := SessionsToWrite(env, b, opts);
    NewSessionsById(env.svc, a, rows, b.sessions);
    NewSessionsShrink(env.svc, a, c, b.sessions);
    NewSessionsShrink(env.svc, a, c, rows);
  }

  lemma {:induction false} AccurateRecountsAreNoOps(h: History, ids: seq<string>)
    requires forall id | id in ids && id in h.sessions :: Drift(h, id) == 0
    ensures Recount(h, ids) == h
  {
    if ids != [] {
      var front, id := ids[..|ids| - 1], ids[|ids| - 1];
      AccurateRecountsAreNoOps(h, front);
      if id in h.sessions {
        assert h.sessions[id := h.sessions[id].(eventCount := Linked(h.events, id))] == h.sessions;
      }
    }
  }

  /** The sessions after the writes are those before and the trimmed ids of the bundle. */
  lemma {:induction false} WritesOpen(svc: Services, h: History, ws: seq<Write>, sid: string)
    requires sid in Writes(svc, h, ws).history.sessions && sid !in h.sessions
    ensures exists i | 0 <= i < |ws| :: ws[i].PutSession? && svc.trim(ws[i].s.id) == sid
  {
    if ws != [] {
      var front := ws[..|ws| - 1];
      if sid in Writes(svc, h, front).history.sessions {
        WritesOpen(svc, h, front, sid);
        var i :| 0 <= i < |front| && front[i].PutSession? && svc.trim(front[i].s.id) == sid;
        assert ws[i] == front[i];
      } else {
        assert ws[|ws| - 1].PutSession?;
      }
    }
  }

  lemma OpenedAreBundled(env: Env, st: Store, b: Bundle, opts: Options, n: nat, sid: string)
    requires sid in Writes(env.svc, st.history, Upto(ListOf(env, b, opts), n)).history.sessions
        && sid !in st.history.sessions
    ensures sid in TrimmedIds(env.svc, b.sessions)
  {
    var ws := Upto(ListOf(env, b, opts), n);
    WritesOpen(env.svc, st.history, ws, sid);
    var i :| 0 <= i < |ws| && ws[i].PutSession? && env.svc.trim(ws[i].s.id) == sid;
    assert b.sessions[i].id == ws[i].s.id;
  }

  /** Without dangling links the counter refresh after the writes finds nothing to correct. */
  lemma RecountsAreNoOps(env: Env, st: Store, b: Bundle, opts: Options, n: nat)
    requires WellFormed(st.history) && NoDangling(env.svc, st.history, b)
    ensures var h := Written(env, st, b, opts).history;
            var ids := NewSessions(env.svc, st.history, SessionsToWrite(env, b, opts));
            Recount(h, ids) == h && Recount(h, Upto(ids, n)) == h
  {
    var ws := ListOf(env, b, opts);
    var h := Written(env, st, b, opts).history;
    var ids := NewSessions(env.svc, st.history, SessionsToWrite(env, b, opts));
    SameIds(env, b, opts, st.history, st.history);
    assert Upto(ws, |ws|) == ws;
    forall id | id in ids && id in h.sessions ensures Drift(h, id) == 0 {
      WritesTrack(env.svc, st.history, ws, id);
      if id !in st.history.sessions { OpenedAreBundled(env, st, b, opts, |ws|, id); }
    }
    AccurateRecountsAreNoOps(h, ids);
    AccurateRecountsAreNoOps(h, Upto(ids, n));
  }

  /** A store reached inside the write phase still has no dangling links, and plans at least as well. */
  lemma PrefixKeepsPremises(env: Env, st: Store, b: Bundle, opts: Options, n: nat)
    requires WellFormed(st.history) && NoDangling(env.svc, st.history, b)
    ensures var h := Writes(env.svc, st.history, Upto(ListOf(env, b, opts), n)).history;
            WellFormed(h) && NoDangling(env.svc, h, b) && Extends(st.history, h)
  {
    var ws := Upto(ListOf(env, b, opts), n);
    var h := Writes(env.svc, st.history, ws).history;
    WritesTrack(env.svc, st.history, ws, "");
    WritesSettle(env.svc, st.history, ws);
    SameIds(env, b, opts, st.history, h);
    forall id | id in NewSessions(env.svc, h, b.sessions) && (id in h.sessions || id in TrimmedIds(env.svc, b.sessions))
      ensures Drift(h, id) == 0
    {
      WritesTrack(env.svc, st.history, ws, id);
      if id in h.sessions && id !in st.history.sessions { OpenedAreBundled(env, st, b, opts, n, id); }
    }
  }

  lemma PlanStaysOk(env: Env, a: History, c: History, b: Bundle, opts: Options)
    requires Extends(a, c) && PlanOk(env, a, b, opts)
    ensures PlanOk(env, c, b, opts)
  {
    forall i | 0 <= i < |b.records| ensures RowPlans(env, c, b, opts, b.records[i]) {
      assert RowPlans(env, a, b, opts, b.records[i]);
      var ev := b.records[i].record.evidence;
      if Kept(env.svc, opts, AutoDefault(env.svc, b, opts), b.records[i]) {
        forall j | 0 <= j < |ev| ensures Resolves(c, PlannedIds(b.events), ev[j]) {
          assert Resolves(a, PlannedIds(b.events), ev[j]);
        }
      }
    }
  }

  // ── Record writes are absorbed when re-planned and repeated ────────────

  ghost predicate UniqueIds(rows: seq<RecordRow>) {
    forall i, j | 0 <= i < j < |rows| :: rows[i].id != rows[j].id
  }

  lemma {:induction false} KeptRowsUnique(svc: Services, opts: Options, auto: Option<string>, rows: seq<RecordRow>)
    requires UniqueIds(rows)
    ensures UniqueIds(KeptRows(svc, opts, auto, rows))
    ensures forall r | r in KeptRows(svc, opts, auto, rows) :: exists i | 0 <= i < |rows| :: rows[i].id == r.id
  {
    if rows != [] {
      var front := rows[..|rows| - 1];
      KeptRowsUnique(svc, opts, auto, front);
      forall r | r in KeptRows(svc, opts, auto, rows) ensures exists i | 0 <= i < |rows| :: rows[i].id == r.id {
        if r in KeptRows(svc, opts, auto, front) {
          var i :| 0 <= i < |front| && front[i].id == r.id;
          assert rows[i].id == r.id;
        } else {
          assert rows[|rows| - 1].id == r.id;
        }
      }
      forall r | r in KeptRows(svc, opts, auto, front) ensures r.id != rows[|rows| - 1].id {
        var i :| 0 <= i < |front| && front[i].id == r.id;
        assert rows[i].id == r.id;
      }
    }
  }

  /** Where `n` planned rows have been handled: untouched ids as before, handled ids settled. */
  ghost predicate Handled(before: map<string, Record>, after: map<string, Record>, rows: seq<RecordRow>, n: nat)
    requires n <= |rows|
  {
    && (forall i | n <= i < |rows| :: ActionFor(after, rows[i]) == ActionFor(before, rows[i]))
    && (forall i | 0 <= i < n :: !IsWrite(ActionFor(after, rows[i])))
  }

  lemma OneRecordHandled(
      env: Env, h: History, m: map<int, int>, opts: Options, before: map<string, Record>, mid: map<string, Record>,
      rows: seq<RecordRow>, n: nat)
    requires n < |rows| && UniqueIds(rows) && Handled(before, mid, rows, n)
    requires ApplyRecord(env, h, m, opts, mid, Decided(before, rows)[n]).Ok?
    ensures Handled(before, ApplyRecord(env, h, m, opts, mid, Decided(before, rows)[n]).value, rows, n + 1)
  {
    var p := Decided(before, rows)[n];
    var after := ApplyRecord(env, h, m, opts, mid, p).value;
    assert ActionFor(mid, rows[n]) == p.action;
    if IsWrite(p.action) {
      assert after[rows[n].id].updatedAt == rows[n].record.updatedAt;
      forall i | 0 <= i < |rows| && i != n ensures ActionFor(after, rows[i]) == ActionFor(mid, rows[i]) {
        assert rows[i].id != rows[n].id;
      }
    }
  }

  lemma {:induction false} RecordsHandled(
      env: Env, h: History, m: map<int, int>, opts: Options, before: map<string, Record>, rows: seq<RecordRow>,
      n: nat)
    requires n <= |rows| && UniqueIds(rows)
    requires !RecordWrites(env, h, m, opts, before, Decided(before, rows)[..n]).failed
    ensures Handled(before, RecordWrites(env, h, m, opts, before, Decided(before, rows)[..n]).records, rows, n)
  {
    if n > 0 {
      var ps := Decided(before, rows);
      assert ps[..n][..n - 1] == ps[..n - 1];
      RecordsHandled(env, h, m, opts, before, rows, n - 1);
      OneRecordHandled(env, h, m, opts, before, RecordWrites(env, h, m, opts, before, ps[..n - 1]).records, rows,
          n - 1);
    }
  }

  lemma {:induction false} RecordWritesConcat(
      env: Env, h: History, m: map<int, int>, opts: Options, records: map<string, Record>, a: seq<Planned>,
      b: seq<Planned>)
    ensures var p := RecordWrites(env, h, m, opts, records, a);
            RecordWrites(env, h, m, opts, records, a + b)
            == if p.failed then p else RecordWrites(env, h, m, opts, p.records, b)
  {
    if b == [] {
      assert a + b == a;
    } else {
      RecordWritesConcat(env, h, m, opts, records, a, b[..|b| - 1]);
      assert (a + b)[..|a + b| - 1] == a + b[..|b| - 1];
    }
  }

  lemma {:induction false} DecidedAgainstIsNoOp(
      env: Env, h: History, m: map<int, int>, opts: Options, records: map<string, Record>, ps: seq<Planned>)
    requires forall p | p in ps :: !IsWrite(p.action)
    ensures RecordWrites(env, h, m, opts, records, ps) == RecordProgress(records, false)
  {
    if ps != [] { DecidedAgainstIsNoOp(env, h, m, opts, records, ps[..|ps| - 1]); }
  }

  lemma ReplannedLists(before: map<string, Record>, mid: map<string, Record>, rows: seq<RecordRow>, n: nat)
    requires n <= |rows| && Handled(before, mid, rows, n)
    ensures Decided(mid, rows)[n..] == Decided(before, rows)[n..]
    ensures forall p | p in Decided(mid, rows)[..n] :: !IsWrite(p.action)
  {}

  /** Re-planning against the records of a successful prefix replays nothing of it and continues alike. */
  lemma ReplannedMatches(
      env: Env, h: History, m: map<int, int>, opts: Options, before: map<string, Record>, rows: seq<RecordRow>,
      n: nat)
    requires n <= |rows| && UniqueIds(rows)
    requires !RecordWrites(env, h, m, opts, before, Decided(before, rows)[..n]).failed
    ensures var mid := RecordWrites(env, h, m, opts, before, Decided(before, rows)[..n]).records;
            RecordWrites(env, h, m, opts, mid, Decided(mid, rows))
                == RecordWrites(env, h, m, opts, before, Decided(before, rows))
  {
    var ps := Decided(before, rows);
    var mid := RecordWrites(env, h, m, opts, before, ps[..n]).records;
    var qs := Decided(mid, rows);
    assert qs[n..] == ps[n..] && RecordWrites(env, h, m, opts, mid, qs[..n]) == RecordProgress(mid, false) by {
      RecordsHandled(env, h, m, opts, before, rows, n);
      ReplannedLists(before, mid, rows, n);
      DecidedAgainstIsNoOp(env, h, m, opts, mid, qs[..n]);
    }
    assert ps == ps[..n] + ps[n..] && qs == qs[..n] + qs[n..];
    RecordWritesConcat(env, h, m, opts, before, ps[..n], ps[n..]);
    RecordWritesConcat(env, h, m, opts, mid, qs[..n], qs[n..]);
  }

  /** The last prefix before the first refusal. */
  lemma {:induction false} FirstRefusal(
      env: Env, h: History, m: map<int, int>, opts: Options, records: map<string, Record>, ps: seq<Planned>)
    returns (j: nat)
    requires RecordWrites(env, h, m, opts, records, ps).failed
    ensures j < |ps| && !RecordWrites(env, h, m, opts, records, ps[..j]).failed
    ensures RecordWrites(env, h, m, opts, records, ps[..j]).records
        == RecordWrites(env, h, m, opts, records, ps).records
  {
    var front := ps[..|ps| - 1];
    if RecordWrites(env, h, m, opts, records, front).failed {
      j := FirstRefusal(env, h, m, opts, records, front);
      assert front[..j] == ps[..j];
    } else {
      j := |ps| - 1;
    }
  }

  /** Dying after any prefix of the record writes and re-planning ends where one pass ends. */
  lemma RecordsResume(
      env: Env, h: History, m: map<int, int>, opts: Options, before: map<string, Record>, rows: seq<RecordRow>,
      n: nat)
    requires n <= |rows| && UniqueIds(rows)
    ensures var mid := RecordWrites(env, h, m, opts, before, Decided(before, rows)[..n]).records;
            RecordWrites(env, h, m, opts, mid, Decided(mid, rows))
                == RecordWrites(env, h, m, opts, before, Decided(before, rows))
  {
    var ps := Decided(before, rows);
    if RecordWrites(env, h, m, opts, before, ps[..n]).failed {
      var j := FirstRefusal(env, h, m, opts, before, ps[..n]);
      assert ps[..n][..j] == ps[..j];
      ReplannedMatches(env, h, m, opts, before, rows, j);
    } else {
      ReplannedMatches(env, h, m, opts, before, rows, n);
    }
  }

  /** Why ids must be unique within a bundle: both rows are planned against the store before either is written, so
      an older row behind a newer one of the same id overwrites it, and the next run changes the record again. */
  lemma StaleDuplicateDiverges(
      env: Env, h: History, m: map<int, int>, opts: Options, before: map<string, Record>, rows: seq<RecordRow>)
    requires |rows| == 2 && rows[0].id == rows[1].id && rows[0].id !in before
    requires rows[1].record.updatedAt < rows[0].record.updatedAt
    requires AuthorityRank(rows[1].record.authority) <= AuthorityRank(rows[0].record.authority)
    requires forall i | 0 <= i < 2 :: Storable(env, h, Outgoing(m, opts, rows[i].record))
    ensures var once := RecordWrites(env, h, m, opts, before, Decided(before, rows)).records;
            RecordWrites(env, h, m, opts, once, Decided(once, rows)).records != once
  {
    var id := rows[0].id;
    var ps := Decided(before, rows);
    var once := RecordWrites(env, h, m, opts, before, ps).records;
    TwoRecordWrites(env, h, m, opts, before, ps);
    assert once[id].updatedAt == rows[1].record.updatedAt;
    TwoRecordWrites(env, h, m, opts, once, Decided(once, rows));
  }

  lemma TwoRecordWrites(
      env: Env, h: History, m: map<int, int>, opts: Options, records: map<string, Record>, ps: seq<Planned>)
    requires |ps| == 2 && forall i | 0 <= i < 2 :: Storable(env, h, Outgoing(m, opts, ps[i].record))
    ensures var mid := ApplyRecord(env, h, m, opts, records, ps[0]);
            mid.Ok? && ApplyRecord(env, h, m, opts, mid.value, ps[1]).Ok?
            && RecordWrites(env, h, m, opts, records, ps)
                == RecordProgress(ApplyRecord(env, h, m, opts, mid.value, ps[1]).value, false)
  {
    assert ps[..1][..0] == [];
    assert RecordWrites(env, h, m, opts, records, ps[..1][..0]) == RecordProgress(records, false);
    assert ps[..1][0] == ps[0];
  }

  // ── The theorem ────────────────────────────────────────────────────────

  /** Whatever point the process died at, running the whole import again gives the very store, and
      the very verdict, of one uninterrupted import. */
  lemma CrashConverges(env: Env, st: Store, b: Bundle, opts: Options, stop: Stop)
    requires WellFormed(st.history) && NoDangling(env.svc, st.history, b) && UniqueIds(b.records)
    ensures Import(env, Interrupted(env, st, b, opts, stop), b, opts) == Import(env, st, b, opts)
  {
    if PlanOk(env, st.history, b, opts) && !opts.dryRun {
      var ws := ListOf(env, b, opts);
      match stop
      case InWrites(n) => DiedInWrites(env, st, b, opts, n);
      case InRecounts(n) =>
        RecountsAreNoOps(env, st, b, opts, n);
        assert Upto(ws, |ws|) == ws;
        DiedInWrites(env, st, b, opts, |ws|);
      case InRecords(n) =>
        if Written(env, st, b, opts).failed {
          assert Upto(ws, |ws|) == ws;
          DiedInWrites(env, st, b, opts, |ws|);
        } else {
          DiedInRecords(env, st, b, opts, n);
        }
    }
  }

  lemma DiedInWrites(env: Env, st: Store, b: Bundle, opts: Options, n: nat)
    requires WellFormed(st.history) && NoDangling(env.svc, st.history, b)
    requires PlanOk(env, st.history, b, opts) && !opts.dryRun
    ensures Import(env, Store(Writes(env.svc, st.history, Upto(ListOf(env, b, opts), n)).history, st.records), b, opts)
            == Import(env, st, b, opts)
  {
    var ws := ListOf(env, b, opts);
    var mid := Store(Writes(env.svc, st.history, Upto(ws, n)).history, st.records);
    PrefixKeepsPremises(env, st, b, opts, n);
    PlanStaysOk(env, st.history, mid.history, b, opts);
    assert ws[..|ws|] == ws;
    WritesResume(env.svc, st.history, ws, if n <= |ws| then n else |ws|);
    RecountsAreNoOps(env, st, b, opts, 0);
    RecountsAreNoOps(env, mid, b, opts, 0);
  }

  lemma DiedInRecords(env: Env, st: Store, b: Bundle, opts: Options, n: nat)
    requires WellFormed(st.history) && NoDangling(env.svc, st.history, b) && UniqueIds(b.records)
    requires PlanOk(env, st.history, b, opts) && !opts.dryRun && !Written(env, st, b, opts).failed
    ensures Import(env, Interrupted(env, st, b, opts, InRecords(n)), b, opts) == Import(env, st, b, opts)
  {
    var ws, rows := ListOf(env, b, opts), Rows(env, b, opts);
    var mid := Interrupted(env, st, b, opts, InRecords(n));
    RecountsAreNoOps(env, st, b, opts, 0);
    assert Upto(ws, |ws|) == ws && ws[..|ws|] == ws;
    PrefixKeepsPremises(env, st, b, opts, |ws|);
    PlanStaysOk(env, st.history, mid.history, b, opts);
    WritesResume(env.svc, st.history, ws, |ws|);
    RecountsAreNoOps(env, mid, b, opts, 0);
    KeptRowsUnique(env.svc, opts, AutoDefault(env.svc, b, opts), b.records);
    var ps := Decided(st.records, rows);
    var done := if n <= |ps| then n else |ps|;
    assert Upto(ps, n) == ps[..done];
    RecordsResume(env, mid.history, MapOf(env, mid.history, b, opts), opts, st.records, rows, done);
  }

  /** Importing the same bundle twice is importing it once. */
  lemma ImportIdempotent(env: Env, st: Store, b: Bundle, opts: Options)
    requires WellFormed(st.history) && NoDangling(env.svc, st.history, b) && UniqueIds(b.records)
    ensures Import(env, Import(env, st, b, opts).store, b, opts) == Import(env, st, b, opts)
  {
    var rows := Rows(env, b, opts);
    var stop := InRecords(|rows|);
    var ps := Decided(st.records, rows);
    assert Upto(ps, |rows|) == ps;
    assert Interrupted(env, st, b, opts, stop) == Import(env, st, b, opts).store;
    CrashConverges(env, st, b, opts, stop);
  }

  // ── The premise is exact ───────────────────────────────────────────────

  lemma {:induction false} RecountSets(h: History, ids: seq<string>, id: string)
    requires id in h.sessions
    ensures Recount(h, ids).events == h.events && Recount(h, ids).byKey == h.byKey
    ensures Recount(h, ids).sessions.Keys == h.sessions.Keys
    ensures Recount(h, ids).sessions[id].eventCount ==
            if id in ids then Linked(h.events, id) else h.sessions[id].eventCount
  {
    if ids != [] {
      RecountSets(h, ids[..|ids| - 1], id);
      assert ids == ids[..|ids| - 1] + [ids[|ids| - 1]];
    }
  }

  /** A session the import inserts and recounts has drifted: dying just before the counter refresh leaves its counter
      off for good. */
  lemma DanglingLinkDiverges(env: Env, st: Store, b: Bundle, opts: Options, id: string)
    requires WellFormed(st.history) && PlanOk(env, st.history, b, opts) && !opts.dryRun
    requires !Written(env, st, b, opts).failed
    requires id in NewSessions(env.svc, st.history, b.sessions)
        && (id in st.history.sessions || id in TrimmedIds(env.svc, b.sessions))
    requires Drift(st.history, id) != 0
    ensures Import(env, Interrupted(env, st, b, opts, InWrites(|ListOf(env, b, opts)|)), b, opts) != Import(env, st, b,
        opts)
  {
    var ws, rows := ListOf(env, b, opts), SessionsToWrite(env, b, opts);
    var h := Written(env, st, b, opts).history;
    var mid := Interrupted(env, st, b, opts, InWrites(|ws|));
    assert Upto(ws, |ws|) == ws && mid == Store(h, st.records) && ws[..|ws|] == ws;
    WritesTrack(env.svc, st.history, ws, id);
    AllOpened(env, st, b, opts);
    SameIds(env, b, opts, st.history, h);
    PlanStaysOk(env, st.history, h, b, opts);
    WritesResume(env.svc, st.history, ws, |ws|);
    RecountSets(h, NewSessions(env.svc, st.history, rows), id);
  }

  /** Writes that all succeed leave every bundled session stored. */
  lemma AllOpened(env: Env, st: Store, b: Bundle, opts: Options)
    requires !Written(env, st, b, opts).failed
    ensures var h := Written(env, st, b, opts).history;
            st.history.sessions.Keys <= h.sessions.Keys
                && TrimmedIds(env.svc, SessionsToWrite(env, b, opts)) <= h.sessions.Keys
  {
    var ws, rows := ListOf(env, b, opts), SessionsToWrite(env, b, opts);
    var h := Written(env, st, b, opts).history;
    WritesSettle(env.svc, st.history, ws);
    forall i | 0 <= i < |rows| ensures env.svc.trim(rows[i].id) in h.sessions {
      assert ws[i] == PutSession(rows[i]) && Settled(env.svc, h, ws[i]);
    }
  }

  /** An import whose history writes are refused somewhere converges whatever the links are: it never recounts. */
  lemma RefusedConverges(env: Env, st: Store, b: Bundle, opts: Options, stop: Stop)
    requires WellFormed(st.history) && PlanOk(env, st.history, b, opts) && !opts.dryRun
        && Written(env, st, b, opts).failed
    ensures Import(env, Interrupted(env, st, b, opts, stop), b, opts) == Import(env, st, b, opts)
  {
    var ws := ListOf(env, b, opts);
    var n := if stop.InWrites? && stop.n <= |ws| then stop.n else |ws|;
    var mid := Interrupted(env, st, b, opts, stop);
    assert ws[..|ws|] == ws;
    assert mid == Store(Writes(env.svc, st.history, ws[..n]).history, st.records);
    WritesTrack(env.svc, st.history, ws[..n], "");
    PlanStaysOk(env, st.history, mid.history, b, opts);
    WritesResume(env.svc, st.history, ws, n);
  }

  ghost predicate Converges(env: Env, st: Store, b: Bundle, opts: Options) {
    forall stop :: Import(env, Interrupted(env, st, b, opts, stop), b, opts) == Import(env, st, b, opts)
  }

  /** Every interruption of an import converges exactly when it plans nothing, one of its session or event rows is
      refused, or it inserts and recounts no session that has drifted. */
  lemma ConvergesIffNoDangling(env: Env, st: Store, b: Bundle, opts: Options)
    requires WellFormed(st.history) && UniqueIds(b.records)
    ensures Converges(env, st, b, opts) <==>
            || !PlanOk(env, st.history, b, opts) || opts.dryRun
            || SomeRefuses(env.svc, ListOf(env, b, opts)) || NoDangling(env.svc, st.history, b)
  {
    WritesFailIff(env.svc, st.history, ListOf(env, b, opts));
    if PlanOk(env, st.history, b, opts) && !opts.dryRun {
      if Written(env, st, b, opts).failed {
        forall stop { RefusedConverges(env, st, b, opts, stop); }
      } else if NoDangling(env.svc, st.history, b) {
        forall stop { CrashConverges(env, st, b, opts, stop); }
      } else {
        var id :| id in NewSessions(env.svc, st.history, b.sessions) && Drift(st.history, id) != 0
                  && (id in st.history.sessions || id in TrimmedIds(env.svc, b.sessions));
        DanglingLinkDiverges(env, st, b, opts, id);
      }
    }
  }

  /** Every history reached by recording, importing and closing is free of dangling links. */
  lemma HistoryRunsNeverDangle(svc: Services, h: History, ops: seq<Op>, b: Bundle)
    requires Valid(h)
    ensures WellFormed(Run(svc, h, ops)) && NoDangling(svc, Run(svc, h, ops), b)
  {
    RunKeeps(svc, h, ops);
    var t := Run(svc, h, ops);
    forall id ensures Drift(t, id) == 0 {
      if id !in t.sessions {
        forall e | e in t.events ensures t.events[e].session != Some(id) {
          assert t.events[e].session.Some? ==> t.events[e].session.value in t.sessions;
        }
        assert LinkedIds(t.events, id) == {};
      }
    }
  }
}
