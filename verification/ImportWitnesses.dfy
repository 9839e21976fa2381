/** Concrete stores and bundles on the failing side of the import's exact conditions. */
module ImportWitnesses {
  import opened Common
  import opened History
  import opened Records
  import opened Portability
  import opened Convergence
  import opened ImportSafety
  import opened MergeOrder

  function PlainServices(): Services {
    Services(s => s, s => s, (s, n) => s, s => s, m => "digest", e => true, e => true)
  }

  function PlainEnv(): Env { Env(PlainServices(), r => true) }

  function PlainOptions(): Options { Options(None, map[], "elsewhere", false) }

  function PlainEvent(session: Option<string>, key: Option<string>): Event {
    Event(session, "w", None, "note", None, None, None, None, None, key, None, 0)
  }

  function EmptyHistory(): History { History(map[], map[], map[], 1) }

  // ── A dangling link ────────────────────────────────────────────────────

  /** A store where the raw append has linked an event to a session nobody opened. */
  function AppendedStore(): Store { Store(AppendEvent(EmptyHistory(), PlainEvent(Some("s"), None)), map[]) }

  function OneSession(): Bundle {
    Bundle([SessionRow("s", Session("w", None, None, Completed, None, None, 0, 0, Some(0), None, 1, None))], [], [], [])
  }

  lemma AppendedStoreDangles()
    ensures WellFormed(AppendedStore().history) && Drift(AppendedStore().history, "s") == -1
  {
    var h := AppendedStore().history;
    assert h.events == map[1 := PlainEvent(Some("s"), None)];
    assert LinkedIds(h.events, "s") == {1};
  }

  lemma OneSessionIsWritten()
    ensures var env, st, b, opts := PlainEnv(), AppendedStore(), OneSession(), PlainOptions();
            PlanOk(env, st.history, b, opts) && !Written(env, st, b, opts).failed && |ListOf(env, b, opts)| == 1
  {
    var env, st, b, opts := PlainEnv(), AppendedStore(), OneSession(), PlainOptions();
    var ws := ListOf(env, b, opts);
    assert ws[..0] == [];
    assert Writes(env.svc, st.history, ws[..0]) == Progress(st.history, false);
  }

  /** Dying after the one session write and importing again leaves a counter of 0 where an uninterrupted import
      leaves 1. */
  lemma RawAppendDiverges()
    ensures var env, st, b, opts := PlainEnv(), AppendedStore(), OneSession(), PlainOptions();
            Import(env, Interrupted(env, st, b, opts, InWrites(1)), b, opts) != Import(env, st, b, opts)
  {
    var env, st, b, opts := PlainEnv(), AppendedStore(), OneSession(), PlainOptions();
    AppendedStoreDangles();
    OneSessionIsWritten();
    assert b.sessions[..0] == [];
    assert NewSessions(env.svc, st.history, b.sessions) == ["s"];
    assert b.sessions[0] in b.sessions && "s" in TrimmedIds(env.svc, b.sessions);
    DanglingLinkDiverges(env, st, b, opts, "s");
  }

  // ── A padded citation ──────────────────────────────────────────────────

  /** A store whose event 1 has key "mine", and a bundle whose event 1 has key "theirs" and is cited as " 1 ". */
  function StoreWithOne(): Store { Store(Inserted(EmptyHistory(), PlainEvent(None, Some("mine"))), map[]) }

  function PaddedRecord(): Record {
    Record.Record("preference", "n", "text", Imported, Global, None, None, RecordStatus.Active, [Cite(1, true)], None,
        0, 0)
  }

  function PaddedBundle(): Bundle {
    Bundle([], [EventRow(Some(1), PlainEvent(None, Some("theirs")))], [RecordRow("r", PaddedRecord())], [])
  }

  lemma PaddedRows()
    ensures Rows(PlainEnv(), PaddedBundle(), PlainOptions()) == [RecordRow("r", PaddedRecord())]
  {
    assert PaddedBundle().records[..0] == [];
  }

  lemma PaddedPlans()
    ensures PlanOk(PlainEnv(), StoreWithOne().history, PaddedBundle(), PlainOptions())
  {
    var b := PaddedBundle();
    assert b.events[0] in b.events && 1 in PlannedIds(b.events);
  }

  lemma PaddedWrites()
    ensures var env, st, b, opts := PlainEnv(), StoreWithOne(), PaddedBundle(), PlainOptions();
            && !Written(env, st, b, opts).failed
            && Written(env, st, b, opts).history == Inserted(st.history, PlainEvent(None, Some("theirs")))
            && Recounted(env, st, b, opts) == Written(env, st, b, opts).history
  {
    var env, st, b, opts := PlainEnv(), StoreWithOne(), PaddedBundle(), PlainOptions();
    var ws := ListOf(env, b, opts);
    assert ws == [PutEvent(EventsToWrite(env, b, opts)[0])] && ws[..0] == [];
    assert Writes(env.svc, st.history, ws[..0]) == Progress(st.history, false);
    assert ImportedEvent(env.svc, st.history, EventsToWrite(env, b, opts)[0].event) == PlainEvent(None, Some("theirs"));
  }

  lemma PaddedImports()
    ensures Import(PlainEnv(), StoreWithOne(), PaddedBundle(), PlainOptions()).ok
  {
    var env, st, b, opts := PlainEnv(), StoreWithOne(), PaddedBundle(), PlainOptions();
    PaddedPlans();
    PaddedWrites();
    PaddedRows();
    var h := Recounted(env, st, b, opts);
    var m := MapOf(env, h, b, opts);
    var ps := Decided(st.records, Rows(env, b, opts));
    assert Storable(env, h, Outgoing(m, opts, PaddedRecord()));
    assert ps[..0] == [] && RecordWrites(env, h, m, opts, st.records, ps[..0]) == RecordProgress(st.records, false);
    assert ps[0] == Planned("r", PaddedRecord(), Insert);
  }

  lemma TheirsIsNumberedTwo()
    ensures var env := PlainEnv();
            LocalId(StoreWithOne().history, KeysOf(env.svc, EventsToWrite(env, PaddedBundle(), PlainOptions())),
                "theirs") == 2
  {
    var keys := KeysOf(PlainEnv().svc, EventsToWrite(PlainEnv(), PaddedBundle(), PlainOptions()));
    assert keys == ["theirs"] && keys[..0] == [] && FirstPlace(keys, "theirs") == 0;
    assert FreshKeys(StoreWithOne().history.byKey, keys, 0) == {};
  }

  lemma StoreWithOneIsWellFormed()
    ensures WellFormed(StoreWithOne().history)
  {}

  /** The import succeeds, and the record it writes cites the store's own event instead of the bundled one. */
  lemma PaddedCitationGoesAstray()
    ensures var out := Import(PlainEnv(), StoreWithOne(), PaddedBundle(), PlainOptions()).store;
            && "r" in out.records && |out.records["r"].evidence| == 1 && out.records["r"].evidence[0].Cite?
            && out.records["r"].evidence[0].id in out.history.events
            && out.history.events[out.records["r"].evidence[0].id].key != Some("theirs")
  {
    StoreWithOneIsWellFormed();
    PaddedRows();
    PaddedImports();
    TheirsIsNumberedTwo();
    EvidenceRemapIsSound(PlainEnv(), StoreWithOne(), PaddedBundle(), PlainOptions(), 0, 0, 0);
  }

  // ── Two versions of one age ────────────────────────────────────────────

  function NoteSaying(content: string): Record {
    Record.Record("preference", "n", content, Imported, Global, None, None, RecordStatus.Active, [], None, 0, 1)
  }

  function OneRecord(content: string): Job {
    Job(Bundle([], [], [RecordRow("r", NoteSaying(content))], []), PlainOptions())
  }

  lemma OneRowKept(svc: Services, opts: Options, auto: Option<string>, row: RecordRow)
    requires row.record.scope == Global
    ensures KeptRows(svc, opts, auto, [row]) == [row]
  {
    assert [row][..0] == [] && KeptRows(svc, opts, auto, [row][..0]) == [];
  }

  lemma OneRecordRows(content: string)
    ensures Rows(PlainEnv(), OneRecord(content).bundle, PlainOptions()) == [RecordRow("r", NoteSaying(content))]
  {
    var auto := AutoDefault(PlainServices(), OneRecord(content).bundle, PlainOptions());
    OneRowKept(PlainServices(), PlainOptions(), auto, RecordRow("r", NoteSaying(content)));
  }

  lemma OneRecordCarries(content: string)
    ensures Version(PlainEnv(), OneRecord(content), "r") == Some(Core(NoteSaying(content)))
  {
    OneRecordRows(content);
  }

  /** A bundle of one record without evidence is always imported completely. */
  lemma OneRecordCompletes(st: Store, content: string)
    ensures Completes(PlainEnv(), st, OneRecord(content))
  {
    var env, b, opts := PlainEnv(), OneRecord(content).bundle, PlainOptions();
    OneRecordRows(content);
    assert ListOf(env, b, opts) == [] && SessionsToWrite(env, b, opts) == [];
    var h := Recounted(env, st, b, opts);
    var m := MapOf(env, h, b, opts);
    var ps := Decided(st.records, Rows(env, b, opts));
    assert Storable(env, h, Outgoing(m, opts, NoteSaying(content)));
    assert ps[..0] == [] && RecordWrites(env, h, m, opts, st.records, ps[..0]) == RecordProgress(st.records, false);
    assert ps[0].record == NoteSaying(content);
  }

  lemma BothComplete(a: string, b: string)
    ensures AllComplete(PlainEnv(), Store(EmptyHistory(), map[]), [OneRecord(a), OneRecord(b)])
  {
    var st, jobs := Store(EmptyHistory(), map[]), [OneRecord(a), OneRecord(b)];
    forall j | 0 <= j < 2 ensures Completes(PlainEnv(), ImportAll(PlainEnv(), st, jobs[..j]), jobs[j]) {
      OneRecordCompletes(ImportAll(PlainEnv(), st, jobs[..j]), if j == 0 then a else b);
    }
  }

  /** Two bundles whose versions have one timestamp and different content: the one imported first stays. */
  lemma EqualTimesOrdersDiffer()
    ensures var st := Store(EmptyHistory(), map[]);
            Held(ImportAll(PlainEnv(), st, [OneRecord("x"), OneRecord("y")]).records, "r")
            != Held(ImportAll(PlainEnv(), st, [OneRecord("y"), OneRecord("x")]).records, "r")
  {
    BothComplete("x", "y");
    BothComplete("y", "x");
    OneRecordCarries("x");
    OneRecordCarries("y");
    assert Core(NoteSaying("x")).content != Core(NoteSaying("y")).content;
    TwoOrdersAgreeIff(PlainEnv(), Store(EmptyHistory(), map[]), OneRecord("x"), OneRecord("y"), "r",
                      Core(NoteSaying("x")), Core(NoteSaying("y")));
  }
}
