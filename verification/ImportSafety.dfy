/** What an import does to the records it writes and to the records it finds. */
module ImportSafety {
  import opened Common
  import opened History
  import opened Records
  import opened Portability
  import opened Convergence

  // ── Evidence ───────────────────────────────────────────────────────────

  /** The last bundled event counted under `id`. */
  ghost predicate LastUnder(rows: seq<EventRow>, id: int, i: nat) {
    i < |rows| && rows[i].id.GetOr(0) == id && forall j | i < j < |rows| :: rows[j].id.GetOr(0) != id
  }

  lemma {:induction false} EventMapPoints(svc: Services, byKey: map<string, int>, rows: seq<EventRow>, id: int, i: nat)
    requires LastUnder(rows, id, i)
    requires forall j | 0 <= j < |rows| :: ImportKey(svc, rows[j].event) in byKey
    ensures id in EventMap(svc, byKey, rows)
    ensures EventMap(svc, byKey, rows)[id] == byKey[ImportKey(svc, rows[i].event)]
  {
    if i < |rows| - 1 {
      EventMapPoints(svc, byKey, rows[..|rows| - 1], id, i);
    }
  }

  lemma {:induction false} EventMapOnlyBundled(svc: Services, byKey: map<string, int>, rows: seq<EventRow>, id: int)
    requires forall j | 0 <= j < |rows| :: rows[j].id.GetOr(0) != id
    ensures id !in EventMap(svc, byKey, rows)
  {
    if rows != [] { EventMapOnlyBundled(svc, byKey, rows[..|rows| - 1], id); }
  }

  // ── Which ids bundled events get ───────────────────────────────────────

  function KeysOf(svc: Services, rows: seq<EventRow>): (ks: seq<string>) {
    seq(|rows|, i requires 0 <= i < |rows| => ImportKey(svc, rows[i].event))
  }

  /** The different keys among the first `n` that the store does not have. */
  function FreshKeys(byKey: map<string, int>, keys: seq<string>, n: nat): set<string>
    requires n <= |keys|
  {
    set k | k in keys[..n] && k !in byKey
  }

  /** Where a key occurs first. */
  function FirstPlace(keys: seq<string>, k: string): (i: nat)
    ensures i <= |keys|
  {
    if keys == [] then 0
    else if k in keys[..|keys| - 1] then FirstPlace(keys[..|keys| - 1], k)
    else |keys| - 1
  }

  /** The local id of the event with key `k`: the stored one, or the next free id after the new keys before it. */
  function LocalId(h: History, keys: seq<string>, k: string): int {
    if k in h.byKey then h.byKey[k] else h.nextId + |FreshKeys(h.byKey, keys, FirstPlace(keys, k))|
  }

  /** Adding a key at the end leaves the numbers of the others, and numbers a new one next. */
  lemma LocalIdNext(h: History, keys: seq<string>, x: string, k: string)
    ensures k in keys ==> LocalId(h, keys + [x], k) == LocalId(h, keys, k)
    ensures x !in keys && x !in h.byKey ==> LocalId(h, keys + [x], x) == h.nextId + |FreshKeys(h.byKey, keys, |keys|)|
    ensures |FreshKeys(h.byKey, keys + [x], |keys| + 1)|
            == |FreshKeys(h.byKey, keys, |keys|)| + if x in keys || x in h.byKey then 0 else 1
  {
    var longer := keys + [x];
    assert longer[..|keys|] == keys && longer[..|keys| + 1] == longer && keys[..|keys|] == keys;
    var before := FreshKeys(h.byKey, keys, |keys|);
    assert FreshKeys(h.byKey, longer, |longer|) == if x in keys || x in h.byKey then before else before + {x};
    if k in keys {
      assert longer[..FirstPlace(keys, k)] == keys[..FirstPlace(keys, k)];
    }
  }

  /** The keys of the store after some events have been written. */
  ghost predicate Numbered(h: History, t: History, keys: seq<string>) {
    && t.nextId == h.nextId + |FreshKeys(h.byKey, keys, |keys|)|
    && (forall k :: k in t.byKey <==> k in h.byKey || k in keys)
    && (forall k | k in t.byKey :: t.byKey[k] == LocalId(h, keys, k))
  }

  lemma NumberedNext(svc: Services, h: History, t: History, keys: seq<string>, e: Event)
    requires Numbered(h, t, keys) && ImportEvent(svc, t, e).Ok?
    ensures Numbered(h, ImportEvent(svc, t, e).value.history, keys + [ImportKey(svc, e)])
  {
    var x, after := ImportKey(svc, e), ImportEvent(svc, t, e).value.history;
    if x in t.byKey {
      assert after == t;
    } else {
      assert after.byKey == t.byKey[x := t.nextId] && after.nextId == t.nextId + 1;
    }
    KeyNumbered(h, t.byKey, t.nextId, keys, x);
  }

  /** One more key: known, or new and numbered next. */
  lemma KeyNumbered(h: History, byKey: map<string, int>, nextId: int, keys: seq<string>, x: string)
    requires Numbered(h, h.(byKey := byKey, nextId := nextId), keys)
    ensures x in byKey ==> Numbered(h, h.(byKey := byKey, nextId := nextId), keys + [x])
    ensures x !in byKey ==> Numbered(h, h.(byKey := byKey[x := nextId], nextId := nextId + 1), keys + [x])
  {
    LocalIdNext(h, keys, x, x);
    forall k | k in byKey ensures byKey[k] == LocalId(h, keys + [x], k) { LocalIdNext(h, keys, x, k); }
  }

  lemma EventWrite(svc: Services, h: History, rows: seq<EventRow>, n: nat)
    requires n < |rows| && !Writes(svc, h, WriteList([], rows)[..n + 1]).failed
    ensures var p := Writes(svc, h, WriteList([], rows)[..n]);
            && !p.failed && ImportEvent(svc, p.history, rows[n].event).Ok?
            && Writes(svc, h, WriteList([], rows)[..n + 1]).history
                == ImportEvent(svc, p.history, rows[n].event).value.history
  {
    var ws := WriteList([], rows);
    assert ws[..n + 1][..n] == ws[..n] && ws[n] == PutEvent(rows[n]);
  }

  lemma KeysNext(svc: Services, rows: seq<EventRow>, n: nat)
    requires n < |rows|
    ensures KeysOf(svc, rows)[..n + 1] == KeysOf(svc, rows)[..n] + [ImportKey(svc, rows[n].event)]
  {}

  lemma {:induction false} EventsNumber(svc: Services, h: History, rows: seq<EventRow>, n: nat)
    requires n <= |rows| && !Writes(svc, h, WriteList([], rows)[..n]).failed
    ensures Numbered(h, Writes(svc, h, WriteList([], rows)[..n]).history, KeysOf(svc, rows)[..n])
  {
    if n == 0 {
      assert WriteList([], rows)[..0] == [] && KeysOf(svc, rows)[..0] == [];
    } else {
      EventWrite(svc, h, rows, n - 1);
      KeysNext(svc, rows, n - 1);
      EventsNumber(svc, h, rows, n - 1);
      NumberedNext(svc, h, Writes(svc, h, WriteList([], rows)[..n - 1]).history, KeysOf(svc, rows)[..n - 1],
          rows[n - 1].event);
    }
  }

  lemma {:induction false} SessionsKeepKeys(svc: Services, h: History, rows: seq<SessionRow>, n: nat)
    requires n <= |rows|
    ensures var t := Writes(svc, h, WriteList(rows, [])[..n]).history; t.byKey == h.byKey && t.nextId == h.nextId
  {
    if n > 0 {
      assert WriteList(rows, [])[..n][..n - 1] == WriteList(rows, [])[..n - 1];
      SessionsKeepKeys(svc, h, rows, n - 1);
    }
  }

  /** A complete write phase stores each bundled event under exactly the id that store and bundle determine. */
  lemma BundledIdsAreDetermined(env: Env, st: Store, b: Bundle, opts: Options)
    requires !Written(env, st, b, opts).failed
    ensures Numbered(st.history, Recounted(env, st, b, opts), KeysOf(env.svc, EventsToWrite(env, b, opts)))
  {
    var ss, es := SessionsToWrite(env, b, opts), EventsToWrite(env, b, opts);
    var first, second, keys := WriteList(ss, []), WriteList([], es), KeysOf(env.svc, es);
    assert ListOf(env, b, opts) == first + second;
    WritesConcat(env.svc, st.history, first, second);
    assert first[..|ss|] == first && second[..|es|] == second && keys[..|es|] == keys;
    SessionsKeepKeys(env.svc, st.history, ss, |ss|);
    var mid := Writes(env.svc, st.history, first).history;
    EventsNumber(env.svc, mid, es, |es|);
    NumberedFrom(st.history, mid, Written(env, st, b, opts).history, keys);
    RecountTouchesCounters(Written(env, st, b, opts).history, NewSessions(env.svc, st.history, ss));
  }

  lemma NumberedFrom(h: History, mid: History, t: History, keys: seq<string>)
    requires mid.byKey == h.byKey && mid.nextId == h.nextId && Numbered(mid, t, keys)
    ensures Numbered(h, t, keys)
  {
    forall k ensures LocalId(mid, keys, k) == LocalId(h, keys, k) {}
  }

  /** After the writes every bundled event is stored under its given or synthesized key. */
  lemma BundledEventsAreStored(env: Env, st: Store, b: Bundle, opts: Options)
    requires WellFormed(st.history) && !Written(env, st, b, opts).failed
    ensures var h := Recounted(env, st, b, opts);
            && WellFormed(h)
            && forall j | 0 <= j < |b.events| :: ImportKey(env.svc, EventsToWrite(env, b, opts)[j].event) in h.byKey
  {
    var ws, rows := ListOf(env, b, opts), EventsToWrite(env, b, opts);
    var t, h := Written(env, st, b, opts).history, Recounted(env, st, b, opts);
    WritesTrack(env.svc, st.history, ws, "");
    WritesSettle(env.svc, st.history, ws);
    RecountTouchesCounters(t, NewSessions(env.svc, st.history, SessionsToWrite(env, b, opts)));
    EventsSettle(env.svc, t, SessionsToWrite(env, b, opts), rows);
  }

  lemma EventsSettle(svc: Services, t: History, sessions: seq<SessionRow>, rows: seq<EventRow>)
    requires forall w | w in WriteList(sessions, rows) :: Settled(svc, t, w)
    ensures forall j | 0 <= j < |rows| :: ImportKey(svc, rows[j].event) in t.byKey
  {
    var ws := WriteList(sessions, rows);
    forall j | 0 <= j < |rows| ensures ImportKey(svc, rows[j].event) in t.byKey {
      var w := ws[|sessions| + j];
      assert w in ws && w == PutEvent(rows[j]) && Settled(svc, t, w);
    }
  }

  lemma {:induction false} RecountTouchesCounters(h: History, ids: seq<string>)
    ensures var t := Recount(h, ids); t.events == h.events && t.byKey == h.byKey && t.nextId == h.nextId
  {
    if ids != [] { RecountTouchesCounters(h, ids[..|ids| - 1]); }
  }

  /** A written row stays as written: later rows carry other ids. */
  lemma {:induction false} WrittenStays(
      env: Env, h: History, m: map<int, int>, opts: Options, before: map<string, Record>, rows: seq<RecordRow>,
      n: nat, i: nat)
    requires i < n <= |rows| && UniqueIds(rows) && IsWrite(ActionFor(before, rows[i]))
    requires !RecordWrites(env, h, m, opts, before, Decided(before, rows)[..n]).failed
    ensures var r := Outgoing(m, opts, rows[i].record);
            var after := RecordWrites(env, h, m, opts, before, Decided(before, rows)[..n]).records;
            && Storable(env, h, r) && rows[i].id in after
            && exists at: nat :: after[rows[i].id] == Normalized(env.svc, r).(createdAt := at)
    decreases n
  {
    var ps := Decided(before, rows);
    assert ps[..n][..n - 1] == ps[..n - 1] && ps[..n][n - 1] == ps[n - 1];
    if i < n - 1 {
      WrittenStays(env, h, m, opts, before, rows, n - 1, i);
      assert rows[i].id != rows[n - 1].id;
    } else {
      var mid := RecordWrites(env, h, m, opts, before, ps[..n - 1]).records;
      var r := Normalized(env.svc, Outgoing(m, opts, rows[i].record));
      var at := if rows[i].id in mid then mid[rows[i].id].createdAt else r.createdAt;
      assert r.(createdAt := at) == RecordWrites(env, h, m, opts, before, ps[..n]).records[rows[i].id];
    }
  }

  /** Every citation of a written record denotes a stored event. A citation of a bundled event denotes
      the local event carrying that event's key, exactly when the citation text was not padded or the
      local id, as store and bundle determine it, happens to be the original one: the plan trims a
      citation, the remapping does not. */
  lemma EvidenceRemapIsSound(env: Env, st: Store, b: Bundle, opts: Options, i: nat, c: nat, e: nat)
    requires WellFormed(st.history) && UniqueIds(b.records)
    requires Import(env, st, b, opts).ok && !opts.dryRun
    requires i < |Rows(env, b, opts)| && IsWrite(ActionFor(st.records, Rows(env, b, opts)[i]))
    requires c < |Rows(env, b, opts)[i].record.evidence|
    requires var cited := Rows(env, b, opts)[i].record.evidence[c]; cited.Cite? && LastUnder(b.events, cited.id, e)
    ensures var out := Import(env, st, b, opts).store;
            var cited := Rows(env, b, opts)[i].record.evidence[c];
            var key := ImportKey(env.svc, EventsToWrite(env, b, opts)[e].event);
            && Rows(env, b, opts)[i].id in out.records
            && var stored := out.records[Rows(env, b, opts)[i].id].evidence;
            && |stored| == |Rows(env, b, opts)[i].record.evidence|
            && stored[c].Cite? && stored[c].id in out.history.events
            && key in out.history.byKey
            && (out.history.events[stored[c].id].key == Some(key) <==>
                  !cited.padded || LocalId(st.history, KeysOf(env.svc, EventsToWrite(env, b, opts)), key) == cited.id)
  {
    var rows := Rows(env, b, opts);
    var evs := EventsToWrite(env, b, opts);
    var h := Recounted(env, st, b, opts);
    var m := MapOf(env, h, b, opts);
    var ps := Decided(st.records, rows);
    assert ps[..|rows|] == ps;
    BundledEventsAreStored(env, st, b, opts);
    KeptRowsUnique(env.svc, opts, AutoDefault(env.svc, b, opts), b.records);
    WrittenStays(env, h, m, opts, st.records, rows, |rows|, i);
    BundledIdsAreDetermined(env, st, b, opts);
    assert LastUnder(evs, rows[i].record.evidence[c].id, e);
    EventMapPoints(env.svc, h.byKey, evs, rows[i].record.evidence[c].id, e);
  }

  /** A citation of no bundled event is left alone, and must already denote a local one. */
  lemma LocalCitationsStay(env: Env, st: Store, b: Bundle, opts: Options, i: nat, c: nat)
    requires WellFormed(st.history) && UniqueIds(b.records)
    requires Import(env, st, b, opts).ok && !opts.dryRun
    requires i < |Rows(env, b, opts)| && IsWrite(ActionFor(st.records, Rows(env, b, opts)[i]))
    requires c < |Rows(env, b, opts)[i].record.evidence|
    requires var cited := Rows(env, b, opts)[i].record.evidence[c];
             cited.Cite? && forall j | 0 <= j < |b.events| :: b.events[j].id.GetOr(0) != cited.id
    ensures var out := Import(env, st, b, opts).store;
            && Rows(env, b, opts)[i].id in out.records
            && c < |out.records[Rows(env, b, opts)[i].id].evidence|
            && out.records[Rows(env, b, opts)[i].id].evidence[c] == Rows(env, b, opts)[i].record.evidence[c]
            && Rows(env, b, opts)[i].record.evidence[c].id in out.history.events
  {
    var rows := Rows(env, b, opts);
    var h := Recounted(env, st, b, opts);
    var m := MapOf(env, h, b, opts);
    var ps := Decided(st.records, rows);
    assert ps[..|rows|] == ps;
    KeptRowsUnique(env.svc, opts, AutoDefault(env.svc, b, opts), b.records);
    WrittenStays(env, h, m, opts, st.records, rows, |rows|, i);
    EventMapOnlyBundled(env.svc, h.byKey, EventsToWrite(env, b, opts), rows[i].record.evidence[c].id);
  }

  // ── Records over many imports ──────────────────────────────────────────

  datatype Job = Job(bundle: Bundle, opts: Options)

  function ImportAll(env: Env, st: Store, jobs: seq<Job>): Store {
    if jobs == [] then st
    else
      var last := jobs[|jobs| - 1];
      Import(env, ImportAll(env, st, jobs[..|jobs| - 1]), last.bundle, last.opts).store
  }

  /** `b` keeps every record of `a`, never older and never of weaker authority. */
  ghost predicate NoneLost(a: map<string, Record>, b: map<string, Record>) {
    forall id | id in a ::
      && id in b && a[id].updatedAt <= b[id].updatedAt
      && AuthorityRank(a[id].authority) <= AuthorityRank(b[id].authority)
      && a[id].createdAt == b[id].createdAt
  }

  lemma OneWriteLosesNone(
      env: Env, h: History, m: map<int, int>, opts: Options, records: map<string, Record>, row: RecordRow)
    requires ApplyRecord(env, h, m, opts, records, Planned(row.id, row.record, ActionFor(records, row))).Ok?
    ensures NoneLost(records, ApplyRecord(env, h, m, opts, records,
        Planned(row.id, row.record, ActionFor(records, row))).value)
  {}

  lemma {:induction false} RecordWritesLoseNone(
      env: Env, h: History, m: map<int, int>, opts: Options, before: map<string, Record>, rows: seq<RecordRow>,
      n: nat)
    requires n <= |rows| && UniqueIds(rows)
    ensures NoneLost(before, RecordWrites(env, h, m, opts, before, Decided(before, rows)[..n]).records)
  {
    if n > 0 {
      var ps := Decided(before, rows);
      var p := RecordWrites(env, h, m, opts, before, ps[..n - 1]);
      assert ps[..n][..n - 1] == ps[..n - 1];
      RecordWritesLoseNone(env, h, m, opts, before, rows, n - 1);
      if !p.failed && ApplyRecord(env, h, m, opts, p.records, ps[n - 1]).Ok? {
        assert ActionFor(p.records, rows[n - 1]) == ps[n - 1].action by {
          RecordsHandled(env, h, m, opts, before, rows, n - 1);
        }
        OneWriteLosesNone(env, h, m, opts, p.records, rows[n - 1]);
      }
    }
  }

  /** An import, complete or refused half-way, loses no record, no recency and no authority. */
  lemma ImportLosesNone(env: Env, st: Store, b: Bundle, opts: Options)
    requires UniqueIds(b.records)
    ensures NoneLost(st.records, Import(env, st, b, opts).store.records)
  {
    var rows := Rows(env, b, opts);
    var h := Recounted(env, st, b, opts);
    KeptRowsUnique(env.svc, opts, AutoDefault(env.svc, b, opts), b.records);
    RecordWritesLoseNone(env, h, MapOf(env, h, b, opts), opts, st.records, rows, |rows|);
    assert Decided(st.records, rows)[..|rows|] == Decided(st.records, rows);
  }

  lemma {:induction false} ImportsLoseNone(env: Env, st: Store, jobs: seq<Job>)
    requires forall j | 0 <= j < |jobs| :: UniqueIds(jobs[j].bundle.records)
    ensures NoneLost(st.records, ImportAll(env, st, jobs).records)
  {
    if jobs != [] {
      ImportsLoseNone(env, st, jobs[..|jobs| - 1]);
      ImportLosesNone(env, ImportAll(env, st, jobs[..|jobs| - 1]), jobs[|jobs| - 1].bundle, jobs[|jobs| - 1].opts);
    }
  }
}
