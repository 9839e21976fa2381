/** Many imports of one record: what they leave, and exactly when their order does not matter. */
module MergeOrder {
  import opened Common
  import opened History
  import opened Records
  import opened Portability
  import opened Convergence
  import opened ImportSafety

  // ── One import is one merge ────────────────────────────────────────────

  /** What a record says, apart from local bookkeeping. */
  function Core(r: Record): Record { r.(evidence := [], origin := None, createdAt := 0) }

  function RowFor(rows: seq<RecordRow>, id: string): Option<Record> {
    if rows == [] then None
    else if rows[|rows| - 1].id == id then Some(rows[|rows| - 1].record)
    else RowFor(rows[..|rows| - 1], id)
  }

  /** The version of record `id` that a job carries into the store. */
  function Version(env: Env, job: Job, id: string): Option<Record> {
    match RowFor(Rows(env, job.bundle, job.opts), id)
    case Some(r) => Some(Core(Normalized(env.svc, r)))
    case None => None
  }

  /** The version a store holds. */
  function Held(records: map<string, Record>, id: string): Option<Record> {
    if id in records then Some(Core(records[id])) else None
  }

  /** A version replaces an older one of no stronger authority. */
  predicate Beats(v: Record, held: Record) {
    v.updatedAt > held.updatedAt && AuthorityRank(v.authority) >= AuthorityRank(held.authority)
  }

  function Merge(held: Option<Record>, v: Option<Record>): Option<Record> {
    if v.None? || (held.Some? && !Beats(v.value, held.value)) then held else v
  }

  ghost predicate Completes(env: Env, st: Store, job: Job) {
    UniqueIds(job.bundle.records) && !job.opts.dryRun && Import(env, st, job.bundle, job.opts).ok
  }

  lemma {:induction false} RowForFinds(rows: seq<RecordRow>, id: string) returns (i: nat)
    ensures RowFor(rows, id).Some? ==> i < |rows| && rows[i].id == id && rows[i].record == RowFor(rows, id).value
    ensures RowFor(rows, id).None? ==> forall r | r in rows :: r.id != id
  {
    i := 0;
    if rows != [] {
      if rows[|rows| - 1].id == id {
        i := |rows| - 1;
      } else {
        i := RowForFinds(rows[..|rows| - 1], id);
        assert rows == rows[..|rows| - 1] + [rows[|rows| - 1]];
      }
    }
  }

  lemma {:induction false} UntouchedStays(
      env: Env, h: History, m: map<int, int>, opts: Options, records: map<string, Record>, ps: seq<Planned>,
      id: string)
    requires forall p | p in ps && p.id == id :: !IsWrite(p.action)
    ensures var after := RecordWrites(env, h, m, opts, records, ps).records;
            (id in after <==> id in records) && (id in records ==> after[id] == records[id])
  {
    if ps != [] { UntouchedStays(env, h, m, opts, records, ps[..|ps| - 1], id); }
  }

  lemma CoreIgnoresBookkeeping(svc: Services, m: map<int, int>, opts: Options, r: Record)
    ensures forall at: nat :: Core(Normalized(svc, Outgoing(m, opts, r)).(createdAt := at)) == Core(Normalized(svc, r))
  {}

  lemma OneImportWrites(env: Env, st: Store, job: Job, i: nat)
    requires Completes(env, st, job) && i < |Rows(env, job.bundle, job.opts)|
    requires IsWrite(ActionFor(st.records, Rows(env, job.bundle, job.opts)[i]))
    ensures var row := Rows(env, job.bundle, job.opts)[i];
            Held(Import(env, st, job.bundle, job.opts).store.records, row.id)
                == Some(Core(Normalized(env.svc, row.record)))
  {
    var rows := Rows(env, job.bundle, job.opts);
    var h := Recounted(env, st, job.bundle, job.opts);
    var m := MapOf(env, h, job.bundle, job.opts);
    assert Decided(st.records, rows)[..|rows|] == Decided(st.records, rows);
    KeptRowsUnique(env.svc, job.opts, AutoDefault(env.svc, job.bundle, job.opts), job.bundle.records);
    WrittenStays(env, h, m, job.opts, st.records, rows, |rows|, i);
    CoreIgnoresBookkeeping(env.svc, m, job.opts, rows[i].record);
  }

  lemma OneImportSkips(env: Env, st: Store, job: Job, id: string)
    requires Completes(env, st, job)
    requires forall r | r in Rows(env, job.bundle, job.opts) && r.id == id :: !IsWrite(ActionFor(st.records, r))
    ensures Held(Import(env, st, job.bundle, job.opts).store.records, id) == Held(st.records, id)
  {
    var rows := Rows(env, job.bundle, job.opts);
    var h := Recounted(env, st, job.bundle, job.opts);
    UntouchedStays(env, h, MapOf(env, h, job.bundle, job.opts), job.opts, st.records, Decided(st.records, rows), id);
  }

  /** A complete import merges the version it carries into the one the store holds. */
  lemma OneImportMerges(env: Env, st: Store, job: Job, id: string)
    requires Completes(env, st, job)
    ensures Held(Import(env, st, job.bundle, job.opts).store.records, id)
        == Merge(Held(st.records, id), Version(env, job, id))
  {
    var rows := Rows(env, job.bundle, job.opts);
    var i := RowForFinds(rows, id);
    KeptRowsUnique(env.svc, job.opts, AutoDefault(env.svc, job.bundle, job.opts), job.bundle.records);
    if RowFor(rows, id).Some? && IsWrite(ActionFor(st.records, rows[i])) {
      OneImportWrites(env, st, job, i);
    } else {
      forall r | r in rows && r.id == id ensures !IsWrite(ActionFor(st.records, r)) {
        var k :| 0 <= k < |rows| && rows[k] == r;
        assert k == i;
      }
      OneImportSkips(env, st, job, id);
    }
  }

  // ── A run of imports is a run of merges ────────────────────────────────

  ghost predicate AllComplete(env: Env, st: Store, jobs: seq<Job>) {
    forall j | 0 <= j < |jobs| :: Completes(env, ImportAll(env, st, jobs[..j]), jobs[j])
  }

  function Versions(env: Env, jobs: seq<Job>, id: string): (vs: seq<Option<Record>>) {
    seq(|jobs|, i requires 0 <= i < |jobs| => Version(env, jobs[i], id))
  }

  function MergeAll(held: Option<Record>, vs: seq<Option<Record>>): Option<Record> {
    if vs == [] then held else Merge(MergeAll(held, vs[..|vs| - 1]), vs[|vs| - 1])
  }

  lemma {:induction false} ImportsMerge(env: Env, st: Store, jobs: seq<Job>, id: string)
    requires AllComplete(env, st, jobs)
    ensures Held(ImportAll(env, st, jobs).records, id) == MergeAll(Held(st.records, id), Versions(env, jobs, id))
  {
    if jobs != [] {
      var n := |jobs| - 1;
      FrontCompletes(env, st, jobs);
      ImportsMerge(env, st, jobs[..n], id);
      LastMerges(env, st, jobs, id);
      VersionsFront(env, jobs, id);
    }
  }

  lemma FrontCompletes(env: Env, st: Store, jobs: seq<Job>)
    requires jobs != [] && AllComplete(env, st, jobs)
    ensures AllComplete(env, st, jobs[..|jobs| - 1])
  {
    assert forall j | 0 <= j < |jobs| - 1 :: jobs[..|jobs| - 1][..j] == jobs[..j];
  }

  lemma LastMerges(env: Env, st: Store, jobs: seq<Job>, id: string)
    requires jobs != [] && AllComplete(env, st, jobs)
    ensures Held(ImportAll(env, st, jobs).records, id)
            == Merge(Held(ImportAll(env, st, jobs[..|jobs| - 1]).records, id), Version(env, jobs[|jobs| - 1], id))
  {
    OneImportMerges(env, ImportAll(env, st, jobs[..|jobs| - 1]), jobs[|jobs| - 1], id);
  }

  lemma VersionsFront(env: Env, jobs: seq<Job>, id: string)
    requires jobs != []
    ensures Versions(env, jobs, id)[..|jobs| - 1] == Versions(env, jobs[..|jobs| - 1], id)
    ensures Versions(env, jobs, id)[|jobs| - 1] == Version(env, jobs[|jobs| - 1], id)
  {}

  // ── Which version survives ─────────────────────────────────────────────

  /** A carried version that could replace what the store holds. */
  ghost predicate Contends(held: Option<Record>, vs: seq<Option<Record>>, v: Record) {
    Some(v) in vs && (held.Some? ==> Beats(v, held.value))
  }

  /** A contender of top authority that is later than every other one. */
  ghost predicate Tops(held: Option<Record>, vs: seq<Option<Record>>, x: Record) {
    Contends(held, vs, x)
    && forall v | Contends(held, vs, v) ::
         AuthorityRank(v.authority) <= AuthorityRank(x.authority) && (v == x || v.updatedAt < x.updatedAt)
  }

  ghost predicate NoContender(held: Option<Record>, vs: seq<Option<Record>>) { forall v :: !Contends(held, vs, v) }

  /** Merging ends with what was held or with a contender. */
  lemma {:induction false} SurvivorContends(held: Option<Record>, vs: seq<Option<Record>>, n: nat)
    requires n <= |vs|
    ensures var z := MergeAll(held, vs[..n]); z == held || (z.Some? && Contends(held, vs, z.value))
  {
    if n > 0 {
      assert vs[..n][..n - 1] == vs[..n - 1];
      SurvivorContends(held, vs, n - 1);
    }
  }

  lemma {:induction false} TopSurvives(held: Option<Record>, vs: seq<Option<Record>>, x: Record, n: nat)
    requires n <= |vs| && Tops(held, vs, x) && Some(x) in vs[..n]
    ensures MergeAll(held, vs[..n]) == Some(x)
  {
    assert vs[..n][..n - 1] == vs[..n - 1] && vs[..n] == vs[..n - 1] + [vs[n - 1]];
    SurvivorContends(held, vs, n - 1);
    if Some(x) in vs[..n - 1] {
      TopSurvives(held, vs, x, n - 1);
      if vs[n - 1].Some? && Beats(vs[n - 1].value, x) { assert Contends(held, vs, vs[n - 1].value); }
    }
  }

  lemma NothingSurvivesHeld(held: Option<Record>, vs: seq<Option<Record>>)
    requires NoContender(held, vs)
    ensures MergeAll(held, vs) == held
  {
    assert vs[..|vs|] == vs;
    SurvivorContends(held, vs, |vs|);
  }

  /** When one version has top authority and is later than all others that contend, every run of complete imports
      ends with it. */
  lemma LatestVersionWins(env: Env, st: Store, jobs: seq<Job>, id: string, x: Record)
    requires AllComplete(env, st, jobs) && Tops(Held(st.records, id), Versions(env, jobs, id), x)
    ensures Held(ImportAll(env, st, jobs).records, id) == Some(x)
  {
    var vs := Versions(env, jobs, id);
    ImportsMerge(env, st, jobs, id);
    assert vs[..|vs|] == vs;
    TopSurvives(Held(st.records, id), vs, x, |vs|);
  }

  // ── When the order does not matter ─────────────────────────────────────

  /** A contender that no contender beats stays when it comes first. */
  lemma {:induction false} FirstStays(held: Option<Record>, vs: seq<Option<Record>>, x: Record, n: nat)
    requires 0 < n <= |vs| && vs[0] == Some(x) && Contends(held, vs, x)
    requires forall v | Contends(held, vs, v) :: !Beats(v, x)
    ensures MergeAll(held, vs[..n]) == Some(x)
  {
    assert vs[..n][..n - 1] == vs[..n - 1];
    if n > 1 {
      FirstStays(held, vs, x, n - 1);
      var v := vs[n - 1];
      if v.Some? && Beats(v.value, x) { assert Contends(held, vs, v.value); }
    } else {
      assert MergeAll(held, vs[..0]) == held;
    }
  }

  /** The best of the acceptable versions by some score. */
  lemma {:induction false} BestVersion(
      vs: seq<Option<Record>>, ok: Record -> bool, score: Record -> int) returns (x: Record)
    requires exists v :: Some(v) in vs && ok(v)
    ensures Some(x) in vs && ok(x) && forall v | Some(v) in vs && ok(v) :: score(v) <= score(x)
  {
    var n := |vs| - 1;
    var any :| Some(any) in vs && ok(any);
    assert vs == vs[..n] + [vs[n]];
    if exists v :: Some(v) in vs[..n] && ok(v) {
      x := BestVersion(vs[..n], ok, score);
      if vs[n].Some? && ok(vs[n].value) && score(vs[n].value) > score(x) { x := vs[n].value; }
    } else {
      x := any;
    }
  }

  /** Without a top version two contenders exist that are each final when they come first. */
  lemma TwoFinalists(held: Option<Record>, vs: seq<Option<Record>>) returns (x: Record, y: Record)
    requires !NoContender(held, vs) && !(exists t :: Tops(held, vs, t))
    ensures x != y && Contends(held, vs, x) && Contends(held, vs, y)
    ensures forall v | Contends(held, vs, v) :: !Beats(v, x) && !Beats(v, y)
  {
    var contends: Record -> bool := v => Contends(held, vs, v);
    var rank: Record -> int := (v: Record) => AuthorityRank(v.authority);
    var time: Record -> int := (v: Record) => v.updatedAt;
    var any :| Contends(held, vs, any);
    assert contends(any);
    var strong := BestVersion(vs, contends, rank);
    var strongest: Record -> bool := v => contends(v) && rank(v) == rank(strong);
    assert strongest(strong);
    x := BestVersion(vs, strongest, time);
    assert !Tops(held, vs, x);
    var other: Record -> bool := v => contends(v) && v != x;
    var rival :| Contends(held, vs, rival) && !(rank(rival) <= rank(x)
        && (rival == x || rival.updatedAt < x.updatedAt));
    assert contends(rival) && other(rival);
    y := BestVersion(vs, other, time);
    forall v | Contends(held, vs, v) ensures !Beats(v, x) && !Beats(v, y) {
      assert contends(v);
      assert v == x || other(v);
      assert rank(v) == rank(strong) ==> strongest(v);
    }
  }

  function ToFront(jobs: seq<Job>, k: nat): seq<Job>
    requires k < |jobs|
  {
    [jobs[k]] + jobs[..k] + jobs[k + 1..]
  }

  lemma ToFrontReorders(jobs: seq<Job>, k: nat)
    requires k < |jobs|
    ensures multiset(ToFront(jobs, k)) == multiset(jobs)
  {
    assert jobs == jobs[..k] + [jobs[k]] + jobs[k + 1..];
  }

  lemma SameVersions(env: Env, jobs: seq<Job>, others: seq<Job>, id: string, held: Option<Record>)
    requires multiset(jobs) == multiset(others)
    ensures forall v :: Contends(held, Versions(env, jobs, id), v) ==> Contends(held, Versions(env, others, id), v)
  {
    var vs, ws := Versions(env, jobs, id), Versions(env, others, id);
    forall v | Some(v) in vs ensures Some(v) in ws {
      var i :| 0 <= i < |vs| && vs[i] == Some(v);
      assert jobs[i] in multiset(others);
      var k :| 0 <= k < |others| && others[k] == jobs[i];
      assert ws[k] == Some(v);
    }
  }

  /** A finalist is what the imports leave when its job comes first. */
  lemma FinalistWins(env: Env, st: Store, jobs: seq<Job>, id: string, x: Record) returns (others: seq<Job>)
    requires forall os | multiset(os) == multiset(jobs) :: AllComplete(env, st, os)
    requires var held, vs := Held(st.records, id), Versions(env, jobs, id);
             Contends(held, vs, x) && forall v | Contends(held, vs, v) :: !Beats(v, x)
    ensures multiset(others) == multiset(jobs) && Held(ImportAll(env, st, others).records, id) == Some(x)
  {
    var held, vs := Held(st.records, id), Versions(env, jobs, id);
    var k :| 0 <= k < |vs| && vs[k] == Some(x);
    others := ToFront(jobs, k);
    ToFrontReorders(jobs, k);
    SameVersions(env, jobs, others, id, held);
    SameVersions(env, others, jobs, id, held);
    ImportsMerge(env, st, others, id);
    var ws := Versions(env, others, id);
    assert ws[0] == Some(x) && ws[..|ws|] == ws;
    FirstStays(held, ws, x, |ws|);
  }

  /** All orders of these jobs leave the same content of `id`. */
  ghost predicate OrderFree(env: Env, st: Store, jobs: seq<Job>, id: string) {
    forall others | multiset(others) == multiset(jobs) ::
      Held(ImportAll(env, st, others).records, id) == Held(ImportAll(env, st, jobs).records, id)
  }

  /** The order of complete imports does not matter for a record exactly when none of the carried versions can replace
      the stored one, or one of those that can has top authority and is later than all the others. */
  lemma OrderFreeIff(env: Env, st: Store, jobs: seq<Job>, id: string)
    requires forall others | multiset(others) == multiset(jobs) :: AllComplete(env, st, others)
    ensures var held, vs := Held(st.records, id), Versions(env, jobs, id);
            OrderFree(env, st, jobs, id) <==> NoContender(held, vs) || exists x :: Tops(held, vs, x)
  {
    var held, vs := Held(st.records, id), Versions(env, jobs, id);
    if NoContender(held, vs) {
      forall others | multiset(others) == multiset(jobs) ensures Held(ImportAll(env, st, others).records, id) == held {
        SameVersions(env, others, jobs, id, held);
        ImportsMerge(env, st, others, id);
        NothingSurvivesHeld(held, Versions(env, others, id));
      }
    } else if x :| Tops(held, vs, x) {
      forall others | multiset(others) == multiset(jobs)
        ensures Held(ImportAll(env, st, others).records, id) == Some(x)
      {
        SameVersions(env, others, jobs, id, held);
        SameVersions(env, jobs, others, id, held);
        LatestVersionWins(env, st, others, id, x);
      }
    } else {
      var x, y := TwoFinalists(held, vs);
      var first := FinalistWins(env, st, jobs, id, x);
      var second := FinalistWins(env, st, jobs, id, y);
      assert Held(ImportAll(env, st, first).records, id) != Held(ImportAll(env, st, second).records, id);
    }
  }

  /** Two versions of an absent record end alike in both orders exactly when they are the same, or the later one has no
      less authority: equal times with different content, and a weaker later version, make the order visible. */
  lemma TwoOrdersAgreeIff(env: Env, st: Store, a: Job, b: Job, id: string, v: Record, w: Record)
    requires AllComplete(env, st, [a, b]) && AllComplete(env, st, [b, a]) && id !in st.records
    requires Version(env, a, id) == Some(v) && Version(env, b, id) == Some(w)
    ensures Held(ImportAll(env, st, [a, b]).records, id) == Held(ImportAll(env, st, [b, a]).records, id) <==>
            v == w || Beats(w, v) || Beats(v, w)
  {
    ImportsMerge(env, st, [a, b], id);
    ImportsMerge(env, st, [b, a], id);
    MergeTwo(v, w);
    MergeTwo(w, v);
    assert Versions(env, [a, b], id) == [Some(v), Some(w)] && Versions(env, [b, a], id) == [Some(w), Some(v)];
  }

  lemma MergeTwo(v: Record, w: Record)
    ensures MergeAll(None, [Some(v), Some(w)]) == Some(if Beats(w, v) then w else v)
  {
    assert [Some(v), Some(w)][..1] == [Some(v)] && [Some(v)][..0] == [];
    assert MergeAll(None, [Some(v)]) == Some(v);
  }

  // ── Creation times ─────────────────────────────────────────────────────

  /** When the version a job carries was created. */
  function Created(env: Env, job: Job, id: string): Option<nat> {
    match RowFor(Rows(env, job.bundle, job.opts), id)
    case Some(r) => Some(r.createdAt)
    case None => None
  }

  function CreatedIn(records: map<string, Record>, id: string): Option<nat> {
    if id in records then Some(records[id].createdAt) else None
  }

  /** The first creation time there is: the stored one, or that of the first job that carries the record. */
  function FirstCreated(env: Env, held: Option<nat>, jobs: seq<Job>, id: string): Option<nat> {
    if jobs == [] then held
    else
      var before := FirstCreated(env, held, jobs[..|jobs| - 1], id);
      if before.Some? then before else Created(env, jobs[|jobs| - 1], id)
  }

  lemma OneImportCreates(env: Env, st: Store, job: Job, id: string)
    requires Completes(env, st, job)
    ensures CreatedIn(Import(env, st, job.bundle, job.opts).store.records, id)
            == if id in st.records then CreatedIn(st.records, id) else Created(env, job, id)
  {
    if id in st.records {
      ImportLosesNone(env, st, job.bundle, job.opts);
    } else {
      var rows := Rows(env, job.bundle, job.opts);
      var i := RowForFinds(rows, id);
      OneImportMerges(env, st, job, id);
      if RowFor(rows, id).Some? { InsertedAsCarried(env, st, job, i); }
    }
  }

  lemma InsertedAsCarried(env: Env, st: Store, job: Job, i: nat)
    requires Completes(env, st, job) && i < |Rows(env, job.bundle, job.opts)|
    requires Rows(env, job.bundle, job.opts)[i].id !in st.records
    ensures var row := Rows(env, job.bundle, job.opts)[i];
            CreatedIn(Import(env, st, job.bundle, job.opts).store.records, row.id) == Some(row.record.createdAt)
  {
    var rows := Rows(env, job.bundle, job.opts);
    var h := Recounted(env, st, job.bundle, job.opts);
    var m := MapOf(env, h, job.bundle, job.opts);
    var ps := Decided(st.records, rows);
    assert ps[..|rows|] == ps;
    KeptRowsUnique(env.svc, job.opts, AutoDefault(env.svc, job.bundle, job.opts), job.bundle.records);
    FreshStays(env, h, m, job.opts, st.records, rows, |rows|, i);
  }

  lemma {:induction false} FreshStays(
      env: Env, h: History, m: map<int, int>, opts: Options, before: map<string, Record>, rows: seq<RecordRow>,
      n: nat, i: nat)
    requires n <= |rows| && i < |rows| && UniqueIds(rows) && rows[i].id !in before
    requires !RecordWrites(env, h, m, opts, before, Decided(before, rows)[..n]).failed
    ensures CreatedIn(RecordWrites(env, h, m, opts, before, Decided(before, rows)[..n]).records, rows[i].id)
            == if i < n then Some(rows[i].record.createdAt) else None
  {
    var ps := Decided(before, rows);
    if n == 0 {
      assert ps[..0] == [];
    } else {
      assert ps[..n][..n - 1] == ps[..n - 1] && ps[..n][n - 1] == ps[n - 1];
      FreshStays(env, h, m, opts, before, rows, n - 1, i);
      assert i != n - 1 ==> rows[i].id != rows[n - 1].id;
    }
  }

  lemma {:induction false} ImportsCreate(env: Env, st: Store, jobs: seq<Job>, id: string)
    requires AllComplete(env, st, jobs)
    ensures CreatedIn(ImportAll(env, st, jobs).records, id) == FirstCreated(env, CreatedIn(st.records, id), jobs, id)
  {
    if jobs != [] {
      var n := |jobs| - 1;
      FrontCompletes(env, st, jobs);
      ImportsCreate(env, st, jobs[..n], id);
      LastCreates(env, st, jobs, id);
    }
  }

  lemma LastCreates(env: Env, st: Store, jobs: seq<Job>, id: string)
    requires jobs != [] && AllComplete(env, st, jobs)
    ensures var before := CreatedIn(ImportAll(env, st, jobs[..|jobs| - 1]).records, id);
            CreatedIn(ImportAll(env, st, jobs).records, id) == if before.Some? then before
                else Created(env, jobs[|jobs| - 1], id)
  {
    OneImportCreates(env, ImportAll(env, st, jobs[..|jobs| - 1]), jobs[|jobs| - 1], id);
  }

  /** All the carried versions were created at the same time. */
  ghost predicate SameCreation(env: Env, jobs: seq<Job>, id: string) {
    forall a, b | a in jobs && b in jobs && Created(env, a, id).Some? && Created(env, b, id).Some? ::
      Created(env, a, id) == Created(env, b, id)
  }

  lemma {:induction false} FirstCreatedIsCarried(env: Env, jobs: seq<Job>, id: string)
    ensures var f := FirstCreated(env, None, jobs, id);
            && (f.Some? ==> exists j | j in jobs :: Created(env, j, id) == f)
            && (f.None? ==> forall j | j in jobs :: Created(env, j, id).None?)
  {
    if jobs != [] {
      FirstCreatedIsCarried(env, jobs[..|jobs| - 1], id);
      assert jobs == jobs[..|jobs| - 1] + [jobs[|jobs| - 1]];
    }
  }

  lemma {:induction false} HeldCreationStays(env: Env, held: Option<nat>, jobs: seq<Job>, id: string)
    requires held.Some?
    ensures FirstCreated(env, held, jobs, id) == held
  {
    if jobs != [] { HeldCreationStays(env, held, jobs[..|jobs| - 1], id); }
  }

  /** A job at the front decides. */
  lemma {:induction false} FrontCreates(env: Env, jobs: seq<Job>, id: string)
    requires jobs != [] && Created(env, jobs[0], id).Some?
    ensures FirstCreated(env, None, jobs, id) == Created(env, jobs[0], id)
  {
    if |jobs| > 1 {
      FrontCreates(env, jobs[..|jobs| - 1], id);
    } else {
      assert jobs[..0] == [];
    }
  }

  lemma FrontJobCreates(env: Env, st: Store, jobs: seq<Job>, id: string, j: Job) returns (others: seq<Job>)
    requires forall os | multiset(os) == multiset(jobs) :: AllComplete(env, st, os)
    requires j in jobs && Created(env, j, id).Some? && id !in st.records
    ensures multiset(others) == multiset(jobs)
        && CreatedIn(ImportAll(env, st, others).records, id) == Created(env, j, id)
  {
    var k :| 0 <= k < |jobs| && jobs[k] == j;
    others := ToFront(jobs, k);
    ToFrontReorders(jobs, k);
    ImportsCreate(env, st, others, id);
    FrontCreates(env, others, id);
  }

  ghost predicate CreationOrderFree(env: Env, st: Store, jobs: seq<Job>, id: string) {
    forall others | multiset(others) == multiset(jobs) ::
      CreatedIn(ImportAll(env, st, others).records, id) == CreatedIn(ImportAll(env, st, jobs).records, id)
  }

  /** The creation time a record ends with is that of the first version there was, so it does not depend on the order
      exactly when the record was stored before or all the carried versions were created at the same time. */
  lemma CreationOrderFreeIff(env: Env, st: Store, jobs: seq<Job>, id: string)
    requires forall others | multiset(others) == multiset(jobs) :: AllComplete(env, st, others)
    ensures CreationOrderFree(env, st, jobs, id) <==> id in st.records || SameCreation(env, jobs, id)
  {
    if id in st.records {
      forall others | multiset(others) == multiset(jobs)
        ensures CreatedIn(ImportAll(env, st, others).records, id) == CreatedIn(st.records, id)
      {
        ImportsCreate(env, st, others, id);
        HeldCreationStays(env, CreatedIn(st.records, id), others, id);
      }
    } else if SameCreation(env, jobs, id) {
      forall others | multiset(others) == multiset(jobs)
        ensures CreatedIn(ImportAll(env, st, others).records, id) == CreatedIn(ImportAll(env, st, jobs).records, id)
      {
        SameCreationAgrees(env, st, jobs, others, id);
      }
    } else {
      var a, b :| a in jobs && b in jobs && Created(env, a, id).Some? && Created(env, b, id).Some?
          && Created(env, a, id) != Created(env, b, id);
      var first := FrontJobCreates(env, st, jobs, id, a);
      var second := FrontJobCreates(env, st, jobs, id, b);
      assert CreatedIn(ImportAll(env, st, first).records, id) != CreatedIn(ImportAll(env, st, second).records, id);
    }
  }

  lemma SameCreationAgrees(env: Env, st: Store, jobs: seq<Job>, others: seq<Job>, id: string)
    requires AllComplete(env, st, jobs) && AllComplete(env, st, others) && multiset(others) == multiset(jobs)
    requires id !in st.records && SameCreation(env, jobs, id)
    ensures CreatedIn(ImportAll(env, st, others).records, id) == CreatedIn(ImportAll(env, st, jobs).records, id)
  {
    ImportsCreate(env, st, jobs, id);
    ImportsCreate(env, st, others, id);
    FirstCreatedIsCarried(env, jobs, id);
    FirstCreatedIsCarried(env, others, id);
    forall j ensures j in others <==> j in jobs { assert j in multiset(others) <==> j in multiset(jobs); }
  }
}
