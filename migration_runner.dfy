/** runner.ts: the storage migration runner. Every stored project record is brought up to date by
    applying, in ascending `from` order, each migration whose `from` is the record's current
    version; every transformed record is written back under its id and counted. */
module MigrationRunner {
  import opened Wrappers
  import opened Json
  import opened Errors

  /** A `StorageMigration`'s identity and version step; what it does lives in the `Transform`
      oracle. */
  datatype Migration = Migration(name: string, from: int, to: int)

  /** What `migration.transform(record)` settles to. */
  datatype TransformResult =
    | Skipped
    | Transformed(project: Json)
    /** The transform's promise rejected: `runStorageMigrations` rejects with it. */
    | TransformThrew(error: Thrown)

  /** The migrations' `transform` functions, as one oracle. */
  type Transform = (Migration, Json) -> TransformResult

  /** `getProjectId`, which is not part of this model: any function from a record to its id. */
  type IdOf = Json -> Option<string>

  /** `getProjectVersion`: a numeric `version` field is the version; otherwise a non-empty
      `scenes` array means version 1 and anything else version 0. */
  function GetProjectVersion(project: Json): (v: int)
    ensures NumberField(project, "version").Some? ==> v == NumberField(project, "version").value
    ensures NumberField(project, "version").None? ==>
      (v == 1 <==> Field(project, "scenes").Some? && Field(project, "scenes").value.JArr? &&
                   |Field(project, "scenes").value.items| > 0)
    ensures NumberField(project, "version").None? ==> v == 0 || v == 1
  {
    match NumberField(project, "version")
    case Some(n) => n
    case None =>
      match Field(project, "scenes")
      case Some(JArr(items)) => if |items| > 0 then 1 else 0
      case _ => 0
  }

  // Ordering the migrations.

  predicate SortedByFrom(ms: seq<Migration>) {
    forall i, j :: 0 <= i < j < |ms| ==> ms[i].from <= ms[j].from
  }

  /** The migrations with a given `from`, in list order. */
  function WithFrom(ms: seq<Migration>, from: int): seq<Migration> {
    if ms == [] then []
    else (if ms[0].from == from then [ms[0]] else []) + WithFrom(ms[1..], from)
  }

  /** Puts `m` before the first migration whose `from` is not smaller. */
  function Insert(m: Migration, sorted: seq<Migration>): (r: seq<Migration>)
    ensures multiset(r) == multiset(sorted) + multiset{m}
    ensures |r| == |sorted| + 1
  {
    if sorted == [] || m.from <= sorted[0].from then [m] + sorted
    else
      assert sorted == [sorted[0]] + sorted[1..];
      [sorted[0]] + Insert(m, sorted[1..])
  }

  /** `[...migrations].sort((a, b) => a.from - b.from)`: a stable sort of a copy. */
  function SortByFrom(ms: seq<Migration>): (r: seq<Migration>)
    ensures multiset(r) == multiset(ms)
    ensures |r| == |ms|
  {
    if ms == [] then []
    else
      assert ms == [ms[0]] + ms[1..];
      Insert(ms[0], SortByFrom(ms[1..]))
  }

  lemma {:induction false} InsertSorted(m: Migration, sorted: seq<Migration>)
    requires SortedByFrom(sorted)
    ensures SortedByFrom(Insert(m, sorted))
  {
    if sorted == [] || m.from <= sorted[0].from {
    } else {
      InsertSorted(m, sorted[1..]);
      var rest := Insert(m, sorted[1..]);
      forall x | x in rest
        ensures sorted[0].from <= x.from
      {
        assert x in multiset(rest);
        if x != m {
          assert x in multiset(sorted[1..]);
        }
      }
    }
  }

  /** Inserting `m` into a sorted list puts it before every equal-`from` migration already there. */
  lemma {:induction false} InsertStable(m: Migration, sorted: seq<Migration>, from: int)
    requires SortedByFrom(sorted)
    ensures WithFrom(Insert(m, sorted), from) ==
      if m.from == from then [m] + WithFrom(sorted, from) else WithFrom(sorted, from)
  {
    if sorted == [] {
    } else if m.from <= sorted[0].from {
      assert ([m] + sorted)[1..] == sorted;
    } else {
      InsertStable(m, sorted[1..], from);
      assert (sorted[0..1] + Insert(m, sorted[1..]))[1..] == Insert(m, sorted[1..]);
      assert [sorted[0]] + Insert(m, sorted[1..]) == sorted[0..1] + Insert(m, sorted[1..]);
      if m.from == from {
        assert sorted[0].from != from;
      }
    }
  }

  /** The ordered copy is sorted by `from`, holds exactly the given migrations, and keeps the
      given order among migrations with the same `from`. */
  lemma {:induction false} SortByFromIsStableSort(ms: seq<Migration>)
    ensures SortedByFrom(SortByFrom(ms))
    ensures multiset(SortByFrom(ms)) == multiset(ms)
    ensures forall from :: WithFrom(SortByFrom(ms), from) == WithFrom(ms, from)
  {
    if ms != [] {
      SortByFromIsStableSort(ms[1..]);
      InsertSorted(ms[0], SortByFrom(ms[1..]));
      forall from
        ensures WithFrom(SortByFrom(ms), from) == WithFrom(ms, from)
      {
        InsertStable(ms[0], SortByFrom(ms[1..]), from);
      }
    }
  }

  // Migrating one record.

  /** What the migration walk did to one record: the positions (in the ordered list) of the
      migrations applied, the writes made, and what was thrown, if anything. */
  datatype Walked = Walked(applied: seq<nat>, writes: seq<(string, Json)>, thrown: Option<Thrown>)

  /** The inner loop from position `i` on, with the record as it stands and its current version. */
  function Walk(ordered: seq<Migration>, i: nat, record: Json, version: int, transform: Transform, idOf: IdOf): (w: Walked)
    requires i <= |ordered|
    decreases |ordered| - i
  {
    if i == |ordered| then Walked([], [], None)
    else
      var m := ordered[i];
      if m.from != version then Walk(ordered, i + 1, record, version, transform, idOf)
      else
        match transform(m, record)
        case Skipped => Walked([], [], None)
        case TransformThrew(e) => Walked([], [], Some(e))
        case Transformed(p) =>
          var id := idOf(p);
          if id.None? || id.value == "" then Walked([], [], None)
          else
            var rest := Walk(ordered, i + 1, p, m.to, transform, idOf);
            Walked([i] + rest.applied, [(id.value, p)] + rest.writes, rest.thrown)
  }

  /** The walk applies each migration at most once, in list order, one write per application,
      and never more writes than there are migrations left. */
  lemma {:induction false} WalkBounds(ordered: seq<Migration>, i: nat, record: Json, version: int,
                                      transform: Transform, idOf: IdOf)
    requires i <= |ordered|
    ensures var w := Walk(ordered, i, record, version, transform, idOf);
      |w.applied| == |w.writes| <= |ordered| - i &&
      (forall k :: 0 <= k < |w.applied| ==> i <= w.applied[k] < |ordered|) &&
      (forall k, l :: 0 <= k < l < |w.applied| ==> w.applied[k] < w.applied[l])
    decreases |ordered| - i
  {
    if i < |ordered| {
      WalkBounds(ordered, i + 1, record, version, transform, idOf);
      var m := ordered[i];
      if m.from == version && transform(m, record).Transformed? {
        WalkBounds(ordered, i + 1, transform(m, record).project, m.to, transform, idOf);
      }
    }
  }

  /** The applied migrations form a version chain: the first starts at the record's version,
      each next one starts where the previous ended, and each write stores the previous result
      transformed. */
  lemma {:induction false} WalkChain(ordered: seq<Migration>, i: nat, record: Json, version: int,
                                     transform: Transform, idOf: IdOf)
    requires i <= |ordered|
    ensures var w := Walk(ordered, i, record, version, transform, idOf);
      |w.applied| == |w.writes| &&
      (forall k :: 0 <= k < |w.applied| ==> w.applied[k] < |ordered|) &&
      (|w.applied| > 0 ==> ordered[w.applied[0]].from == version &&
                           transform(ordered[w.applied[0]], record) == Transformed(w.writes[0].1)) &&
      (forall k :: 0 < k < |w.applied| ==>
         ordered[w.applied[k]].from == ordered[w.applied[k - 1]].to &&
         transform(ordered[w.applied[k]], w.writes[k - 1].1) == Transformed(w.writes[k].1))
    decreases |ordered| - i
  {
    WalkBounds(ordered, i, record, version, transform, idOf);
    if i < |ordered| {
      WalkChain(ordered, i + 1, record, version, transform, idOf);
      var m := ordered[i];
      if m.from == version && transform(m, record).Transformed? {
        var p := transform(m, record).project;
        WalkChain(ordered, i + 1, p, m.to, transform, idOf);
        WalkBounds(ordered, i + 1, p, m.to, transform, idOf);
      }
    }
  }

  predicate WritesCarryIds(writes: seq<(string, Json)>, idOf: IdOf) {
    forall n :: 0 <= n < |writes| ==> writes[n].0 != "" && idOf(writes[n].1) == Some(writes[n].0)
  }

  /** Each write of a walk stores a record under that record's own non-empty id. */
  lemma {:induction false} WalkWritesCarryIds(ordered: seq<Migration>, i: nat, record: Json, version: int,
                                              transform: Transform, idOf: IdOf)
    requires i <= |ordered|
    ensures WritesCarryIds(Walk(ordered, i, record, version, transform, idOf).writes, idOf)
    decreases |ordered| - i
  {
    if i < |ordered| {
      WalkWritesCarryIds(ordered, i + 1, record, version, transform, idOf);
      var m := ordered[i];
      if m.from == version && transform(m, record).Transformed? {
        WalkWritesCarryIds(ordered, i + 1, transform(m, record).project, m.to, transform, idOf);
      }
    }
  }

  // The whole run.

  datatype Run = Run(writes: seq<(string, Json)>, thrown: Option<Thrown>)

  /** The writes made while migrating the first `k` records, and what was thrown, if
      anything: once a transform throws, later records are not looked at. */
  function RunPrefix(projects: seq<Json>, k: nat, ordered: seq<Migration>, transform: Transform, idOf: IdOf): (r: Run)
    requires k <= |projects|
    decreases k
  {
    if k == 0 then Run([], None)
    else
      var before := RunPrefix(projects, k - 1, ordered, transform, idOf);
      var record := projects[k - 1];
      if before.thrown.Some? || !IsObject(record) then before
      else
        var w := Walk(ordered, 0, record, GetProjectVersion(record), transform, idOf);
        Run(before.writes + w.writes, w.thrown)
  }

  /** A run that has thrown is over: later records change nothing. */
  lemma {:induction false} ThrownIsFinal(projects: seq<Json>, k: nat, n: nat, ordered: seq<Migration>,
                                         transform: Transform, idOf: IdOf)
    requires k <= n <= |projects|
    requires RunPrefix(projects, k, ordered, transform, idOf).thrown.Some?
    ensures RunPrefix(projects, n, ordered, transform, idOf) == RunPrefix(projects, k, ordered, transform, idOf)
    decreases n
  {
    if k < n {
      ThrownIsFinal(projects, k, n - 1, ordered, transform, idOf);
    }
  }

  /** No more writes than records times migrations. */
  lemma {:induction false} RunBound(projects: seq<Json>, k: nat, ordered: seq<Migration>, transform: Transform, idOf: IdOf)
    requires k <= |projects|
    ensures |RunPrefix(projects, k, ordered, transform, idOf).writes| <= k * |ordered|
    decreases k
  {
    if k > 0 {
      RunBound(projects, k - 1, ordered, transform, idOf);
      var record := projects[k - 1];
      WalkBounds(ordered, 0, record, GetProjectVersion(record), transform, idOf);
      assert k * |ordered| == (k - 1) * |ordered| + |ordered|;
    }
  }

  /** Records that are not objects are never transformed or written: a run over a list of them
      writes nothing. */
  lemma {:induction false} NonObjectsAreSkipped(projects: seq<Json>, k: nat, ordered: seq<Migration>,
                                                transform: Transform, idOf: IdOf)
    requires k <= |projects|
    requires forall i :: 0 <= i < k ==> !IsObject(projects[i])
    ensures RunPrefix(projects, k, ordered, transform, idOf) == Run([], None)
    decreases k
  {
    if k > 0 {
      NonObjectsAreSkipped(projects, k - 1, ordered, transform, idOf);
    }
  }

  /** Every write stores a transformed record under its own non-empty id. */
  lemma {:induction false} RunWritesCarryIds(projects: seq<Json>, k: nat, ordered: seq<Migration>,
                                             transform: Transform, idOf: IdOf)
    requires k <= |projects|
    ensures WritesCarryIds(RunPrefix(projects, k, ordered, transform, idOf).writes, idOf)
    decreases k
  {
    if k > 0 {
      RunWritesCarryIds(projects, k - 1, ordered, transform, idOf);
      var before := RunPrefix(projects, k - 1, ordered, transform, idOf);
      var record := projects[k - 1];
      if before.thrown.None? && IsObject(record) {
        var w := Walk(ordered, 0, record, GetProjectVersion(record), transform, idOf);
        WalkWritesCarryIds(ordered, 0, record, GetProjectVersion(record), transform, idOf);
        var all := before.writes + w.writes;
        forall n | 0 <= n < |all|
          ensures all[n].0 != "" && idOf(all[n].1) == Some(all[n].0)
        {
          if n < |before.writes| {
            assert all[n] == before.writes[n];
          } else {
            assert all[n] == w.writes[n - |before.writes|];
          }
        }
      }
    }
  }

  /** The keyed project store (the `projects` object store). `initial` is what it held when
      created and `setCalls` logs every `set` since, so `entries` is always the initial
      contents with the logged writes applied. */
  class ProjectsAdapter {
    const initial: map<string, Json>
    var entries: map<string, Json>
    var setCalls: seq<(string, Json)>

    predicate Valid()
      reads this
    {
      entries == ApplyWrites(initial, setCalls)
    }

    constructor (entries: map<string, Json>)
      ensures this.entries == entries && setCalls == [] && Valid()
    {
      initial := entries;
      this.entries := entries;
      setCalls := [];
    }

    method Set(id: string, project: Json)
      requires Valid()
      modifies this
      ensures entries == old(entries)[id := project]
      ensures setCalls == old(setCalls) + [(id, project)]
      ensures Valid()
    {
      entries := entries[id := project];
      setCalls := setCalls + [(id, project)];
      assert setCalls[..|setCalls| - 1] == old(setCalls);
    }
  }

  /** The store updated by a sequence of writes, the last write to a key winning. */
  function ApplyWrites(entries: map<string, Json>, writes: seq<(string, Json)>): map<string, Json>
    decreases |writes|
  {
    if writes == [] then entries
    else
      var last := writes[|writes| - 1];
      ApplyWrites(entries, writes[..|writes| - 1])[last.0 := last.1]
  }

  /** The module-level state of runner.ts: the one-time cleanup flag, and how often the legacy
      database deletion was attempted. */
  class MigrationRunner {
    var hasCleanedUpMetaDb: bool
    var deleteAttempts: nat

    constructor ()
      ensures !hasCleanedUpMetaDb && deleteAttempts == 0
    {
      hasCleanedUpMetaDb := false;
      deleteAttempts := 0;
    }

    /** The one-time deletion of the legacy version database. Whether the deletion throws is
        the parameter `deleteThrows`; a throw is ignored and the flag is set either way. */
    method CleanUpMetaDb(deleteThrows: bool)
      modifies this
      ensures hasCleanedUpMetaDb
      ensures deleteAttempts == old(deleteAttempts) + (if old(hasCleanedUpMetaDb) then 0 else 1)
    {
      if !hasCleanedUpMetaDb {
        deleteAttempts := deleteAttempts + 1;
        if deleteThrows {
          // The error is ignored: the database may not exist.
        }
        hasCleanedUpMetaDb := true;
      }
    }

    /** `runStorageMigrations`: the cleanup, then every record of `projects` (the store's
        `getAll` result, read before any write) migrated in turn. It resolves with the number of
        writes, or rejects with the first error a transform throws. */
    method RunStorageMigrations(store: ProjectsAdapter, projects: seq<Json>, migrations: seq<Migration>,
                                transform: Transform, idOf: IdOf, deleteThrows: bool)
      returns (result: Result<nat, Thrown>)
      requires store.Valid()
      modifies this, store
      ensures store.Valid()
      ensures hasCleanedUpMetaDb
      ensures deleteAttempts == old(deleteAttempts) + (if old(hasCleanedUpMetaDb) then 0 else 1)
      ensures var r := RunPrefix(projects, |projects|, SortByFrom(migrations), transform, idOf);
        store.setCalls == old(store.setCalls) + r.writes &&
        store.entries == ApplyWrites(old(store.entries), r.writes) &&
        (r.thrown.None? ==> result == Success(|r.writes|)) &&
        (r.thrown.Some? ==> result == Failure(r.thrown.value))
    {
      CleanUpMetaDb(deleteThrows);
      var orderedMigrations := SortByFrom(migrations);
      result := MigrateAll(store, projects, orderedMigrations, transform, idOf);
      ApplyWritesConcat(store.initial, old(store.setCalls),
                        RunPrefix(projects, |projects|, orderedMigrations, transform, idOf).writes);
    }
  }

  /** One record's inner loop. */
  method MigrateRecord(store: ProjectsAdapter, ordered: seq<Migration>, record: Json,
                       transform: Transform, idOf: IdOf) returns (count: nat, thrown: Option<Thrown>)
    requires store.Valid()
    modifies store
    ensures store.Valid()
    ensures var w := Walk(ordered, 0, record, GetProjectVersion(record), transform, idOf);
      store.setCalls == old(store.setCalls) + w.writes && count == |w.writes| && thrown == w.thrown
  {
    var projectRecord := record;
    var currentVersion := GetProjectVersion(record);
    ghost var full := Walk(ordered, 0, record, currentVersion, transform, idOf);
    ghost var done: seq<(string, Json)> := [];
    count := 0;
    thrown := None;
    var i := 0;
    while i < |ordered|
      invariant 0 <= i <= |ordered|
      invariant full.writes == done + Walk(ordered, i, projectRecord, currentVersion, transform, idOf).writes
      invariant full.thrown == Walk(ordered, i, projectRecord, currentVersion, transform, idOf).thrown
      invariant store.setCalls == old(store.setCalls) + done && store.Valid()
      invariant count == |done| && thrown.None?
      decreases |ordered| - i
    {
      var migration := ordered[i];
      if migration.from != currentVersion {
        i := i + 1;
        continue;
      }
      var result := transform(migration, projectRecord);
      if result.Skipped? {
        assert Walk(ordered, i, projectRecord, currentVersion, transform, idOf) == Walked([], [], None);
        break;
      }
      if result.TransformThrew? {
        assert Walk(ordered, i, projectRecord, currentVersion, transform, idOf) == Walked([], [], Some(result.error));
        thrown := Some(result.error);
        break;
      }
      var projectId := idOf(result.project);
      if projectId.None? || projectId.value == "" {
        assert Walk(ordered, i, projectRecord, currentVersion, transform, idOf) == Walked([], [], None);
        break;
      }
      store.Set(projectId.value, result.project);
      done := done + [(projectId.value, result.project)];
      count := count + 1;
      currentVersion := migration.to;
      projectRecord := result.project;
      i := i + 1;
    }
    assert done == full.writes;
  }

  /** The outer loop over the records. */
  method MigrateAll(store: ProjectsAdapter, projects: seq<Json>, ordered: seq<Migration>,
                    transform: Transform, idOf: IdOf) returns (result: Result<nat, Thrown>)
    requires store.Valid()
    modifies store
    ensures store.Valid()
    ensures var r := RunPrefix(projects, |projects|, ordered, transform, idOf);
      store.setCalls == old(store.setCalls) + r.writes &&
      (r.thrown.None? ==> result == Success(|r.writes|)) &&
      (r.thrown.Some? ==> result == Failure(r.thrown.value))
  {
    ghost var done: seq<(string, Json)> := [];
    var migratedCount := 0;
    var k := 0;
    while k < |projects|
      invariant 0 <= k <= |projects|
      invariant RunPrefix(projects, k, ordered, transform, idOf) == Run(done, None)
      invariant store.setCalls == old(store.setCalls) + done && store.Valid()
      invariant migratedCount == |done|
      decreases |projects| - k
    {
      var project := projects[k];
      if !IsObject(project) {
        k := k + 1;
        continue;
      }
      ghost var w := Walk(ordered, 0, project, GetProjectVersion(project), transform, idOf);
      var count, thrown := MigrateRecord(store, ordered, project, transform, idOf);
      done := done + w.writes;
      migratedCount := migratedCount + count;
      assert RunPrefix(projects, k + 1, ordered, transform, idOf) == Run(done, thrown);
      if thrown.Some? {
        ThrownIsFinal(projects, k + 1, |projects|, ordered, transform, idOf);
        return Failure(thrown.value);
      }
      k := k + 1;
    }
    result := Success(migratedCount);
  }

  lemma {:induction false} ApplyWritesConcat(entries: map<string, Json>, a: seq<(string, Json)>, b: seq<(string, Json)>)
    ensures ApplyWrites(entries, a + b) == ApplyWrites(ApplyWrites(entries, a), b)
    decreases |b|
  {
    if b == [] {
      assert a + b == a;
    } else {
      ApplyWritesConcat(entries, a, b[..|b| - 1]);
      assert (a + b)[..|a + b| - 1] == a + b[..|b| - 1];
    }
  }

  /** A version-0 record meets the migrations 1 -> 2 and 0 -> 1, registered in that order: the
      sort puts 0 -> 1 first, so both apply, and the record is written twice. */
  lemma TwoStepUpgrade(record: Json, v1: Json, v2: Json)
    requires record == JObj(map["id" := JStr("p")])
    requires v1 == JObj(map["id" := JStr("p"), "version" := JNum(1)])
    requires v2 == JObj(map["id" := JStr("p"), "version" := JNum(2)])
    ensures var ms := [Migration("v1-to-v2", 1, 2), Migration("v0-to-v1", 0, 1)];
      var transform := (m: Migration, j: Json) => if m.from == 0 then Transformed(v1) else Transformed(v2);
      var idOf := (j: Json) => StringField(j, "id");
      RunPrefix([record], 1, SortByFrom(ms), transform, idOf) == Run([("p", v1), ("p", v2)], None)
  {
    var ms := [Migration("v1-to-v2", 1, 2), Migration("v0-to-v1", 0, 1)];
    var ordered := [Migration("v0-to-v1", 0, 1), Migration("v1-to-v2", 1, 2)];
    assert SortByFrom(ms[1..]) == [Migration("v0-to-v1", 0, 1)];
    assert SortByFrom(ms) == ordered;
    assert GetProjectVersion(record) == 0;
  }
}
