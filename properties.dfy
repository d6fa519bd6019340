/** What a migration run guarantees, stated over the functions of Migration
    and proved by induction over the tables, keys and paths they walk. */
module MigrationProperties {
  import opened Wrappers
  import opened SchemaTranslation
  import opened Staging
  import opened Migration

  /** The describe calls of a phase that reached every table of `ts`. */
  function Described(ts: seq<string>): (evs: seq<Event>)
    ensures |evs| == |ts| && forall i :: 0 <= i < |ts| ==> evs[i] == SchemaDescribed(ts[i])
  {
    seq(|ts|, i requires 0 <= i < |ts| => SchemaDescribed(ts[i]))
  }

  /** The get_object calls for `keys`, in order. */
  function FetchedEvents(t: string, keys: seq<string>): (evs: seq<Event>)
    ensures |evs| == |keys| && forall i :: 0 <= i < |keys| ==> evs[i] == ObjectFetched(t, keys[i])
  {
    seq(|keys|, i requires 0 <= i < |keys| => ObjectFetched(t, keys[i]))
  }

  /** The tables whose folders were listed, in order. */
  function ListedTables(tr: seq<Event>): seq<string>
  {
    if tr == [] then []
    else (if tr[0].ObjectsListed? then [tr[0].table] else []) + ListedTables(tr[1..])
  }

  lemma {:induction false} ListedTablesAppend(a: seq<Event>, b: seq<Event>)
    ensures ListedTables(a + b) == ListedTables(a) + ListedTables(b)
    decreases |a|
  {
    if a == [] {
      assert a + b == b;
    } else {
      assert (a + b)[0] == a[0] && (a + b)[1..] == a[1..] + b;
      ListedTablesAppend(a[1..], b);
    }
  }

  lemma {:induction false} ListedTablesNone(tr: seq<Event>)
    requires forall i :: 0 <= i < |tr| ==> !tr[i].ObjectsListed?
    ensures ListedTables(tr) == []
    decreases |tr|
  {
    if tr != [] {
      ListedTablesNone(tr[1..]);
    }
  }

  // ---------------------------------------------------------------------
  // Phase 2

  /** get_table_schemas describes the tables in order and stops at the first
      describe call that raises; it touches no downloaded object. */
  lemma {:induction false} SchemaFetchStopsAtFirstFailure(svc: Services, ts: seq<string>, disk: Disk)
    ensures var f := SchemaFetch(svc, ts, disk);
      && |f.trace| <= |ts| && f.trace == Described(ts[..|f.trace|])
      && f.disk.objects == disk.objects
      && (f.failure.None? <==> forall i :: 0 <= i < |ts| ==> svc.describe(ts[i]).Some?)
      && (f.failure.None? ==> |f.trace| == |ts|)
      && (f.failure.Some? ==>
            && 0 < |f.trace|
            && f.failure == Some(DescribeFailed(ts[|f.trace| - 1]))
            && svc.describe(ts[|f.trace| - 1]).None?
            && forall j :: 0 <= j < |f.trace| - 1 ==> svc.describe(ts[j]).Some?)
    decreases |ts|
  {
    if ts != [] {
      match svc.describe(ts[0])
      case None =>
        assert ts[..1] == [ts[0]];
      case Some(cols) =>
        var d' := disk.(schemas := disk.schemas[SchemaPath(ts[0]) := cols]);
        SchemaFetchStopsAtFirstFailure(svc, ts[1..], d');
        var rest := SchemaFetch(svc, ts[1..], d');
        assert ts[..|rest.trace| + 1] == [ts[0]] + ts[1..][..|rest.trace|];
        forall i | 1 <= i < |ts| ensures ts[i] == ts[1..][i - 1] { }
    }
  }

  /** When every describe succeeds, each table's schema.json holds its
      ColumnList and no other schema file changes. */
  lemma {:induction false} SchemaFetchStoresSchemas(svc: Services, ts: seq<string>, disk: Disk)
    requires forall i :: 0 <= i < |ts| ==> svc.describe(ts[i]).Some?
    ensures var f := SchemaFetch(svc, ts, disk);
      && (forall i :: 0 <= i < |ts| ==>
            SchemaPath(ts[i]) in f.disk.schemas && f.disk.schemas[SchemaPath(ts[i])] == svc.describe(ts[i]).value)
      && (forall p :: p in f.disk.schemas && (forall i :: 0 <= i < |ts| ==> p != SchemaPath(ts[i])) ==>
            p in disk.schemas && f.disk.schemas[p] == disk.schemas[p])
      && (forall p :: p in disk.schemas && (forall i :: 0 <= i < |ts| ==> p != SchemaPath(ts[i])) ==>
            p in f.disk.schemas)
    decreases |ts|
  {
    if ts != [] {
      var cols := svc.describe(ts[0]).value;
      var d' := disk.(schemas := disk.schemas[SchemaPath(ts[0]) := cols]);
      forall i | 0 <= i < |ts[1..]| ensures svc.describe(ts[1..][i]).Some? {
        assert ts[1..][i] == ts[i + 1];
      }
      SchemaFetchStoresSchemas(svc, ts[1..], d');
      var f := SchemaFetch(svc, ts, disk);
      forall i | 0 <= i < |ts|
        ensures SchemaPath(ts[i]) in f.disk.schemas && f.disk.schemas[SchemaPath(ts[i])] == svc.describe(ts[i]).value
      {
        if i > 0 {
          assert ts[i] == ts[1..][i - 1];
        } else if exists j :: 1 <= j < |ts| && SchemaPath(ts[j]) == SchemaPath(ts[0]) {
          var j :| 1 <= j < |ts| && SchemaPath(ts[j]) == SchemaPath(ts[0]);
          SchemaPathInjective(ts[j], ts[0]);
          assert ts[j] == ts[1..][j - 1];
        } else {
          forall m | 0 <= m < |ts[1..]| ensures SchemaPath(ts[0]) != SchemaPath(ts[1..][m]) {
            assert ts[1..][m] == ts[m + 1];
          }
        }
      }
      forall p | p in f.disk.schemas && (forall i :: 0 <= i < |ts| ==> p != SchemaPath(ts[i]))
        ensures p in disk.schemas && f.disk.schemas[p] == disk.schemas[p]
      {
        assert p != SchemaPath(ts[0]);
        forall m | 0 <= m < |ts[1..]| ensures p != SchemaPath(ts[1..][m]) {
          assert ts[1..][m] == ts[m + 1];
        }
      }
      forall p | p in disk.schemas && (forall i :: 0 <= i < |ts| ==> p != SchemaPath(ts[i]))
        ensures p in f.disk.schemas
      {
        assert p != SchemaPath(ts[0]);
        forall m | 0 <= m < |ts[1..]| ensures p != SchemaPath(ts[1..][m]) {
          assert ts[1..][m] == ts[m + 1];
        }
      }
    }
  }

  // ---------------------------------------------------------------------
  // Phase 3: get_table_folder_objects

  /** A key can be staged when its body can be fetched and its last segment
      names a file rather than the objects directory itself. */
  predicate Stageable(svc: Services, key: string)
  {
    svc.body(key).Some? && !NamesDirectory(LastSegment(key))
  }

  predicate AllStageable(svc: Services, keys: seq<string>)
  {
    forall i :: 0 <= i < |keys| ==> Stageable(svc, keys[i])
  }

  lemma AllStageableCons(svc: Services, keys: seq<string>)
    requires keys != []
    ensures AllStageable(svc, keys) <==> Stageable(svc, keys[0]) && AllStageable(svc, keys[1..])
  {
    if Stageable(svc, keys[0]) && AllStageable(svc, keys[1..]) {
      forall i | 1 <= i < |keys| ensures Stageable(svc, keys[i]) {
        assert keys[i] == keys[1..][i - 1];
      }
    }
    if AllStageable(svc, keys) {
      forall m | 0 <= m < |keys| - 1 ensures Stageable(svc, keys[1..][m]) {
        assert keys[1..][m] == keys[m + 1];
      }
    }
  }

  lemma ObjectPathsCons(t: string, keys: seq<string>)
    requires keys != []
    ensures ObjectPaths(t, keys) == [ObjectPath(t, keys[0])] + ObjectPaths(t, keys[1..])
  {
    var a := ObjectPaths(t, keys);
    var b := [ObjectPath(t, keys[0])] + ObjectPaths(t, keys[1..]);
    forall i | 0 <= i < |keys| ensures a[i] == b[i] {
      if i > 0 { assert keys[i] == keys[1..][i - 1]; }
    }
  }

  /** No key after position `i` is staged at the same path as `keys[i]`. */
  predicate LastToPath(t: string, keys: seq<string>, i: nat)
    requires i < |keys|
  {
    forall j :: i < j < |keys| ==> ObjectPath(t, keys[j]) != ObjectPath(t, keys[i])
  }

  lemma LastToPathTail(t: string, keys: seq<string>, i: nat)
    requires 0 < i < |keys| && LastToPath(t, keys, i)
    ensures keys[1..][i - 1] == keys[i] && LastToPath(t, keys[1..], i - 1)
  {
    var tail := keys[1..];
    forall j | i - 1 < j < |tail| ensures ObjectPath(t, tail[j]) != ObjectPath(t, tail[i - 1]) {
      assert tail[j] == keys[j + 1];
    }
  }

  lemma LastToPathFirst(t: string, keys: seq<string>)
    requires keys != [] && LastToPath(t, keys, 0)
    ensures forall m :: 0 <= m < |keys[1..]| ==> ObjectPath(t, keys[0]) != ObjectPath(t, keys[1..][m])
  {
    forall m | 0 <= m < |keys| - 1 ensures ObjectPath(t, keys[0]) != ObjectPath(t, keys[1..][m]) {
      assert keys[1..][m] == keys[m + 1];
    }
  }

  lemma FetchObjectsUnfold(svc: Services, t: string, keys: seq<string>, objects: map<string, seq<byte>>)
    requires keys != [] && Stageable(svc, keys[0])
    ensures FetchObjects(svc, t, keys, objects) ==
      Prepend([ObjectPath(t, keys[0])], [ObjectFetched(t, keys[0])],
        FetchObjects(svc, t, keys[1..], objects[ObjectPath(t, keys[0]) := svc.body(keys[0]).value]))
  {
  }

  /** The downloads are attempted in listing order, one get_object per key,
      until the first key that cannot be staged. */
  lemma {:induction false} FetchObjectsTrace(svc: Services, t: string, keys: seq<string>, objects: map<string, seq<byte>>)
    ensures var l := FetchObjects(svc, t, keys, objects);
      |l.trace| <= |keys| && l.trace == FetchedEvents(t, keys[..|l.trace|])
    decreases |keys|
  {
    if keys != [] {
      var key := keys[0];
      if Stageable(svc, key) {
        var objs' := objects[ObjectPath(t, key) := svc.body(key).value];
        FetchObjectsTrace(svc, t, keys[1..], objs');
        var rest := FetchObjects(svc, t, keys[1..], objs');
        FetchObjectsUnfold(svc, t, keys, objects);
        assert FetchObjects(svc, t, keys, objects).trace == [ObjectFetched(t, key)] + rest.trace;
        assert keys[..|rest.trace| + 1] == [key] + keys[1..][..|rest.trace|];
      } else {
        assert keys[..1] == [key];
      }
    }
  }

  /** The download succeeds exactly when every key can be staged, and then
      returns one path per key, `tables/<t>/objects/<last segment>`, in
      listing order. */
  lemma {:induction false} FetchObjectsPaths(svc: Services, t: string, keys: seq<string>, objects: map<string, seq<byte>>)
    ensures var l := FetchObjects(svc, t, keys, objects);
      && (l.Fetched? <==> AllStageable(svc, keys))
      && (l.Fetched? ==> |l.trace| == |keys| && l.paths == ObjectPaths(t, keys))
    decreases |keys|
  {
    if keys != [] {
      var key := keys[0];
      AllStageableCons(svc, keys);
      if Stageable(svc, key) {
        var objs' := objects[ObjectPath(t, key) := svc.body(key).value];
        FetchObjectsPaths(svc, t, keys[1..], objs');
        FetchObjectsUnfold(svc, t, keys, objects);
        ObjectPathsCons(t, keys);
      }
    }
  }

  /** A failed download names the first key that cannot be staged: a failed
      get_object, or a key whose last segment names a directory (empty, `.` or `..`). */
  lemma {:induction false} FetchObjectsFailure(svc: Services, t: string, keys: seq<string>, objects: map<string, seq<byte>>)
    requires FetchObjects(svc, t, keys, objects).FetchError?
    ensures var l := FetchObjects(svc, t, keys, objects);
      && 0 < |l.trace| <= |keys|
      && (forall j :: 0 <= j < |l.trace| - 1 ==> Stageable(svc, keys[j]))
      && !Stageable(svc, keys[|l.trace| - 1])
      && l.failure == (if svc.body(keys[|l.trace| - 1]).None? then FetchFailed(t, keys[|l.trace| - 1])
                       else IsADirectory(t, ObjectPath(t, keys[|l.trace| - 1])))
    decreases |keys|
  {
    var key := keys[0];
    if Stageable(svc, key) {
      var objs' := objects[ObjectPath(t, key) := svc.body(key).value];
      FetchObjectsUnfold(svc, t, keys, objects);
      var rest := FetchObjects(svc, t, keys[1..], objs');
      FetchObjectsFailure(svc, t, keys[1..], objs');
      var l := FetchObjects(svc, t, keys, objects);
      assert |l.trace| == |rest.trace| + 1 && l.failure == rest.failure;
      forall j | 1 <= j < |keys| ensures keys[j] == keys[1..][j - 1] { }
    }
  }

  /** Every listed key's path exists once the download succeeds. */
  lemma {:induction false} FetchObjectsPresent(svc: Services, t: string, keys: seq<string>, objects: map<string, seq<byte>>)
    requires AllStageable(svc, keys)
    ensures var l := FetchObjects(svc, t, keys, objects);
      forall i :: 0 <= i < |keys| ==> ObjectPath(t, keys[i]) in l.objects
    decreases |keys|
  {
    if keys != [] {
      var key := keys[0];
      var path := ObjectPath(t, key);
      var objs' := objects[path := svc.body(key).value];
      FetchObjectsUnfold(svc, t, keys, objects);
      var tail := keys[1..];
      AllStageableCons(svc, keys);
      var l := FetchObjects(svc, t, keys, objects);
      assert l.objects == FetchObjects(svc, t, tail, objs').objects;
      FetchObjectsPresent(svc, t, tail, objs');
      FetchObjectsFrame(svc, t, tail, objs');
      forall i | 0 <= i < |keys| ensures ObjectPath(t, keys[i]) in l.objects {
        if i > 0 {
          assert keys[i] == tail[i - 1];
        } else if forall m :: 0 <= m < |tail| ==> path != ObjectPath(t, tail[m]) {
          assert path in objs';
        } else {
          var m :| 0 <= m < |tail| && path == ObjectPath(t, tail[m]);
          assert tail[m] == keys[m + 1];
        }
      }
    }
  }

  /** The first key's file keeps its body when no later key shares its path. */
  lemma FetchObjectsContentFirst(svc: Services, t: string, keys: seq<string>, objects: map<string, seq<byte>>)
    requires keys != [] && Stageable(svc, keys[0]) && LastToPath(t, keys, 0)
    ensures var l := FetchObjects(svc, t, keys, objects);
      ObjectPath(t, keys[0]) in l.objects && svc.body(keys[0]) == Some(l.objects[ObjectPath(t, keys[0])])
  {
    var objs' := objects[ObjectPath(t, keys[0]) := svc.body(keys[0]).value];
    FetchObjectsUnfold(svc, t, keys, objects);
    LastToPathFirst(t, keys);
    FetchObjectsFrame(svc, t, keys[1..], objs');
  }

  lemma {:induction false} FetchObjectsContentAt(svc: Services, t: string, keys: seq<string>, objects: map<string, seq<byte>>, i: nat)
    requires AllStageable(svc, keys)
    requires i < |keys| && LastToPath(t, keys, i)
    ensures var l := FetchObjects(svc, t, keys, objects);
      ObjectPath(t, keys[i]) in l.objects && svc.body(keys[i]) == Some(l.objects[ObjectPath(t, keys[i])])
    decreases |keys|
  {
    if i == 0 {
      FetchObjectsContentFirst(svc, t, keys, objects);
    } else {
      AllStageableCons(svc, keys);
      LastToPathTail(t, keys, i);
      FetchObjectsUnfold(svc, t, keys, objects);
      FetchObjectsContentAt(svc, t, keys[1..], objects[ObjectPath(t, keys[0]) := svc.body(keys[0]).value], i - 1);
    }
  }

  /** A staged file holds its key's body unless a later key has the same
      last segment (the later download overwrites it). */
  lemma FetchObjectsContents(svc: Services, t: string, keys: seq<string>, objects: map<string, seq<byte>>)
    requires AllStageable(svc, keys)
    ensures var l := FetchObjects(svc, t, keys, objects);
      forall i :: 0 <= i < |keys| && LastToPath(t, keys, i) ==>
        ObjectPath(t, keys[i]) in l.objects && svc.body(keys[i]) == Some(l.objects[ObjectPath(t, keys[i])])
  {
    forall i | 0 <= i < |keys| && LastToPath(t, keys, i)
      ensures var l := FetchObjects(svc, t, keys, objects);
        ObjectPath(t, keys[i]) in l.objects && svc.body(keys[i]) == Some(l.objects[ObjectPath(t, keys[i])])
    {
      FetchObjectsContentAt(svc, t, keys, objects, i);
    }
  }

  /** Files at paths that no listed key maps to are left as they were. */
  lemma {:induction false} FetchObjectsFrame(svc: Services, t: string, keys: seq<string>, objects: map<string, seq<byte>>)
    ensures var l := FetchObjects(svc, t, keys, objects);
      forall p :: (forall i :: 0 <= i < |keys| ==> p != ObjectPath(t, keys[i])) ==>
        (p in l.objects <==> p in objects) && (p in objects ==> l.objects[p] == objects[p])
    decreases |keys|
  {
    if keys != [] && Stageable(svc, keys[0]) {
      var key := keys[0];
      var path := ObjectPath(t, key);
      var objs' := objects[path := svc.body(key).value];
      FetchObjectsUnfold(svc, t, keys, objects);
      var tail := keys[1..];
      FetchObjectsFrame(svc, t, tail, objs');
      var l := FetchObjects(svc, t, keys, objects);
      assert l.objects == FetchObjects(svc, t, tail, objs').objects;
      forall p | (forall i :: 0 <= i < |keys| ==> p != ObjectPath(t, keys[i]))
        ensures (p in l.objects <==> p in objects) && (p in objects ==> l.objects[p] == objects[p])
      {
        assert p != path;
        forall m | 0 <= m < |tail| ensures p != ObjectPath(t, tail[m]) {
          assert tail[m] == keys[m + 1];
        }
      }
    }
  }

  // ---------------------------------------------------------------------
  // Phase 3: upload_object and one iteration of upload_tables

  /** The table's schema.json exists and translates. */
  predicate SchemaReady(t: string, disk: Disk)
  {
    SchemaPath(t) in disk.schemas && TableSchema(disk.schemas[SchemaPath(t)], AsWrittenBranch).Success?
  }

  /** The fields every load of table `t` is submitted with. */
  function LoadFields(t: string, disk: Disk): seq<Field>
    requires SchemaReady(t, disk)
  {
    TableSchema(disk.schemas[SchemaPath(t)], AsWrittenBranch).value.columns
  }

  /** The objects are loaded in order, each once with the table's translated
      fields and the staged file's bytes. The table's uploads succeed exactly
      when its schema translates, every staged file is there and no load
      raises: a load that only reports an error result does not stop them. */
  lemma {:induction false} UploadObjectsShape(svc: Services, t: string, paths: seq<string>, disk: Disk)
    requires paths != []
    ensures var u := UploadObjects(svc, t, paths, disk);
      && (u.failure.None? <==>
            && SchemaReady(t, disk)
            && forall i :: 0 <= i < |paths| ==> paths[i] in disk.objects && svc.load(t, paths[i]) != LoadRaised)
      && |u.trace| <= |paths|
      && (u.failure.None? ==> |u.trace| == |paths|)
      && forall i :: 0 <= i < |u.trace| ==>
           && SchemaReady(t, disk) && paths[i] in disk.objects
           && u.trace[i] == LoadSubmitted(t, paths[i], LoadFields(t, disk), disk.objects[paths[i]])
    decreases |paths|
  {
    UploadObjectsUnfold(svc, t, paths, disk);
    var u0 := ObjectUpload(svc, t, paths[0], disk);
    if u0.failure.None? && |paths| > 1 {
      var tail := paths[1..];
      UploadObjectsShape(svc, t, tail, disk);
      forall i | 1 <= i < |paths| ensures paths[i] == tail[i - 1] { }
    }
  }

  /** The events of one table: its listing first, then only downloads,
      loads and the folder removal of that same table. */
  lemma TableUploadEvents(svc: Services, t: string, disk: Disk)
    ensures var tr := TableUpload(svc, t, disk).trace;
      && 0 < |tr| && tr[0] == ObjectsListed(t)
      && (forall i :: 0 <= i < |tr| ==> Phase(tr[i]) == 3 && tr[i].table == t)
      && (forall i :: 1 <= i < |tr| ==> !tr[i].ObjectsListed?)
  {
    match svc.contents(t)
    case None =>
    case Some(keys) =>
      FetchObjectsTrace(svc, t, keys, disk.objects);
      var l := FolderObjects(svc, t, disk.objects);
      if l.Fetched? && l.paths != [] {
        UploadObjectsShape(svc, t, l.paths, disk.(objects := l.objects));
      }
  }

  /** An empty listing halts the run as completed with nothing but the
      listing done: no upload, and the table's files, schema.json included,
      stay where they are. A listing without "Contents" fails before any
      download. */
  lemma TableUploadListing(svc: Services, t: string, disk: Disk)
    ensures svc.contents(t) == Some([]) ==> TableUpload(svc, t, disk) == Halt(disk, [ObjectsListed(t)], Completed)
    ensures svc.contents(t).None? ==>
      TableUpload(svc, t, disk) == Halt(disk, [ObjectsListed(t)], Failed(NoContents(t)))
    ensures var s := TableUpload(svc, t, disk);
      s.Halt? && s.outcome == Completed <==> svc.contents(t) == Some([])
  {
    match svc.contents(t)
    case None =>
    case Some(keys) =>
      FetchObjectsPaths(svc, t, keys, disk.objects);
      var l := FolderObjects(svc, t, disk.objects);
      if l.Fetched? && l.paths != [] {
        UploadObjectsShape(svc, t, l.paths, disk.(objects := l.objects));
      }
  }

  /** The local path of each key, in order. */
  function ObjectPaths(t: string, keys: seq<string>): (paths: seq<string>)
    ensures |paths| == |keys| && forall i :: 0 <= i < |keys| ==> paths[i] == ObjectPath(t, keys[i])
  {
    seq(|keys|, i requires 0 <= i < |keys| => ObjectPath(t, keys[i]))
  }

  /** One load per path, in order, each with `fields` and the staged bytes. */
  function LoadEvents(t: string, paths: seq<string>, fields: seq<Field>, objects: map<string, seq<byte>>): (evs: seq<Event>)
    requires forall i :: 0 <= i < |paths| ==> paths[i] in objects
    ensures |evs| == |paths| &&
      forall i :: 0 <= i < |paths| ==> evs[i] == LoadSubmitted(t, paths[i], fields, objects[paths[i]])
  {
    seq(|paths|, i requires 0 <= i < |paths| => LoadSubmitted(t, paths[i], fields, objects[paths[i]]))
  }

  /** What a table step the run moves past is made of. */
  lemma TableUploadContinueParts(svc: Services, t: string, disk: Disk)
    requires TableUpload(svc, t, disk).Continue?
    ensures svc.contents(t).Some?
    ensures var fetched := FetchObjects(svc, t, svc.contents(t).value, disk.objects);
      && fetched.Fetched? && fetched.paths != []
      && var d := disk.(objects := fetched.objects);
         var u := UploadObjects(svc, t, fetched.paths, d);
         && u.failure.None?
         && TableUpload(svc, t, disk) ==
              Continue(RemoveFolder(d, t), [ObjectsListed(t)] + fetched.trace + u.trace + [FolderRemoved(t)])
  {
    var fetched := FetchObjects(svc, t, svc.contents(t).value, disk.objects);
    assert FolderObjects(svc, t, disk.objects) == Prepend([], [ObjectsListed(t)], fetched);
    if fetched.Fetched? {
      assert [] + fetched.paths == fetched.paths;
    }
  }

  /** The downloads and loads of a table whose steps all succeeded. */
  lemma CompletedTableTrace(svc: Services, t: string, keys: seq<string>, disk: Disk)
    requires FetchObjects(svc, t, keys, disk.objects).Fetched?
    requires var fetched := FetchObjects(svc, t, keys, disk.objects);
      fetched.paths != [] && UploadObjects(svc, t, fetched.paths, disk.(objects := fetched.objects)).failure.None?
    ensures SchemaReady(t, disk)
    ensures var fetched := FetchObjects(svc, t, keys, disk.objects);
      && fetched.trace == FetchedEvents(t, keys)
      && fetched.paths == ObjectPaths(t, keys)
      && (forall i :: 0 <= i < |keys| ==> ObjectPath(t, keys[i]) in fetched.objects)
      && UploadObjects(svc, t, fetched.paths, disk.(objects := fetched.objects)).trace
           == LoadEvents(t, ObjectPaths(t, keys), LoadFields(t, disk), fetched.objects)
  {
    var fetched := FetchObjects(svc, t, keys, disk.objects);
    FetchObjectsPaths(svc, t, keys, disk.objects);
    FetchObjectsTrace(svc, t, keys, disk.objects);
    FetchObjectsPresent(svc, t, keys, disk.objects);
    assert fetched.paths == ObjectPaths(t, keys);
    var d := disk.(objects := fetched.objects);
    UploadObjectsShape(svc, t, fetched.paths, d);
    assert keys[..|fetched.trace|] == keys;
  }

  /** A table the run moves past had a non-empty listing; its events are the
      listing, one download per key in listing order, one load per key in the
      same order with the table's translated fields and the staged file's
      bytes, and last the removal of its folder. */
  lemma TableUploadCompletes(svc: Services, t: string, disk: Disk)
    requires TableUpload(svc, t, disk).Continue?
    ensures svc.contents(t).Some? && |svc.contents(t).value| > 0 && SchemaReady(t, disk)
    ensures var keys := svc.contents(t).value;
      var staged := FetchObjects(svc, t, keys, disk.objects).objects;
      && (forall i :: 0 <= i < |keys| ==> ObjectPath(t, keys[i]) in staged)
      && TableUpload(svc, t, disk).trace ==
           [ObjectsListed(t)] + FetchedEvents(t, keys)
           + LoadEvents(t, ObjectPaths(t, keys), LoadFields(t, disk), staged)
           + [FolderRemoved(t)]
  {
    TableUploadContinueParts(svc, t, disk);
    CompletedTableTrace(svc, t, svc.contents(t).value, disk);
  }

  /** After a table the run moves past, no file under `tables/<t>` is left
      (schema.json included) and the files outside that folder are as before. */
  lemma TableUploadCleansUp(svc: Services, t: string, disk: Disk)
    requires TableUpload(svc, t, disk).Continue?
    ensures var s := TableUpload(svc, t, disk);
      && SchemaPath(t) !in s.disk.schemas
      && (forall p :: p in s.disk.schemas ==> !InFolder(p, TableFolder(t)))
      && (forall p :: p in s.disk.objects ==> !InFolder(p, TableFolder(t)))
      && (forall p :: !InFolder(p, TableFolder(t)) ==>
            && (p in s.disk.schemas <==> p in disk.schemas)
            && (p in disk.schemas ==> s.disk.schemas[p] == disk.schemas[p])
            && (p in s.disk.objects <==> p in disk.objects)
            && (p in disk.objects ==> s.disk.objects[p] == disk.objects[p]))
  {
    TableUploadContinueParts(svc, t, disk);
    var keys := svc.contents(t).value;
    var fetched := FetchObjects(svc, t, keys, disk.objects);
    FetchObjectsFrame(svc, t, keys, disk.objects);
    SchemaPathInFolder(t);
    forall p | !InFolder(p, TableFolder(t))
      ensures (p in fetched.objects <==> p in disk.objects) && (p in disk.objects ==> fetched.objects[p] == disk.objects[p])
    {
      forall i | 0 <= i < |keys| ensures p != ObjectPath(t, keys[i]) {
        ObjectPathInFolder(t, keys[i]);
      }
    }
  }

  /** A table step that ends the run removes nothing: no folder removal is
      recorded, every schema file stays, and the objects directory is what
      the listing and downloads left, so a failed table's files stay staged. */
  lemma TableUploadHaltKeepsStaging(svc: Services, t: string, disk: Disk)
    requires TableUpload(svc, t, disk).Halt?
    ensures var s := TableUpload(svc, t, disk);
      && s.disk == disk.(objects := FolderObjects(svc, t, disk.objects).objects)
      && forall i :: 0 <= i < |s.trace| ==> !s.trace[i].FolderRemoved?
  {
    match svc.contents(t)
    case None =>
    case Some(keys) =>
      FetchObjectsTrace(svc, t, keys, disk.objects);
      var l := FolderObjects(svc, t, disk.objects);
      if l.Fetched? && l.paths != [] {
        UploadObjectsShape(svc, t, l.paths, disk.(objects := l.objects));
      }
  }

  /** A table the run moves past had stageable keys, and its schema.json is
      gone afterwards. */
  lemma TableUploadContinueDropsSchema(svc: Services, t: string, disk: Disk)
    requires TableUpload(svc, t, disk).Continue?
    ensures svc.contents(t).Some? && svc.contents(t).value != [] && AllStageable(svc, svc.contents(t).value)
    ensures SchemaPath(t) !in TableUpload(svc, t, disk).disk.schemas
  {
    TableUploadContinueParts(svc, t, disk);
    TableUploadCleansUp(svc, t, disk);
    FetchObjectsPaths(svc, t, svc.contents(t).value, disk.objects);
  }

  /** No table step writes a schema file. */
  lemma TableStepAddsNoSchema(svc: Services, t: string, disk: Disk)
    ensures forall p :: p in TableUpload(svc, t, disk).disk.schemas ==> p in disk.schemas
  {
    if TableUpload(svc, t, disk).Halt? {
      TableUploadHaltKeepsStaging(svc, t, disk);
    }
  }

  /** A table with keys that can all be staged but no schema.json fails on
      its first upload: its objects are downloaded, nothing is loaded, and
      the run ends with the missing schema file. */
  lemma TableUploadWithoutSchema(svc: Services, t: string, disk: Disk)
    requires svc.contents(t).Some? && svc.contents(t).value != [] && AllStageable(svc, svc.contents(t).value)
    requires SchemaPath(t) !in disk.schemas
    ensures var s := TableUpload(svc, t, disk);
      && s.Halt? && s.outcome == Failed(SchemaFileMissing(t))
      && s.trace == [ObjectsListed(t)] + FetchedEvents(t, svc.contents(t).value)
  {
    var keys := svc.contents(t).value;
    FetchObjectsPaths(svc, t, keys, disk.objects);
    FetchObjectsTrace(svc, t, keys, disk.objects);
    var fetched := FetchObjects(svc, t, keys, disk.objects);
    assert keys[..|fetched.trace|] == keys;
    UploadObjectsUnfold(svc, t, fetched.paths, disk.(objects := fetched.objects));
    assert FolderObjects(svc, t, disk.objects) == Prepend([], [ObjectsListed(t)], fetched);
    assert [] + fetched.paths == fetched.paths;
  }

  // ---------------------------------------------------------------------
  // Phase 3: upload_tables

  /** One table step lists exactly its own table. */
  lemma TableStepListed(svc: Services, t: string, disk: Disk)
    ensures ListedTables(TableUpload(svc, t, disk).trace) == [t]
  {
    TableUploadEvents(svc, t, disk);
    var tr := TableUpload(svc, t, disk).trace;
    assert tr == [tr[0]] + tr[1..];
    ListedTablesAppend([tr[0]], tr[1..]);
    ListedTablesNone(tr[1..]);
    assert ListedTables([tr[0]]) == [t];
  }

  lemma TableStepEventsOfListed(svc: Services, t: string, disk: Disk)
    ensures EventsOfListed(TableUpload(svc, t, disk).trace)
  {
    TableUploadEvents(svc, t, disk);
    TableStepListed(svc, t, disk);
  }

  /** How one table step ends: an empty listing completes the run at once,
      and a step the run moves past ends by removing the table's folder. */
  lemma TableStepEnd(svc: Services, t: string, disk: Disk)
    ensures var step := TableUpload(svc, t, disk);
      && (svc.contents(t) == Some([]) ==> step == Halt(disk, [ObjectsListed(t)], Completed))
      && (step.Halt? && step.outcome == Completed <==> svc.contents(t) == Some([]))
      && (step.Continue? ==> 0 < |step.trace| && step.trace[|step.trace| - 1] == FolderRemoved(t))
  {
    TableUploadListing(svc, t, disk);
    if TableUpload(svc, t, disk).Continue? {
      TableUploadContinueParts(svc, t, disk);
    }
  }

  lemma ShiftIndex<T>(s: seq<T>, n: nat)
    requires 1 <= n < |s|
    ensures s[n] == s[1..][n - 1]
  {
  }

  lemma InAppendLeft<T>(x: T, a: seq<T>, b: seq<T>)
    requires 0 < |a| && a[|a| - 1] == x
    ensures x in a + b
  {
    assert (a + b)[|a| - 1] == x;
  }

  lemma InAppendRight<T>(x: T, a: seq<T>, b: seq<T>)
    requires x in b
    ensures x in a + b
  {
    var k :| 0 <= k < |b| && b[k] == x;
    assert (a + b)[|a| + k] == x;
  }

  /** The run lists at most one folder per configured table, and at least
      one when there is a table. */
  lemma {:induction false} UploadRunListedCount(svc: Services, ts: seq<string>, disk: Disk)
    ensures var listed := ListedTables(UploadRun(svc, ts, disk).trace);
      |listed| <= |ts| && (|ts| > 0 ==> |listed| > 0)
    decreases |ts|
  {
    if ts != [] {
      var step := TableUpload(svc, ts[0], disk);
      TableStepListed(svc, ts[0], disk);
      if step.Continue? {
        UploadRunListedCount(svc, ts[1..], step.disk);
        ListedTablesAppend(step.trace, UploadRun(svc, ts[1..], step.disk).trace);
      }
    }
  }

  /** The tables are listed in configured order, from the first one on:
      the listed tables are a prefix of the configured ones. */
  lemma {:induction false} UploadRunInOrder(svc: Services, ts: seq<string>, disk: Disk)
    ensures var listed := ListedTables(UploadRun(svc, ts, disk).trace);
      |listed| <= |ts| && forall i :: 0 <= i < |listed| ==> listed[i] == ts[i]
    decreases |ts|
  {
    UploadRunListedCount(svc, ts, disk);
    if ts != [] {
      var t := ts[0];
      var step := TableUpload(svc, t, disk);
      TableStepListed(svc, t, disk);
      if step.Continue? {
        UploadRunInOrder(svc, ts[1..], step.disk);
        var rest := UploadRun(svc, ts[1..], step.disk);
        ListedTablesAppend(step.trace, rest.trace);
        var listed := ListedTables(UploadRun(svc, ts, disk).trace);
        forall i | 1 <= i < |listed| ensures listed[i] == ts[i] {
          ShiftIndex(ts, i);
          ShiftIndex(listed, i);
        }
      }
    }
  }

  /** Upload-phase events about listed tables. */
  predicate EventsOfListed(tr: seq<Event>)
  {
    forall i :: 0 <= i < |tr| ==> Phase(tr[i]) == 3 && tr[i].table in ListedTables(tr)
  }

  lemma EventsOfListedAppend(a: seq<Event>, b: seq<Event>)
    requires EventsOfListed(a) && EventsOfListed(b)
    ensures EventsOfListed(a + b)
  {
    ListedTablesAppend(a, b);
    var all := ListedTables(a + b);
    forall i | 0 <= i < |a + b| ensures Phase((a + b)[i]) == 3 && (a + b)[i].table in all {
      if i < |a| {
        assert (a + b)[i] == a[i];
      } else {
        assert (a + b)[i] == b[i - |a|];
      }
    }
  }

  /** Every event of the upload phase is an upload-phase event about a table
      that was listed. */
  lemma {:induction false} UploadRunEventsListed(svc: Services, ts: seq<string>, disk: Disk)
    ensures EventsOfListed(UploadRun(svc, ts, disk).trace)
    decreases |ts|
  {
    if ts != [] {
      var step := TableUpload(svc, ts[0], disk);
      TableStepEventsOfListed(svc, ts[0], disk);
      if step.Continue? {
        UploadRunEventsListed(svc, ts[1..], step.disk);
        EventsOfListedAppend(step.trace, UploadRun(svc, ts[1..], step.disk).trace);
      }
    }
  }

  /** The run leaves tables unlisted only after a failure or after an empty
      listing of the last table it listed. */
  lemma {:induction false} UploadRunStopsEarly(svc: Services, ts: seq<string>, disk: Disk)
    ensures var r := UploadRun(svc, ts, disk); var listed := ListedTables(r.trace);
      |listed| < |ts| ==> r.outcome.Failed? || (0 < |listed| && svc.contents(ts[|listed| - 1]) == Some([]))
    decreases |ts|
  {
    if ts != [] {
      var t := ts[0];
      var step := TableUpload(svc, t, disk);
      TableStepListed(svc, t, disk);
      TableStepEnd(svc, t, disk);
      if step.Continue? {
        var tail := ts[1..];
        UploadRunStopsEarly(svc, tail, step.disk);
        UploadRunListedCount(svc, tail, step.disk);
        var rest := UploadRun(svc, tail, step.disk);
        ListedTablesAppend(step.trace, rest.trace);
        var later := ListedTables(rest.trace);
        assert ListedTables(UploadRun(svc, ts, disk).trace) == [t] + later;
        if 0 < |later| < |tail| {
          ShiftIndex(ts, |later|);
        }
      }
    }
  }

  /** In `tr`, a table of `ts` whose listing was empty is the last one
      listed, the outcome is completion and the trace ends with that listing. */
  predicate EmptyListingLast(svc: Services, ts: seq<string>, tr: seq<Event>, outcome: Outcome)
  {
    forall j :: 0 <= j < |ListedTables(tr)| && j < |ts| && svc.contents(ts[j]) == Some([]) ==>
      j == |ListedTables(tr)| - 1 && outcome == Completed && 0 < |tr| && tr[|tr| - 1] == ObjectsListed(ts[j])
  }

  lemma EmptyListingLastAppend(svc: Services, ts: seq<string>, a: seq<Event>, b: seq<Event>, outcome: Outcome)
    requires ts != [] && ListedTables(a) == [ts[0]] && svc.contents(ts[0]) != Some([])
    requires EmptyListingLast(svc, ts[1..], b, outcome)
    ensures EmptyListingLast(svc, ts, a + b, outcome)
  {
    ListedTablesAppend(a, b);
    var later := ListedTables(b);
    assert ListedTables(a + b) == [ts[0]] + later;
    forall j | 0 <= j < 1 + |later| && j < |ts| && svc.contents(ts[j]) == Some([])
      ensures j == |later| && outcome == Completed && 0 < |a + b| && (a + b)[|a + b| - 1] == ObjectsListed(ts[j])
    {
      assert j != 0;
      ShiftIndex(ts, j);
      assert (a + b)[|a + b| - 1] == b[|b| - 1];
    }
  }

  /** An empty listing is the last thing the run does: no later table is
      attempted and the run completes. */
  lemma {:induction false} UploadRunEndsAtEmptyListing(svc: Services, ts: seq<string>, disk: Disk)
    ensures var r := UploadRun(svc, ts, disk); var listed := ListedTables(r.trace);
      forall j :: 0 <= j < |listed| && j < |ts| && svc.contents(ts[j]) == Some([]) ==>
        j == |listed| - 1 && r.outcome == Completed && 0 < |r.trace| && r.trace[|r.trace| - 1] == ObjectsListed(ts[j])
    decreases |ts|
  {
    var r := UploadRun(svc, ts, disk);
    if ts != [] {
      var t := ts[0];
      var step := TableUpload(svc, t, disk);
      TableStepEnd(svc, t, disk);
      if step.Continue? {
        TableStepListed(svc, t, disk);
        UploadRunUnfold(svc, ts, disk);
        UploadRunEndsAtEmptyListing(svc, ts[1..], step.disk);
        var rest := UploadRun(svc, ts[1..], step.disk);
        EmptyListingLastAppend(svc, ts, step.trace, rest.trace, rest.outcome);
      } else {
        UploadRunHalt(svc, ts, disk);
      }
    }
    assert EmptyListingLast(svc, ts, r.trace, r.outcome);
  }

  /** In `tr`, every table of `ts` before the last one listed had its
      folder removed. */
  predicate FoldersRemovedBeforeLast(ts: seq<string>, tr: seq<Event>)
  {
    forall j :: 0 <= j < |ListedTables(tr)| - 1 && j < |ts| ==> FolderRemoved(ts[j]) in tr
  }

  lemma FoldersRemovedAppend(ts: seq<string>, a: seq<Event>, b: seq<Event>)
    requires ts != [] && ListedTables(a) == [ts[0]]
    requires 0 < |a| && a[|a| - 1] == FolderRemoved(ts[0])
    requires FoldersRemovedBeforeLast(ts[1..], b)
    ensures FoldersRemovedBeforeLast(ts, a + b)
  {
    ListedTablesAppend(a, b);
    var later := ListedTables(b);
    assert |ListedTables(a + b)| - 1 == |later|;
    forall j | 0 <= j < |later| && j < |ts| ensures FolderRemoved(ts[j]) in a + b {
      if j == 0 {
        InAppendLeft(FolderRemoved(ts[0]), a, b);
      } else {
        ShiftIndex(ts, j);
        InAppendRight(FolderRemoved(ts[1..][j - 1]), a, b);
      }
    }
  }

  /** Every table the run moves past has its folder removed. */
  lemma {:induction false} UploadRunRemovesFolders(svc: Services, ts: seq<string>, disk: Disk)
    ensures var r := UploadRun(svc, ts, disk); var listed := ListedTables(r.trace);
      forall j :: 0 <= j < |listed| - 1 && j < |ts| ==> FolderRemoved(ts[j]) in r.trace
    decreases |ts|
  {
    var r := UploadRun(svc, ts, disk);
    if ts != [] {
      var t := ts[0];
      var step := TableUpload(svc, t, disk);
      TableStepEnd(svc, t, disk);
      if step.Continue? {
        TableStepListed(svc, t, disk);
        UploadRunUnfold(svc, ts, disk);
        UploadRunRemovesFolders(svc, ts[1..], step.disk);
        var rest := UploadRun(svc, ts[1..], step.disk);
        FoldersRemovedAppend(ts, step.trace, rest.trace);
      } else {
        UploadRunHalt(svc, ts, disk);
      }
    }
    assert FoldersRemovedBeforeLast(ts, r.trace);
  }

  /** A run that completes without ending on an empty listing has listed
      every table and removed the folder of the last one too. */
  lemma {:induction false} UploadRunCompletesAll(svc: Services, ts: seq<string>, disk: Disk)
    ensures var r := UploadRun(svc, ts, disk); var listed := ListedTables(r.trace);
      r.outcome == Completed && 0 < |listed| <= |ts| && svc.contents(ts[|listed| - 1]) != Some([]) ==>
        |listed| == |ts| && FolderRemoved(ts[|ts| - 1]) in r.trace
    decreases |ts|
  {
    if ts != [] {
      var t := ts[0];
      var step := TableUpload(svc, t, disk);
      TableStepListed(svc, t, disk);
      TableStepEnd(svc, t, disk);
      if step.Continue? {
        var tail := ts[1..];
        var rest := UploadRun(svc, tail, step.disk);
        ListedTablesAppend(step.trace, rest.trace);
        var r := UploadRun(svc, ts, disk);
        assert r.trace == step.trace + rest.trace && r.outcome == rest.outcome;
        var later := ListedTables(rest.trace);
        assert ListedTables(r.trace) == [t] + later;
        if tail == [] {
          assert r.trace[|step.trace| - 1] == FolderRemoved(t);
        } else {
          UploadRunCompletesAll(svc, tail, step.disk);
          UploadRunListedCount(svc, tail, step.disk);
          ShiftIndex(ts, |later|);
          ShiftIndex(ts, |ts| - 1);
          if r.outcome == Completed && |later| < |ts| && svc.contents(tail[|later| - 1]) != Some([]) {
            InAppendRight(FolderRemoved(tail[|tail| - 1]), step.trace, rest.trace);
          }
        }
      }
    }
  }

  /** A table the run moves past fails when it comes up again right after:
      its objects are downloaded again, but the folder removal took its
      schema.json with it, so the first upload finds no schema file and
      nothing is loaded. */
  lemma TableRepeatedFails(svc: Services, t: string, disk: Disk)
    requires TableUpload(svc, t, disk).Continue?
    ensures var again := TableUpload(svc, t, TableUpload(svc, t, disk).disk);
      && again.Halt? && again.outcome == Failed(SchemaFileMissing(t))
      && svc.contents(t).Some? && again.trace == [ObjectsListed(t)] + FetchedEvents(t, svc.contents(t).value)
  {
    TableUploadContinueDropsSchema(svc, t, disk);
    TableUploadWithoutSchema(svc, t, TableUpload(svc, t, disk).disk);
  }

  /** The run's first table step, and the listing it adds in front of the rest. */
  lemma UploadRunUnfold(svc: Services, ts: seq<string>, disk: Disk)
    requires ts != [] && TableUpload(svc, ts[0], disk).Continue?
    ensures var step := TableUpload(svc, ts[0], disk);
      var rest := UploadRun(svc, ts[1..], step.disk);
      && UploadRun(svc, ts, disk) == Run(rest.disk, step.trace + rest.trace, rest.outcome)
      && ListedTables(UploadRun(svc, ts, disk).trace) == [ts[0]] + ListedTables(rest.trace)
  {
    var step := TableUpload(svc, ts[0], disk);
    TableStepListed(svc, ts[0], disk);
    ListedTablesAppend(step.trace, UploadRun(svc, ts[1..], step.disk).trace);
  }

  /** A first table step that halts is the whole run. */
  lemma UploadRunHalt(svc: Services, ts: seq<string>, disk: Disk)
    requires ts != [] && TableUpload(svc, ts[0], disk).Halt?
    ensures var step := TableUpload(svc, ts[0], disk);
      && UploadRun(svc, ts, disk) == Run(step.disk, step.trace, step.outcome)
      && ListedTables(UploadRun(svc, ts, disk).trace) == [ts[0]]
  {
    TableStepListed(svc, ts[0], disk);
  }

  /** `s` is the last part of `tr`. */
  predicate EndsWith(tr: seq<Event>, s: seq<Event>)
  {
    |s| <= |tr| && tr[|tr| - |s|..] == s
  }

  lemma EndsWithAppend(a: seq<Event>, b: seq<Event>, s: seq<Event>)
    requires EndsWith(b, s)
    ensures EndsWith(a + b, s)
  {
    assert (a + b)[|a + b| - |s|..] == b[|b| - |s|..];
  }

  /** The run `r` ends with the step of table `t` on the local files `d`:
      that step halts the run with `r`'s outcome and local files, and its
      events are the last of `r`'s. */
  predicate EndsInStep(svc: Services, t: string, d: Disk, r: Run)
  {
    var s := TableUpload(svc, t, d);
    s.Halt? && s.outcome == r.outcome && s.disk == r.disk && EndsWith(r.trace, s.trace)
  }

  /** The run `r` ends with a step of table `t`, on whatever local files the
      run had reached. */
  ghost predicate EndsInTable(svc: Services, t: string, r: Run)
  {
    exists d :: EndsInStep(svc, t, d, r)
  }

  /** A failed run fails in the last table it listed, and that table's step is
      the last thing it does: the run's trace ends with that step's trace and
      its outcome and local files are that step's (so nothing of the failed
      table is removed). */
  lemma {:induction false} UploadRunFailsInLastListed(svc: Services, ts: seq<string>, disk: Disk)
    ensures var r := UploadRun(svc, ts, disk); var listed := ListedTables(r.trace);
      r.outcome.Failed? ==>
        && 0 < |listed| <= |ts|
        && EndsInTable(svc, ts[|listed| - 1], r)
    decreases |ts|
  {
    var r := UploadRun(svc, ts, disk);
    if ts != [] {
      var step := TableUpload(svc, ts[0], disk);
      if step.Halt? {
        UploadRunHalt(svc, ts, disk);
        assert r.trace[|r.trace| - |step.trace|..] == step.trace;
        assert EndsInStep(svc, ts[0], disk, r);
        assert EndsInTable(svc, ts[0], r);
      } else {
        var tail := ts[1..];
        var rest := UploadRun(svc, tail, step.disk);
        UploadRunUnfold(svc, ts, disk);
        UploadRunFailsInLastListed(svc, tail, step.disk);
        UploadRunListedCount(svc, tail, step.disk);
        var later := ListedTables(rest.trace);
        if r.outcome.Failed? {
          assert EndsInTable(svc, tail[|later| - 1], rest);
          var d :| EndsInStep(svc, tail[|later| - 1], d, rest);
          EndsWithAppend(step.trace, rest.trace, TableUpload(svc, tail[|later| - 1], d).trace);
          ShiftIndex(ts, |later|);
          assert EndsInStep(svc, ts[|later|], d, r);
          assert EndsInTable(svc, ts[|later|], r);
        }
      }
    }
  }

  /** Once a table with non-empty, stageable keys has no schema.json, the run
      does not get past it: if it reaches that table, it fails there for the
      missing schema file, after downloading the table's objects again. */
  lemma {:induction false} UploadRunWithoutSchema(svc: Services, ts: seq<string>, disk: Disk, j: nat)
    requires j < |ts|
    requires svc.contents(ts[j]).Some? && svc.contents(ts[j]).value != [] && AllStageable(svc, svc.contents(ts[j]).value)
    requires SchemaPath(ts[j]) !in disk.schemas
    ensures var r := UploadRun(svc, ts, disk); var listed := ListedTables(r.trace);
      && |listed| <= j + 1
      && (|listed| == j + 1 ==>
            && r.outcome == Failed(SchemaFileMissing(ts[j]))
            && EndsWith(r.trace, [ObjectsListed(ts[j])] + FetchedEvents(ts[j], svc.contents(ts[j]).value)))
    decreases j
  {
    var r := UploadRun(svc, ts, disk);
    var step := TableUpload(svc, ts[0], disk);
    if j == 0 {
      TableUploadWithoutSchema(svc, ts[0], disk);
      UploadRunHalt(svc, ts, disk);
      assert r.trace[|r.trace| - |step.trace|..] == step.trace;
    } else if step.Halt? {
      UploadRunHalt(svc, ts, disk);
    } else {
      var tail := ts[1..];
      UploadRunUnfold(svc, ts, disk);
      TableStepAddsNoSchema(svc, ts[0], disk);
      assert tail[j - 1] == ts[j];
      UploadRunWithoutSchema(svc, tail, step.disk, j - 1);
      var rest := UploadRun(svc, tail, step.disk);
      if |ListedTables(rest.trace)| == j {
        EndsWithAppend(step.trace, rest.trace, [ObjectsListed(ts[j])] + FetchedEvents(ts[j], svc.contents(ts[j]).value));
      }
    }
  }

  lemma UploadRunPastFirst(svc: Services, ts: seq<string>, disk: Disk, j: nat)
    requires 0 < j < |ts| && ts[0] == ts[j] && TableUpload(svc, ts[0], disk).Continue?
    ensures var r := UploadRun(svc, ts, disk); var listed := ListedTables(r.trace);
      && |listed| <= j + 1
      && (|listed| == j + 1 ==> r.outcome == Failed(SchemaFileMissing(ts[j])))
  {
    var step := TableUpload(svc, ts[0], disk);
    UploadRunUnfold(svc, ts, disk);
    TableUploadContinueDropsSchema(svc, ts[0], disk);
    assert ts[1..][j - 1] == ts[j];
    UploadRunWithoutSchema(svc, ts[1..], step.disk, j - 1);
  }

  /** A table configured twice fails the second time it comes up, however
      many tables lie between: if the run gets past its first occurrence, it
      does not get past the second, and if it reaches the second it fails
      there for the missing schema file. */
  lemma {:induction false} UploadRunRepeatedTableFails(svc: Services, ts: seq<string>, disk: Disk, i: nat, j: nat)
    requires i < j < |ts| && ts[i] == ts[j]
    ensures var r := UploadRun(svc, ts, disk); var listed := ListedTables(r.trace);
      i + 1 < |listed| ==>
        && |listed| <= j + 1
        && (|listed| == j + 1 ==> r.outcome == Failed(SchemaFileMissing(ts[j])))
    decreases i
  {
    var step := TableUpload(svc, ts[0], disk);
    if step.Halt? {
      UploadRunHalt(svc, ts, disk);
    } else {
      var tail := ts[1..];
      UploadRunUnfold(svc, ts, disk);
      assert tail[j - 1] == ts[j];
      if i == 0 {
        UploadRunPastFirst(svc, ts, disk, j);
      } else {
        assert tail[i - 1] == ts[i];
        UploadRunRepeatedTableFails(svc, tail, step.disk, i - 1, j - 1);
      }
    }
  }

  // ---------------------------------------------------------------------
  // migrate

  /** The phase of each event of a migration run: the unload request, then
      the describe calls, then the downloads and loads. */
  function PhaseAt(i: nat, described: nat): nat
  {
    if i == 0 then 1 else if i <= described then 2 else 3
  }

  lemma MigrationPhases(svc: Services, ts: seq<string>, disk: Disk)
    ensures var r := MigrationRun(svc, ts, disk); var f := SchemaFetch(svc, ts, disk);
      && 0 < |r.trace| && r.trace[0] == UnloadSubmitted(ts)
      && (!svc.unloadOk ==> r == Run(disk, [UnloadSubmitted(ts)], Failed(UnloadFailed)))
      && (svc.unloadOk ==> |f.trace| < |r.trace| && r.trace[1..|f.trace| + 1] == f.trace)
      && forall i :: 0 <= i < |r.trace| ==> Phase(r.trace[i]) == PhaseAt(i, if svc.unloadOk then |f.trace| else 0)
  {
    if svc.unloadOk {
      SchemaFetchStopsAtFirstFailure(svc, ts, disk);
      var f := SchemaFetch(svc, ts, disk);
      var start := [UnloadSubmitted(ts)];
      var r := MigrationRun(svc, ts, disk);
      var u := if f.failure.Some? then [] else UploadRun(svc, ts, f.disk).trace;
      if f.failure.None? {
        UploadRunEventsListed(svc, ts, f.disk);
      }
      assert r.trace == start + f.trace + u;
      forall i | 0 <= i < |r.trace| ensures Phase(r.trace[i]) == PhaseAt(i, |f.trace|) {
        if 1 <= i <= |f.trace| {
          assert r.trace[i] == f.trace[i - 1];
          assert f.trace[i - 1] == SchemaDescribed(ts[i - 1]);
        } else if i > |f.trace| {
          assert r.trace[i] == u[i - 1 - |f.trace|];
        }
      }
    }
  }

  /** migrate runs its phases in order: the unload request first and only
      first, then the describe calls, then the downloads and loads. A failed
      unload stops the run with nothing else done. */
  lemma MigrationPhasesInOrder(svc: Services, ts: seq<string>, disk: Disk)
    ensures var r := MigrationRun(svc, ts, disk);
      && 0 < |r.trace| && r.trace[0] == UnloadSubmitted(ts)
      && (forall i :: 1 <= i < |r.trace| ==> Phase(r.trace[i]) != 1)
      && (forall i, j :: 0 <= i < j < |r.trace| ==> Phase(r.trace[i]) <= Phase(r.trace[j]))
      && (!svc.unloadOk ==> r == Run(disk, [UnloadSubmitted(ts)], Failed(UnloadFailed)))
  {
    MigrationPhases(svc, ts, disk);
  }

  /** Nothing of the upload phase happens unless the unload was done and
      every table was described successfully, in configured order. */
  lemma MigrationUploadNeedsSchemas(svc: Services, ts: seq<string>, disk: Disk)
    ensures var r := MigrationRun(svc, ts, disk);
      (exists i :: 0 <= i < |r.trace| && Phase(r.trace[i]) == 3) ==>
        && svc.unloadOk
        && (forall k :: 0 <= k < |ts| ==> svc.describe(ts[k]).Some?)
        && |ts| < |r.trace| && r.trace[..|ts| + 1] == [UnloadSubmitted(ts)] + Described(ts)
  {
    MigrationPhases(svc, ts, disk);
    SchemaFetchStopsAtFirstFailure(svc, ts, disk);
    var r := MigrationRun(svc, ts, disk);
    var f := SchemaFetch(svc, ts, disk);
    if svc.unloadOk && f.failure.Some? {
      assert r.trace == [UnloadSubmitted(ts)] + f.trace;
      forall i | 0 <= i < |r.trace| ensures Phase(r.trace[i]) != 3 { }
    }
    if svc.unloadOk && f.failure.None? {
      assert r.trace[..|ts| + 1] == [r.trace[0]] + r.trace[1..|f.trace| + 1];
      assert ts[..|f.trace|] == ts;
    }
  }

  /** A describe call that raises ends migrate: the tables before it were
      described, no later table is, and nothing is downloaded or loaded. */
  lemma DescribeFailureBlocksUpload(svc: Services, ts: seq<string>, disk: Disk, k: nat)
    requires svc.unloadOk && k < |ts| && svc.describe(ts[k]).None?
    requires forall j :: 0 <= j < k ==> svc.describe(ts[j]).Some?
    ensures var r := MigrationRun(svc, ts, disk);
      && r.outcome == Failed(DescribeFailed(ts[k]))
      && r.trace == [UnloadSubmitted(ts)] + Described(ts[..k + 1])
      && r.disk.objects == disk.objects
  {
    SchemaFetchStopsAtFirstFailure(svc, ts, disk);
    var f := SchemaFetch(svc, ts, disk);
    assert f.failure.Some?;
    assert |f.trace| - 1 == k;
  }

  /** With the unload done and every table described, migrate's upload phase
      starts from the schemas just written, each table's schema.json holding
      its ColumnList, and the run ends as that phase does. */
  lemma MigrationUploadsWithFetchedSchemas(svc: Services, ts: seq<string>, disk: Disk)
    requires svc.unloadOk
    requires forall k :: 0 <= k < |ts| ==> svc.describe(ts[k]).Some?
    ensures var f := SchemaFetch(svc, ts, disk);
      var u := UploadRun(svc, ts, f.disk);
      && f.disk.objects == disk.objects
      && (forall k :: 0 <= k < |ts| ==>
            SchemaPath(ts[k]) in f.disk.schemas && f.disk.schemas[SchemaPath(ts[k])] == svc.describe(ts[k]).value)
      && MigrationRun(svc, ts, disk) == Run(u.disk, [UnloadSubmitted(ts)] + Described(ts) + u.trace, u.outcome)
  {
    SchemaFetchStopsAtFirstFailure(svc, ts, disk);
    SchemaFetchStoresSchemas(svc, ts, disk);
    var f := SchemaFetch(svc, ts, disk);
    assert ts[..|f.trace|] == ts;
  }
}
