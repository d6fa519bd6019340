/** The three phases of a migration run (unload_tables, get_table_schemas,
    upload_tables of migrator.py) over abstract collaborator outcomes. The
    local file system is a value (schema files and downloaded objects keyed
    by path); every call to a collaborator and every folder removal is
    recorded, in order, in a trace of events. */
module Migration {
  import opened Wrappers
  import opened SchemaTranslation
  import opened Staging

  /** What the destination warehouse does with one load job: it completes,
      it completes with an `error_result` (which the code only notices by not
      printing "Done"), or the call raises. */
  datatype LoadResult = LoadDone | LoadErrorResult | LoadRaised

  /** The collaborators, as the outcomes of their calls.
      `describe`: the ColumnList of describe_table, None when the call raises.
      `contents`: the keys list_objects_v2 returns under the table's prefix,
      None when the response has no "Contents".
      `body`: the body of get_object, None when the call raises.
      `load`: the outcome of loading a staged file into a table. */
  datatype Services = Services(
    unloadOk: bool,
    describe: string -> Option<seq<Column>>,
    contents: string -> Option<seq<string>>,
    body: string -> Option<seq<byte>>,
    load: (string, string) -> LoadResult)

  /** The local files the run reads and writes, keyed by path. */
  datatype Disk = Disk(schemas: map<string, seq<Column>>, objects: map<string, seq<byte>>)

  datatype Event =
    | UnloadSubmitted(tables: seq<string>)
    | SchemaDescribed(table: string)
    | ObjectsListed(table: string)
    | ObjectFetched(table: string, key: string)
    | LoadSubmitted(table: string, path: string, fields: seq<Field>, rows: seq<byte>)
    | FolderRemoved(table: string)

  /** The exception that ends a run. */
  datatype RunError =
    | UnloadFailed
    | DescribeFailed(table: string)
    | NoContents(table: string)
    | FetchFailed(table: string, key: string)
    | IsADirectory(table: string, path: string)
    | SchemaFileMissing(table: string)
    | SchemaUntranslatable(table: string, error: SchemaError)
    | ObjectFileMissing(table: string, path: string)
    | LoadFailed(table: string, path: string)

  datatype Outcome = Completed | Failed(failure: RunError)

  datatype Run = Run(disk: Disk, trace: seq<Event>, outcome: Outcome)

  /** 1: unload, 2: schema fetch, 3: download and upload. */
  function Phase(e: Event): nat
  {
    match e
    case UnloadSubmitted(_) => 1
    case SchemaDescribed(_) => 2
    case _ => 3
  }

  // ---------------------------------------------------------------------
  // Phase 2: get_table_schemas

  datatype Fetch = Fetch(disk: Disk, trace: seq<Event>, failure: Option<RunError>)

  /** Describe each table in order and write its ColumnList to its
      schema.json; the first call that raises ends the phase. */
  function SchemaFetch(svc: Services, ts: seq<string>, disk: Disk): Fetch
    decreases |ts|
  {
    if ts == [] then Fetch(disk, [], None)
    else
      var ev := SchemaDescribed(ts[0]);
      match svc.describe(ts[0])
      case None => Fetch(disk, [ev], Some(DescribeFailed(ts[0])))
      case Some(cols) =>
        var rest := SchemaFetch(svc, ts[1..], disk.(schemas := disk.schemas[SchemaPath(ts[0]) := cols]));
        Fetch(rest.disk, [ev] + rest.trace, rest.failure)
  }

  // ---------------------------------------------------------------------
  // Phase 3, one table: get_table_folder_objects

  /** The paths get_table_folder_objects returns, or the exception it raises,
      with the objects directory and the calls made either way. */
  datatype Listing =
    | Fetched(paths: seq<string>, objects: map<string, seq<byte>>, trace: seq<Event>)
    | FetchError(failure: RunError, objects: map<string, seq<byte>>, trace: seq<Event>)

  function Prepend(paths: seq<string>, trace: seq<Event>, l: Listing): Listing
  {
    match l
    case Fetched(p, o, tr) => Fetched(paths + p, o, trace + tr)
    case FetchError(f, o, tr) => FetchError(f, o, trace + tr)
  }

  /** Download each listed key, in order, to its object path. */
  function FetchObjects(svc: Services, t: string, keys: seq<string>, objects: map<string, seq<byte>>): Listing
    decreases |keys|
  {
    if keys == [] then Fetched([], objects, [])
    else
      var key := keys[0];
      var path := ObjectPath(t, key);
      var ev := ObjectFetched(t, key);
      match svc.body(key)
      case None => FetchError(FetchFailed(t, key), objects, [ev])
      case Some(b) =>
        if NamesDirectory(LastSegment(key)) then FetchError(IsADirectory(t, path), objects, [ev])
        else Prepend([path], [ev], FetchObjects(svc, t, keys[1..], objects[path := b]))
  }

  /** List the table's folder; with no "Contents" the length of None raises. */
  function FolderObjects(svc: Services, t: string, objects: map<string, seq<byte>>): Listing
  {
    match svc.contents(t)
    case None => FetchError(NoContents(t), objects, [ObjectsListed(t)])
    case Some(keys) => Prepend([], [ObjectsListed(t)], FetchObjects(svc, t, keys, objects))
  }

  // ---------------------------------------------------------------------
  // Phase 3, one object: upload_object

  datatype Upload = Upload(trace: seq<Event>, failure: Option<RunError>)

  /** Read the table's schema.json and translate it, read the staged file,
      and submit the load job. A load that reports an error result does not
      stop the run; one that raises does. */
  function ObjectUpload(svc: Services, t: string, path: string, disk: Disk): Upload
  {
    if SchemaPath(t) !in disk.schemas then Upload([], Some(SchemaFileMissing(t)))
    else
      match TableSchema(disk.schemas[SchemaPath(t)], AsWrittenBranch)
      case Failure(e) => Upload([], Some(SchemaUntranslatable(t, e)))
      case Success(s) =>
        if path !in disk.objects then Upload([], Some(ObjectFileMissing(t, path)))
        else
          var ev := LoadSubmitted(t, path, s.columns, disk.objects[path]);
          if svc.load(t, path) == LoadRaised then Upload([ev], Some(LoadFailed(t, path)))
          else Upload([ev], None)
  }

  /** Upload each path in order; the first failure ends the table. */
  function UploadObjects(svc: Services, t: string, paths: seq<string>, disk: Disk): Upload
    decreases |paths|
  {
    if paths == [] then Upload([], None)
    else
      var u := ObjectUpload(svc, t, paths[0], disk);
      if u.failure.Some? then u
      else
        var rest := UploadObjects(svc, t, paths[1..], disk);
        Upload(u.trace + rest.trace, rest.failure)
  }

  // ---------------------------------------------------------------------
  // Phase 3: upload_tables

  /** `shutil.rmtree("tables/<t>")`: every file under the table's folder goes. */
  function RemoveFolder(disk: Disk, t: string): (r: Disk)
    ensures forall p :: p in r.schemas <==> p in disk.schemas && !InFolder(p, TableFolder(t))
    ensures forall p :: p in r.objects <==> p in disk.objects && !InFolder(p, TableFolder(t))
    ensures forall p :: p in r.schemas ==> r.schemas[p] == disk.schemas[p]
    ensures forall p :: p in r.objects ==> r.objects[p] == disk.objects[p]
  {
    var dir := TableFolder(t);
    Disk(map p | p in disk.schemas && !InFolder(p, dir) :: disk.schemas[p],
         map p | p in disk.objects && !InFolder(p, dir) :: disk.objects[p])
  }

  /** After one table, the run either goes on to the next table or ends. */
  datatype TableStep =
    | Continue(disk: Disk, trace: seq<Event>)
    | Halt(disk: Disk, trace: seq<Event>, outcome: Outcome)

  /** One iteration of upload_tables' loop. An empty object list returns
      from upload_tables at once: no upload, no cleanup, and the run still
      completes normally. */
  function TableUpload(svc: Services, t: string, disk: Disk): TableStep
  {
    match FolderObjects(svc, t, disk.objects)
    case FetchError(f, objs, tr) => Halt(disk.(objects := objs), tr, Failed(f))
    case Fetched(paths, objs, tr) =>
      var d := disk.(objects := objs);
      if paths == [] then Halt(d, tr, Completed)
      else
        var u := UploadObjects(svc, t, paths, d);
        if u.failure.Some? then Halt(d, tr + u.trace, Failed(u.failure.value))
        else Continue(RemoveFolder(d, t), tr + u.trace + [FolderRemoved(t)])
  }

  /** upload_tables: the tables in configured order until one halts the run. */
  function UploadRun(svc: Services, ts: seq<string>, disk: Disk): Run
    decreases |ts|
  {
    if ts == [] then Run(disk, [], Completed)
    else
      match TableUpload(svc, ts[0], disk)
      case Halt(d, tr, o) => Run(d, tr, o)
      case Continue(d, tr) =>
        var rest := UploadRun(svc, ts[1..], d);
        Run(rest.disk, tr + rest.trace, rest.outcome)
  }

  /** migrate: unload, then fetch the schemas, then upload. */
  function MigrationRun(svc: Services, ts: seq<string>, disk: Disk): Run
  {
    var start := [UnloadSubmitted(ts)];
    if !svc.unloadOk then Run(disk, start, Failed(UnloadFailed))
    else
      var f := SchemaFetch(svc, ts, disk);
      if f.failure.Some? then Run(f.disk, start + f.trace, Failed(f.failure.value))
      else
        var u := UploadRun(svc, ts, f.disk);
        Run(u.disk, start + f.trace + u.trace, u.outcome)
  }

  // ---------------------------------------------------------------------
  // The program's own step-by-step code, proved against the functions above

  /** get_table_schemas' loop over the configured tables. */
  method GetTableSchemas(svc: Services, ts: seq<string>, disk: Disk) returns (f: Fetch)
    ensures f == SchemaFetch(svc, ts, disk)
  {
    var d := disk;
    var trace: seq<Event> := [];
    var i := 0;
    while i < |ts|
      invariant 0 <= i <= |ts|
      invariant var rest := SchemaFetch(svc, ts[i..], d);
        Fetch(rest.disk, trace + rest.trace, rest.failure) == SchemaFetch(svc, ts, disk)
    {
      assert ts[i..][1..] == ts[i + 1..];
      trace := trace + [SchemaDescribed(ts[i])];
      var described := svc.describe(ts[i]);
      if described.None? {
        return Fetch(d, trace, Some(DescribeFailed(ts[i])));
      }
      d := d.(schemas := d.schemas[SchemaPath(ts[i]) := described.value]);
      i := i + 1;
    }
    assert ts[i..] == [];
    f := Fetch(d, trace, None);
  }

  lemma PrependTwice(p1: seq<string>, t1: seq<Event>, p2: seq<string>, t2: seq<Event>, l: Listing)
    ensures Prepend(p1, t1, Prepend(p2, t2, l)) == Prepend(p1 + p2, t1 + t2, l)
  {
  }

  /** get_table_folder_objects: list the folder, then for each key record its
      local path and copy its body there chunk by chunk. */
  method GetTableFolderObjects(svc: Services, t: string, objects: map<string, seq<byte>>) returns (l: Listing)
    ensures l == FolderObjects(svc, t, objects)
  {
    var trace := [ObjectsListed(t)];
    var listed := svc.contents(t);
    if listed.None? {
      return FetchError(NoContents(t), objects, trace);
    }
    var keys := listed.value;
    var paths: seq<string> := [];
    var objs := objects;
    var i := 0;
    while i < |keys|
      invariant 0 <= i <= |keys|
      invariant Prepend(paths, trace, FetchObjects(svc, t, keys[i..], objs)) == FolderObjects(svc, t, objects)
    {
      assert keys[i..][1..] == keys[i + 1..];
      var key := keys[i];
      var name := LastSegment(key);
      var path := "tables/" + t + "/objects/" + name;
      PrependTwice(paths, trace, [path], [ObjectFetched(t, key)],
        FetchObjects(svc, t, keys[i + 1..], objs[path := if svc.body(key).Some? then svc.body(key).value else []]));
      paths := paths + [path];
      trace := trace + [ObjectFetched(t, key)];
      var body := svc.body(key);
      if body.None? {
        return FetchError(FetchFailed(t, key), objs, trace);
      }
      if NamesDirectory(name) {
        return FetchError(IsADirectory(t, path), objs, trace);
      }
      var file, _ := CopyStream(body.value);
      objs := objs[path := file];
      i := i + 1;
    }
    assert keys[i..] == [];
    l := Fetched(paths, objs, trace);
  }

  /** upload_object: the schema is read and translated afresh for every object. */
  method UploadObject(svc: Services, t: string, path: string, disk: Disk) returns (u: Upload)
    ensures u == ObjectUpload(svc, t, path, disk)
  {
    if SchemaPath(t) !in disk.schemas {
      return Upload([], Some(SchemaFileMissing(t)));
    }
    var schema := GetTableSchema(disk.schemas[SchemaPath(t)], AsWrittenBranch);
    if schema.Failure? {
      return Upload([], Some(SchemaUntranslatable(t, schema.error)));
    }
    if path !in disk.objects {
      return Upload([], Some(ObjectFileMissing(t, path)));
    }
    var ev := LoadSubmitted(t, path, schema.value.columns, disk.objects[path]);
    if svc.load(t, path) == LoadRaised {
      return Upload([ev], Some(LoadFailed(t, path)));
    }
    u := Upload([ev], None);
  }

  lemma UploadObjectsUnfold(svc: Services, t: string, paths: seq<string>, disk: Disk)
    requires paths != []
    ensures var u := ObjectUpload(svc, t, paths[0], disk);
      UploadObjects(svc, t, paths, disk) ==
        if u.failure.Some? then u
        else Upload(u.trace + UploadObjects(svc, t, paths[1..], disk).trace,
                    UploadObjects(svc, t, paths[1..], disk).failure)
  {
  }

  /** The body of upload_tables' loop for one table: download its objects,
      stop the run on an empty list, otherwise upload every object in order
      and remove the table's folder. */
  method UploadTable(svc: Services, t: string, disk: Disk) returns (step: TableStep)
    ensures step == TableUpload(svc, t, disk)
  {
    var listing := GetTableFolderObjects(svc, t, disk.objects);
    ghost var spec := TableUpload(svc, t, disk);
    if listing.FetchError? {
      return Halt(disk.(objects := listing.objects), listing.trace, Failed(listing.failure));
    }
    var d := disk.(objects := listing.objects);
    var paths := listing.paths;
    if paths == [] {
      return Halt(d, listing.trace, Completed);
    }
    ghost var all := UploadObjects(svc, t, paths, d);
    assert spec == if all.failure.Some? then Halt(d, listing.trace + all.trace, Failed(all.failure.value))
      else Continue(RemoveFolder(d, t), listing.trace + all.trace + [FolderRemoved(t)]);
    var trace: seq<Event> := [];
    var j := 0;
    while j < |paths|
      invariant 0 <= j <= |paths|
      invariant var rest := UploadObjects(svc, t, paths[j..], d);
        trace + rest.trace == all.trace && rest.failure == all.failure
    {
      var u := UploadObject(svc, t, paths[j], d);
      UploadObjectsUnfold(svc, t, paths[j..], d);
      assert paths[j..][0] == paths[j] && paths[j..][1..] == paths[j + 1..];
      trace := trace + u.trace;
      if u.failure.Some? {
        return Halt(d, listing.trace + trace, Failed(u.failure.value));
      }
      j := j + 1;
    }
    assert paths[j..] == [];
    step := Continue(RemoveFolder(d, t), listing.trace + trace + [FolderRemoved(t)]);
  }

  /** upload_tables: the configured tables in order until one halts the run. */
  method UploadTables(svc: Services, ts: seq<string>, disk: Disk) returns (r: Run)
    ensures r == UploadRun(svc, ts, disk)
  {
    var d := disk;
    var trace: seq<Event> := [];
    var i := 0;
    while i < |ts|
      invariant 0 <= i <= |ts|
      invariant var rest := UploadRun(svc, ts[i..], d);
        Run(rest.disk, trace + rest.trace, rest.outcome) == UploadRun(svc, ts, disk)
    {
      assert ts[i..][1..] == ts[i + 1..];
      var step := UploadTable(svc, ts[i], d);
      if step.Halt? {
        return Run(step.disk, trace + step.trace, step.outcome);
      }
      d := step.disk;
      trace := trace + step.trace;
      i := i + 1;
    }
    assert ts[i..] == [];
    r := Run(d, trace, Completed);
  }

  /** migrate: batch-submit the unload statements, fetch every schema, upload. */
  method Migrate(svc: Services, ts: seq<string>, disk: Disk) returns (r: Run)
    ensures r == MigrationRun(svc, ts, disk)
  {
    var trace := [UnloadSubmitted(ts)];
    if !svc.unloadOk {
      return Run(disk, trace, Failed(UnloadFailed));
    }
    var f := GetTableSchemas(svc, ts, disk);
    trace := trace + f.trace;
    if f.failure.Some? {
      return Run(f.disk, trace, Failed(f.failure.value));
    }
    var u := UploadTables(svc, ts, f.disk);
    r := Run(u.disk, trace + u.trace, u.outcome);
  }
}
