/** Local staging of exported objects: the local path each object key is
    downloaded to, and the read-1024-bytes-until-empty copy of an object's
    body into its local file (get_table_folder_objects in migrator.py). */
module Staging {

  newtype byte = x: int | 0 <= x < 256

  /** Bytes asked for by each read of the object's body stream. */
  const ChunkSize: nat := 1024

  /** `key.split("/")[-1]`: what follows the last '/', or the whole key when
      it has none. */
  function LastSegment(key: string): string
    decreases |key|
  {
    if |key| == 0 || key[|key| - 1] == '/' then ""
    else LastSegment(key[..|key| - 1]) + [key[|key| - 1]]
  }

  /** The last segment holds no '/', ends the key, and is preceded by a '/'
      unless it is the whole key. */
  lemma {:induction false} LastSegmentSuffix(key: string)
    ensures var name := LastSegment(key);
      && '/' !in name
      && |name| <= |key| && key[|key| - |name|..] == name
      && (|name| < |key| ==> key[|key| - |name| - 1] == '/')
    decreases |key|
  {
    if |key| > 0 && key[|key| - 1] != '/' {
      var init := key[..|key| - 1];
      LastSegmentSuffix(init);
      var name := LastSegment(key);
      assert name == LastSegment(init) + [key[|key| - 1]];
      assert key[|key| - |name|..] == init[|init| - |LastSegment(init)|..] + [key[|key| - 1]];
    }
  }

  /** A key made of a directory part and a '/'-free name ends in that name. */
  lemma {:induction false} LastSegmentOfJoin(dir: string, name: string)
    requires '/' !in name
    ensures LastSegment(dir + "/" + name) == name
    decreases |name|
  {
    var key := dir + "/" + name;
    if name == [] {
      assert key[|key| - 1] == '/';
    } else {
      var init := name[..|name| - 1];
      assert key[..|key| - 1] == dir + "/" + init;
      assert key[|key| - 1] == name[|name| - 1];
      LastSegmentOfJoin(dir, init);
      assert init + [name[|name| - 1]] == name;
    }
  }

  /** `tables/<table>` */
  function TableFolder(table: string): string
  {
    "tables/" + table
  }

  /** `tables/<table>/objects/<last segment of key>` */
  function ObjectPath(table: string, key: string): string
  {
    TableFolder(table) + "/objects/" + LastSegment(key)
  }

  /** Whether the object path `tables/<table>/objects/<name>` names a
      directory rather than a file: the name is empty (a key ending in '/'),
      or is `.` or `..`. Opening such a path for writing fails. */
  predicate NamesDirectory(name: string)
  {
    name == "" || name == "." || name == ".."
  }

  /** `tables/<table>/schema.json` */
  function SchemaPath(table: string): string
  {
    "tables/" + table + "/schema.json"
  }

  /** Whether `path` lies inside the folder `dir`. */
  predicate InFolder(path: string, dir: string)
  {
    |dir| < |path| && path[..|dir| + 1] == dir + "/"
  }

  lemma ObjectPathInFolder(table: string, key: string)
    ensures InFolder(ObjectPath(table, key), TableFolder(table))
  {
    var dir := TableFolder(table);
    assert ObjectPath(table, key)[..|dir| + 1] == dir + "/";
  }

  lemma SchemaPathInFolder(table: string)
    ensures InFolder(SchemaPath(table), TableFolder(table))
  {
    var dir := TableFolder(table);
    assert SchemaPath(table)[..|dir| + 1] == dir + "/";
  }

  /** Different tables keep their schema.json at different paths. */
  lemma SchemaPathInjective(t: string, u: string)
    requires SchemaPath(t) == SchemaPath(u)
    ensures t == u
  {
    var p := SchemaPath(t);
    assert |t| == |u|;
    assert t == p[7..7 + |t|];
    assert u == p[7..7 + |u|];
  }

  /** One `stream.read(n)` on a body of which `pos` bytes are consumed: the
      next `n` bytes, fewer only at the end, none once the body is exhausted. */
  function ReadChunk(body: seq<byte>, pos: nat, n: nat): (chunk: seq<byte>)
    requires pos <= |body|
    ensures |chunk| == if |body| - pos < n then |body| - pos else n
    ensures chunk == body[pos..pos + |chunk|]
  {
    if |body| - pos < n then body[pos..] else body[pos..pos + n]
  }

  /** The bytes of a sequence of writes, in order. */
  function Flatten(writes: seq<seq<byte>>): seq<byte>
  {
    if writes == [] then [] else Flatten(writes[..|writes| - 1]) + writes[|writes| - 1]
  }

  lemma FlattenSnoc(writes: seq<seq<byte>>, chunk: seq<byte>)
    ensures Flatten(writes + [chunk]) == Flatten(writes) + chunk
  {
    assert (writes + [chunk])[..|writes|] == writes;
  }

  lemma PrefixExtend(body: seq<byte>, pos: nat, k: nat)
    requires pos + k <= |body|
    ensures body[..pos] + body[pos..pos + k] == body[..pos + k]
  {
  }

  /** The copy loop: read a chunk, and while it is not empty write it and read
      the next. The file ends up holding exactly the body; every write is a
      non-empty chunk of at most ChunkSize bytes and all but the last are full. */
  method CopyStream(body: seq<byte>) returns (file: seq<byte>, writes: seq<seq<byte>>)
    ensures file == body
    ensures Flatten(writes) == file
    ensures forall i :: 0 <= i < |writes| ==> 0 < |writes[i]| <= ChunkSize
    ensures forall i :: 0 <= i < |writes| - 1 ==> |writes[i]| == ChunkSize
  {
    file, writes := [], [];
    var pos := 0;
    var chunk := ReadChunk(body, pos, ChunkSize);
    pos := pos + |chunk|;
    while chunk != []
      invariant pos <= |body|
      invariant file + chunk == body[..pos]
      invariant Flatten(writes) == file
      invariant |chunk| <= ChunkSize
      invariant |chunk| < ChunkSize ==> pos == |body|
      invariant forall i :: 0 <= i < |writes| ==> 0 < |writes[i]| <= ChunkSize
      invariant forall i :: 0 <= i < |writes| - 1 ==> |writes[i]| == ChunkSize
      invariant chunk != [] && writes != [] ==> |writes[|writes| - 1]| == ChunkSize
      decreases |body| - pos + |chunk|
    {
      file := file + chunk;
      FlattenSnoc(writes, chunk);
      writes := writes + [chunk];
      chunk := ReadChunk(body, pos, ChunkSize);
      PrefixExtend(body, pos, |chunk|);
      pos := pos + |chunk|;
    }
    assert body[..pos] == body;
  }
}
