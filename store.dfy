/** The logic shared by both `Database` classes: records as ordered
    key/value sequences, the backing files, the positional schema check
    and copy loop of `add`, and what `add` and `get` do to and with the
    backing file. */
module Store {
  import opened Wrappers
  import opened Values
  import opened Kinds

  /** A record (or a schema) in the order its own properties are listed. */
  type Field = (string, Value)
  type Record = seq<Field>

  /** What a backing file holds: nothing yet (as `create` leaves it), or
      the JSON text of an array of records, kept here parsed. */
  datatype FileContent = Empty | Arr(records: seq<Record>)

  type Files = map<string, FileContent>

  /** Stands for `path.join(__dirname, "db_")`. */
  const DirPrefix: string := "db_"

  /** The path of the backing file of the store called `name`. */
  function FilePath(name: string): (p: string)
    ensures |p| == |DirPrefix| + |name| + 5 && p[..|DirPrefix|] == DirPrefix && p[|p| - 5..] == ".json"
    ensures p[|DirPrefix|..|p| - 5] == name
  {
    DirPrefix + name + ".json"
  }

  /** The file at `path`, if there is one; the empty path names no file. */
  function Lookup(files: Files, path: string): (c: Option<FileContent>)
    ensures c.Some? <==> path != "" && path in files
    ensures c.Some? ==> c.value == files[path]
  {
    if path != "" && path in files then Some(files[path]) else None
  }

  /** The file system the store reads and writes. */
  class FileSystem {
    var files: Files

    constructor (files: Files)
      ensures this.files == files
    {
      this.files := files;
    }

    /** `readFile` / `readFileSync`: the content, or nothing if missing. */
    method Read(path: string) returns (c: Option<FileContent>)
      ensures c == Lookup(files, path)
    {
      c := Lookup(files, path);
    }

    /** `writeFileSync` and `createWriteStream`: the whole file replaced. */
    method Write(path: string, c: FileContent)
      requires path != ""
      modifies this
      ensures files == old(files)[path := c]
    {
      files := files[path := c];
    }

    /** Removing a file; it fails when there is none. */
    method Remove(path: string) returns (ok: bool)
      modifies this
      ensures ok <==> Lookup(old(files), path).Some?
      ensures files == if ok then old(files) - {path} else old(files)
    {
      ok := path != "" && path in files;
      if ok {
        files := files - {path};
      }
    }
  }

  predicate HasKey(obj: Record, k: string) {
    exists i :: 0 <= i < |obj| && obj[i].0 == k
  }

  /** A JavaScript object's own keys are distinct. */
  predicate DistinctKeys(obj: Record) {
    forall i, j :: 0 <= i < j < |obj| ==> obj[i].0 != obj[j].0
  }

  /** `obj[k] = v`: an existing key keeps its place and takes the new
      value, a new key is added last (where JavaScript lists a key that is
      not integer-like). */
  function Put(obj: Record, k: string, v: Value): (r: Record)
    requires DistinctKeys(obj)
    ensures DistinctKeys(r)
    ensures |r| == if HasKey(obj, k) then |obj| else |obj| + 1
    ensures forall i :: 0 <= i < |obj| ==> r[i] == if obj[i].0 == k then (k, v) else obj[i]
    ensures !HasKey(obj, k) ==> r[|obj|] == (k, v)
  {
    if obj == [] then [(k, v)]
    else if obj[0].0 == k then [(k, v)] + obj[1..]
    else
      var rest := Put(obj[1..], k, v);
      assert HasKey(obj, k) <==> HasKey(obj[1..], k) by {
        if HasKey(obj, k) {
          var i :| 0 <= i < |obj| && obj[i].0 == k;
          assert obj[1..][i - 1].0 == k;
        }
      }
      [obj[0]] + rest
  }

  /** The object `add` builds by assigning the record's fields in order. */
  function BuildObject(fields: Record): (obj: Record)
    ensures DistinctKeys(obj)
    ensures DistinctKeys(fields) ==> obj == fields
  {
    if fields == [] then []
    else
      var n := |fields| - 1;
      var prefix := BuildObject(fields[..n]);
      assert DistinctKeys(fields) ==> !HasKey(fields[..n], fields[n].0);
      Put(prefix, fields[n].0, fields[n].1)
  }

  lemma BuildObjectStep(fields: Record, i: nat)
    requires i < |fields|
    ensures BuildObject(fields[..i + 1]) == Put(BuildObject(fields[..i]), fields[i].0, fields[i].1)
  {
    assert fields[..i + 1][..i] == fields[..i];
  }

  /** Field `i` of a record passes the check against the schema value at
      the same position: past the schema's end there is none, and only a
      tag string can pass. */
  predicate FieldMatches(schema: Record, i: nat, v: Value)
    ensures FieldMatches(schema, i, v) ==> i < |schema| && schema[i].1.Str?
  {
    i < |schema| && Matches(schema[i].1, v)
  }

  /** The first `n` fields of the record pass. */
  predicate ConformsUpTo(schema: Record, record: Record, n: nat)
    requires n <= |record|
  {
    forall j :: 0 <= j < n ==> FieldMatches(schema, j, record[j].1)
  }

  /** Every field of the record passes; keys play no part. */
  predicate Conforms(schema: Record, record: Record)
    ensures Conforms(schema, record) ==> |record| <= |schema|
  {
    assert |record| > |schema| ==> !FieldMatches(schema, |schema|, record[|schema|].1);
    forall i :: 0 <= i < |record| ==> FieldMatches(schema, i, record[i].1)
  }

  function MismatchFrom(schema: Record, record: Record, k: nat): (i: nat)
    requires k <= |record|
    requires exists j :: k <= j < |record| && !FieldMatches(schema, j, record[j].1)
    ensures k <= i < |record| && !FieldMatches(schema, i, record[i].1)
    ensures forall j :: k <= j < i ==> FieldMatches(schema, j, record[j].1)
    decreases |record| - k
  {
    if !FieldMatches(schema, k, record[k].1) then k else MismatchFrom(schema, record, k + 1)
  }

  /** The position at which `add` throws. */
  function FirstMismatch(schema: Record, record: Record): (i: nat)
    requires !Conforms(schema, record)
    ensures i < |record| && !FieldMatches(schema, i, record[i].1)
    ensures forall j :: 0 <= j < i ==> FieldMatches(schema, j, record[j].1)
  {
    MismatchFrom(schema, record, 0)
  }

  lemma FirstMismatchAt(schema: Record, record: Record, i: nat)
    requires i < |record| && !FieldMatches(schema, i, record[i].1)
    requires forall j :: 0 <= j < i ==> FieldMatches(schema, j, record[j].1)
    ensures !Conforms(schema, record) && FirstMismatch(schema, record) == i
  {
  }

  /** The loop of `add`: each field is checked against the schema value at
      its position, then copied into the new object; the first mismatch
      throws and the object is dropped. */
  method CheckedCopy(schema: Record, record: Record) returns (r: Result<Record, DbError>)
    ensures r.Ok? <==> Conforms(schema, record)
    ensures r.Ok? ==> r.value == BuildObject(record)
    ensures r.Err? ==> r.error == Mismatch(record[FirstMismatch(schema, record)].1)
  {
    var obj: Record := [];
    var i := 0;
    while i < |record|
      invariant 0 <= i <= |record|
      invariant ConformsUpTo(schema, record, i)
      invariant obj == BuildObject(record[..i])
    {
      if !FieldMatches(schema, i, record[i].1) {
        FirstMismatchAt(schema, record, i);
        return Err(Mismatch(record[i].1));
      }
      assert ConformsUpTo(schema, record, i + 1);
      BuildObjectStep(record, i);
      obj := Put(obj, record[i].0, record[i].1);
      i := i + 1;
    }
    assert record[..i] == record;
    return Ok(obj);
  }

  /** The records an existing file already holds. */
  function Prior(c: FileContent): seq<Record> {
    if c.Arr? then c.records else []
  }

  /** The file `add` writes: `[object]` over an empty file, the old array
      with `object` pushed otherwise. */
  function Appended(c: FileContent, obj: Record): (r: FileContent)
    ensures r.Arr? && |r.records| == |Prior(c)| + 1
    ensures r.records[..|Prior(c)|] == Prior(c) && r.records[|Prior(c)|] == obj
  {
    match c
    case Empty => Arr([obj])
    case Arr(oldData) => Arr(oldData + [obj])
  }

  /** The status `add` passes to its callback: 200 after writing into an
      empty file, and no call at all after appending to an array. */
  function CallbackStatus(c: FileContent): (status: Option<int>)
    ensures status.Some? <==> c.Empty?
    ensures status.Some? ==> status.value == 200
  {
    if c.Empty? then Some(200) else None
  }

  /** `JSON.parse(readFileSync(path))`: a missing file fails to read and an
      empty one fails to parse. */
  function ReadStore(files: Files, path: string): (r: Result<seq<Record>, DbError>)
    ensures r.Ok? <==> Lookup(files, path).Some? && Lookup(files, path).value.Arr?
    ensures r.Ok? ==> r.value == files[path].records
    ensures Lookup(files, path).None? ==> r == Err(ReadFailed(path))
    ensures Lookup(files, path) == Some(Empty) ==> r == Err(ParseFailed)
  {
    match Lookup(files, path)
    case None => Err(ReadFailed(path))
    case Some(Empty) => Err(ParseFailed)
    case Some(Arr(records)) => Ok(records)
  }

  /** `add(record, callback)` on the store whose file is `path`: the
      result (the callback's status, or the failure) and the new files. */
  function AddEffect(schema: Record, record: Record, files: Files, path: string)
    : (r: (Result<Option<int>, DbError>, Files))
    ensures r.0.Ok? <==> Conforms(schema, record) && Lookup(files, path).Some?
    ensures r.0.Err? ==> r.1 == files
    ensures r.0.Ok? ==> r.1 == files[path := Appended(files[path], BuildObject(record))]
  {
    if !Conforms(schema, record) then
      (Err(Mismatch(record[FirstMismatch(schema, record)].1)), files)
    else
      match Lookup(files, path)
      case None => (Err(ReadFailed(path)), files)
      case Some(c) => (Ok(CallbackStatus(c)), files[path := Appended(c, BuildObject(record))])
  }

  /** `get` on the store whose file is `path`. */
  method GetFrom(fs: FileSystem, path: string) returns (r: Result<seq<Record>, DbError>)
    ensures r == ReadStore(fs.files, path)
  {
    var data := fs.Read(path);
    match data {
      case None => r := Err(ReadFailed(path));
      case Some(Empty) => r := Err(ParseFailed);
      case Some(Arr(records)) => r := Ok(records);
    }
  }

  /** `add` on the store whose file is `path`: the checked copy, then one
      of the two writes. */
  method AddTo(fs: FileSystem, schema: Record, record: Record, path: string)
    returns (r: Result<Option<int>, DbError>)
    modifies fs
    ensures (r, fs.files) == AddEffect(schema, record, old(fs.files), path)
  {
    var checked := CheckedCopy(schema, record);
    if checked.Err? {
      return Err(checked.error);
    }
    var obj := checked.value;
    var data := fs.Read(path);
    match data {
      case None => r := Err(ReadFailed(path));
      case Some(Empty) =>
        fs.Write(path, Arr([obj]));
        r := Ok(Some(200));
      case Some(Arr(oldData)) =>
        fs.Write(path, Arr(oldData + [obj]));
        r := Ok(None);
    }
  }

  /** A record with more fields than the schema always fails: the field
      past the schema's end is compared with `undefined`. */
  lemma LongerRecordFails(schema: Record, record: Record)
    requires |record| > |schema|
    ensures !Conforms(schema, record)
    ensures FirstMismatch(schema, record) <= |schema|
  {
    assert !FieldMatches(schema, |schema|, record[|schema|].1);
  }

  /** Schema entries past the record's length are never checked. */
  lemma TrailingSchemaUnchecked(schema: Record, extra: Record, record: Record)
    requires |record| <= |schema|
    ensures Conforms(schema + extra, record) <==> Conforms(schema, record)
  {
    forall i | 0 <= i < |record|
      ensures FieldMatches(schema + extra, i, record[i].1) <==> FieldMatches(schema, i, record[i].1)
    {
      assert (schema + extra)[i] == schema[i];
    }
  }

  /** Over a schema of tag strings, a record passes exactly when it has no
      more fields than the schema and each field has the kind declared at
      its position. */
  lemma DeclaredSchema(schema: Record, kinds: seq<Tag>, record: Record)
    requires |schema| == |kinds|
    requires forall i :: 0 <= i < |kinds| ==> schema[i].1 == Sentinel(kinds[i])
    ensures Conforms(schema, record)
        <==> |record| <= |kinds| && forall i :: 0 <= i < |record| ==> TypeOf(record[i].1) == kinds[i]
  {
    if |record| > |kinds| {
      LongerRecordFails(schema, record);
    } else {
      forall i | 0 <= i < |record|
        ensures FieldMatches(schema, i, record[i].1) <==> TypeOf(record[i].1) == kinds[i]
      {
        MatchesSentinel(kinds[i], record[i].1);
      }
    }
  }

  /** The schema `{name: string(), age: number()}`. */
  function PersonSchema(): Record {
    [("name", Sentinel(StringTag)), ("age", Sentinel(NumberTag))]
  }

  function Person(name: string, age: int): Record {
    [("name", Str(name)), ("age", Num(age))]
  }

  /** The check is by position, not by key: against
      `{name: string(), age: number()}`, the record `{age, name}` fails
      although each key holds the kind declared for it, while `{x, y}`
      with the same values in schema order passes. */
  lemma PositionNotKey(name: string, age: int)
    requires TypeOf(Str(name)) == StringTag
    ensures Conforms(PersonSchema(), Person(name, age))
    ensures Conforms(PersonSchema(), [("x", Str(name)), ("y", Num(age))])
    ensures !Conforms(PersonSchema(), [("age", Num(age)), ("name", Str(name))])
  {
    var schema := PersonSchema();
    assert FieldMatches(schema, 0, Str(name)) && FieldMatches(schema, 1, Num(age));
    var p := Person(name, age);
    assert p[0].1 == Str(name) && p[1].1 == Num(age);
    var renamed := [("x", Str(name)), ("y", Num(age))];
    assert renamed[0].1 == Str(name) && renamed[1].1 == Num(age);
    var swapped := [("age", Num(age)), ("name", Str(name))];
    assert !FieldMatches(schema, 0, swapped[0].1);
  }

  /** A failed check throws before any file access: nothing changes. */
  lemma AddRejectsBeforeIO(schema: Record, record: Record, files: Files, path: string)
    requires !Conforms(schema, record)
    ensures var (r, files') := AddEffect(schema, record, files, path);
      && files' == files
      && r == Err(Mismatch(record[FirstMismatch(schema, record)].1))
  {
  }

  /** After a successful `add`, reading the file gives the old records
      unchanged, followed by the new object, which carries the record's
      keys and values in order. */
  lemma AddThenGet(schema: Record, record: Record, files: Files, path: string)
    requires Conforms(schema, record) && Lookup(files, path).Some?
    ensures var (r, files') := AddEffect(schema, record, files, path);
      var before := Prior(files[path]);
      var got := ReadStore(files', path);
      && r.Ok?
      && got.Ok? && |got.value| == |before| + 1
      && got.value[..|before|] == before
      && got.value[|before|] == BuildObject(record)
      && (DistinctKeys(record) ==> got.value[|before|] == record)
  {
  }

  /** The empty-file branch: the file becomes `[record]` and the callback
      gets status 200. */
  lemma AddToEmpty(schema: Record, record: Record, files: Files, path: string)
    requires Conforms(schema, record) && DistinctKeys(record)
    requires Lookup(files, path) == Some(Empty)
    ensures AddEffect(schema, record, files, path) == (Ok(Some(200)), files[path := Arr([record])])
  {
  }

  /** The existing-array branch: the record is pushed last and the callback
      is not called. */
  lemma AddToArray(schema: Record, record: Record, files: Files, path: string, records: seq<Record>)
    requires Conforms(schema, record) && DistinctKeys(record)
    requires Lookup(files, path) == Some(Arr(records))
    ensures AddEffect(schema, record, files, path) == (Ok(None), files[path := Arr(records + [record])])
  {
  }

  /** The callback runs, with status 200, only when the file was empty;
      appending to an existing array never calls it. */
  lemma CallbackOnlyOnEmpty(schema: Record, record: Record, files: Files, path: string)
    ensures AddEffect(schema, record, files, path).0 == Ok(Some(200))
        <==> Conforms(schema, record) && Lookup(files, path) == Some(Empty)
    ensures AddEffect(schema, record, files, path).0 == Ok(None)
        <==> Conforms(schema, record) && Lookup(files, path).Some? && Lookup(files, path).value.Arr?
  {
  }

  /** `add` writes no file but its own. */
  lemma AddTouchesOnlyItsFile(schema: Record, record: Record, files: Files, path: string, other: string)
    requires other != path
    ensures Lookup(AddEffect(schema, record, files, path).1, other) == Lookup(files, other)
  {
  }
}
