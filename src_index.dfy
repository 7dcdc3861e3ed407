/** The store of src/index.ts: the shared logic plus `delete` (through
    `removeItem`) and `deleteDB`. Its constructor creates the file of a new
    store but then empties `fileName`. */
module SrcIndex {
  import opened Wrappers
  import opened Values
  import opened Kinds
  import opened Store

  /** Where `splice(index, 1)` starts (ECMA-262 section 23.1.3.31): a
      negative index counts back from the end and stops at 0, an index past
      the end stops at the length. */
  function SpliceStart(len: nat, index: int): (k: nat)
    ensures k <= len
    ensures 0 <= index <= len ==> k == index
    ensures index < 0 && 0 <= len + index ==> k == len + index
    ensures len + index < 0 ==> k == 0
    ensures index > len ==> k == len
  {
    if index < 0 then (if len + index < 0 then 0 else len + index)
    else if index > len then len
    else index
  }

  /** `removeItem(arr, index)`, that is `arr.splice(index, 1)`: the element
      at the start position goes, the others keep their order; from the
      end position on, nothing is removed. */
  function RemoveItem<T>(arr: seq<T>, index: int): (r: seq<T>)
    ensures var k := SpliceStart(|arr|, index);
      if k < |arr| then
        && |r| == |arr| - 1
        && (forall j :: 0 <= j < k ==> r[j] == arr[j])
        && (forall j :: k <= j < |r| ==> r[j] == arr[j + 1])
      else r == arr
    ensures multiset(r) <= multiset(arr)
  {
    var k := SpliceStart(|arr|, index);
    if k < |arr| then
      assert arr == arr[..k] + [arr[k]] + arr[k + 1..];
      arr[..k] + arr[k + 1..]
    else arr
  }

  /** `delete(index)`: read and parse the whole file, splice, write back
      (as `JSON.stringify` text, as `add` writes). A failed read changes
      nothing; a successful one replaces the file by the spliced array,
      which holds no record that was not there before, and leaves every
      other file as it was. */
  function DeleteEffect(files: Files, path: string, index: int): (r: (Result<(), DbError>, Files))
    ensures r.0.Ok? <==> ReadStore(files, path).Ok?
    ensures r.0.Err? ==> r.1 == files
    ensures r.0.Ok? ==>
      ReadStore(r.1, path).Ok? && multiset(ReadStore(r.1, path).value) <= multiset(ReadStore(files, path).value)
    ensures r.0.Ok? ==> r.1 == files[path := Arr(RemoveItem(ReadStore(files, path).value, index))]
  {
    match ReadStore(files, path)
    case Err(e) => (Err(e), files)
    case Ok(data) => (Ok(()), files[path := Arr(RemoveItem(data, index))])
  }

  /** `deleteDB()`: remove the backing file; it fails when there is none.
      Either way there is no file at the path afterwards; a success removes
      only that file and a failure changes nothing. */
  function DeleteDBEffect(files: Files, path: string): (r: (Result<(), DbError>, Files))
    ensures r.0.Ok? <==> Lookup(files, path).Some?
    ensures Lookup(r.1, path).None?
    ensures r.1 == if r.0.Ok? then files - {path} else files
  {
    if Lookup(files, path).Some? then (Ok(()), files - {path})
    else (Err(RemoveFailed(path)), files)
  }

  /** `delete(index)` as written: the spliced array is handed to
      `Deno.writeFileSync` without `JSON.stringify`. That call takes bytes
      and refuses an array, so `delete` throws after reading and no file
      changes. */
  function DeleteAsWrittenEffect(files: Files, path: string, index: int): (r: (Result<(), DbError>, Files))
    ensures r.0.Err? && r.1 == files
  {
    match ReadStore(files, path)
    case Err(e) => (Err(e), files)
    case Ok(_) => (Err(WriteFailed(path)), files)
  }

  class Database {
    var schema: Record
    var fileName: string
    const fs: FileSystem

    /** A new store gets an empty file, yet `fileName` is left empty; an
        existing one is only named. */
    constructor (fs: FileSystem, name: string, isNew: bool)
      modifies fs
      ensures this.fs == fs && schema == []
      ensures isNew ==> fileName == "" && fs.files == old(fs.files)[FilePath(name) := Empty]
      ensures !isNew ==> fileName == FilePath(name) && fs.files == old(fs.files)
    {
      this.fs := fs;
      schema := [];
      fileName := "";
      new;
      if isNew {
        Create(name);
        fileName := "";
      } else {
        fileName := FilePath(name);
      }
    }

    /** `create`: make (or truncate) the file and remember its path. */
    method Create(name: string)
      modifies this, fs
      ensures fileName == FilePath(name) && schema == old(schema)
      ensures fs.files == old(fs.files)[FilePath(name) := Empty]
    {
      fs.Write(FilePath(name), Empty);
      fileName := FilePath(name);
    }

    /** `get`: the parsed array. */
    method Get() returns (r: Result<seq<Record>, DbError>)
      ensures r == ReadStore(fs.files, fileName)
    {
      r := GetFrom(fs, fileName);
    }

    method DeleteDB() returns (r: Result<(), DbError>)
      modifies fs
      ensures (r, fs.files) == DeleteDBEffect(old(fs.files), fileName)
    {
      var removed := fs.Remove(fileName);
      r := if removed then Ok(()) else Err(RemoveFailed(fileName));
    }

    method Delete(index: int) returns (r: Result<(), DbError>)
      modifies fs
      ensures (r, fs.files) == DeleteEffect(old(fs.files), fileName, index)
    {
      var data := fs.Read(fileName);
      match data {
        case None => r := Err(ReadFailed(fileName));
        case Some(Empty) => r := Err(ParseFailed);
        case Some(Arr(records)) =>
          fs.Write(fileName, Arr(RemoveItem(records, index)));
          r := Ok(());
      }
    }

    /** `add`: the checked copy, then one of the two writes. */
    method Add(record: Record) returns (r: Result<Option<int>, DbError>)
      modifies fs
      ensures (r, fs.files) == AddEffect(schema, record, old(fs.files), fileName)
    {
      r := AddTo(fs, schema, record, fileName);
    }
  }

  /** For an index inside the array, exactly that element is removed and
      the others keep their order. */
  lemma RemoveItemAt<T>(arr: seq<T>, i: int)
    requires 0 <= i < |arr|
    ensures RemoveItem(arr, i) == arr[..i] + arr[i + 1..]
    ensures multiset(RemoveItem(arr, i)) + multiset{arr[i]} == multiset(arr)
  {
    var r := RemoveItem(arr, i);
    assert r == arr[..i] + arr[i + 1..];
    assert arr == arr[..i] + [arr[i]] + arr[i + 1..];
  }

  /** An index at or past the end removes nothing. */
  lemma RemoveItemPastEnd<T>(arr: seq<T>, i: int)
    requires i >= |arr|
    ensures RemoveItem(arr, i) == arr
  {
  }

  /** A negative index counts from the end; one too far back removes the
      first element. */
  lemma RemoveItemFromEnd<T>(arr: seq<T>, i: int)
    requires i < 0
    ensures 0 <= |arr| + i ==> RemoveItem(arr, i) == RemoveItem(arr, |arr| + i)
    ensures |arr| + i < 0 ==> RemoveItem(arr, i) == RemoveItem(arr, 0)
  {
  }

  /** With the stringified write, an index at or past the end still
      rewrites the file, with the same records: `delete` succeeds and no
      file changes. */
  lemma DeletePastEndUnchanged(files: Files, path: string, i: int)
    requires ReadStore(files, path).Ok?
    requires i >= |ReadStore(files, path).value|
    ensures DeleteEffect(files, path, i) == (Ok(()), files)
  {
    RemoveItemPastEnd(ReadStore(files, path).value, i);
    assert files[path := files[path]] == files;
  }

  /** `delete(i)` then `get`: the element at `i` is gone and the others
      are in their original order. */
  lemma DeleteThenGet(files: Files, path: string, i: int)
    requires ReadStore(files, path).Ok?
    requires 0 <= i < |ReadStore(files, path).value|
    ensures var before := ReadStore(files, path).value;
      var (r, files') := DeleteEffect(files, path, i);
      && r.Ok?
      && ReadStore(files', path) == Ok(before[..i] + before[i + 1..])
      && multiset(ReadStore(files', path).value) + multiset{before[i]} == multiset(before)
  {
    RemoveItemAt(ReadStore(files, path).value, i);
  }

  /** Deleting the position just appended undoes the `add`. */
  lemma AddThenDeleteLast(schema: Record, record: Record, files: Files, path: string)
    requires Conforms(schema, record) && Lookup(files, path).Some?
    ensures var before := Prior(files[path]);
      var added := AddEffect(schema, record, files, path).1;
      DeleteEffect(added, path, |before|).1 == files[path := Arr(before)]
  {
    var before := Prior(files[path]);
    var c := Appended(files[path], BuildObject(record));
    RemoveItemAt(c.records, |before|);
    assert c.records[..|before|] + c.records[|before| + 1..] == before;
  }

  /** After `deleteDB`, reading, adding, deleting and removing again all
      fail (an `add` may fail on the schema first) and change nothing. */
  lemma DestroyedStoreFails(schema: Record, record: Record, files: Files, path: string, i: int)
    requires DeleteDBEffect(files, path).0.Ok?
    ensures var gone := DeleteDBEffect(files, path).1;
      && ReadStore(gone, path) == Err(ReadFailed(path))
      && AddEffect(schema, record, gone, path).0.Err?
      && AddEffect(schema, record, gone, path).1 == gone
      && DeleteEffect(gone, path, i) == (Err(ReadFailed(path)), gone)
      && DeleteDBEffect(gone, path) == (Err(RemoveFailed(path)), gone)
  {
  }

  /** A person whose name is text of kind string passes the schema
      `{name: string(), age: number()}` and is stored as given. */
  lemma PersonConforms(name: string, age: int)
    requires TypeOf(Str(name)) == StringTag
    ensures Conforms(PersonSchema(), Person(name, age))
    ensures DistinctKeys(Person(name, age))
    ensures BuildObject(Person(name, age)) == Person(name, age)
  {
    PositionNotKey(name, age);
  }

  /** Two appends and a delete on a store whose file starts empty: the
      first `add` calls back with 200, the second appends without a
      callback, and `delete(0)` leaves the second record alone. */
  lemma ExampleSession(schema: Record, files: Files, path: string, first: Record, second: Record)
    requires Lookup(files, path) == Some(Empty)
    requires Conforms(schema, first) && DistinctKeys(first)
    requires Conforms(schema, second) && DistinctKeys(second)
    ensures AddEffect(schema, first, files, path) == (Ok(Some(200)), files[path := Arr([first])])
    ensures var f1 := files[path := Arr([first])];
      AddEffect(schema, second, f1, path) == (Ok(None), f1[path := Arr([first, second])])
    ensures var f2 := files[path := Arr([first])][path := Arr([first, second])];
      DeleteEffect(f2, path, 0) == (Ok(()), f2[path := Arr([second])])
  {
    AddToEmpty(schema, first, files, path);
    var f1 := files[path := Arr([first])];
    AddToArray(schema, second, f1, path, [first]);
    assert [first] + [second] == [first, second];
    DeleteFirstOfTwo(f1[path := Arr([first, second])], path, first, second);
  }

  lemma DeleteFirstOfTwo(files: Files, path: string, first: Record, second: Record)
    requires Lookup(files, path) == Some(Arr([first, second]))
    ensures DeleteEffect(files, path, 0) == (Ok(()), files[path := Arr([second])])
  {
    RemoveItemAt([first, second], 0);
    assert [first, second][..0] + [first, second][1..] == [second];
  }

  /** The session with `{name: "Ann", age: 30}` and `{name: "Bo", age: 41}`
      under the schema `{name: string(), age: number()}`. */
  lemma ExampleSessionWithPeople(files: Files, path: string)
    requires Lookup(files, path) == Some(Empty)
    ensures
      var ann := Person("Ann", 30);
      var bo := Person("Bo", 41);
      var f1 := AddEffect(PersonSchema(), ann, files, path).1;
      var f2 := AddEffect(PersonSchema(), bo, f1, path).1;
      ReadStore(DeleteEffect(f2, path, 0).1, path) == Ok([bo])
  {
    WordIsString("Ann");
    WordIsString("Bo");
    PersonConforms("Ann", 30);
    PersonConforms("Bo", 41);
    ExampleSession(PersonSchema(), files, path, Person("Ann", 30), Person("Bo", 41));
  }

  /** As written, `delete(i)` never removes anything: on a file holding
      records it throws, and `get` still returns element `i`, which the
      stringified write would have removed. */
  lemma DeleteAsWrittenKeepsRecords(files: Files, path: string, i: int)
    requires ReadStore(files, path).Ok?
    requires 0 <= i < |ReadStore(files, path).value|
    ensures var before := ReadStore(files, path).value;
      && DeleteAsWrittenEffect(files, path, i).0 == Err(WriteFailed(path))
      && ReadStore(DeleteAsWrittenEffect(files, path, i).1, path) == Ok(before)
      && ReadStore(DeleteEffect(files, path, i).1, path) != Ok(before)
  {
    var before := ReadStore(files, path).value;
    RemoveItemAt(before, i);
    assert |ReadStore(DeleteEffect(files, path, i).1, path).value| == |before| - 1;
  }

  /** A store made with `isNew` cannot be written: its `fileName` is "",
      which names no file, so `add` fails to read even a conforming record
      and the new file stays empty. */
  method NewStoreRejectsAdd(fs: FileSystem, name: string, schema: Record, record: Record)
    returns (r: Result<Option<int>, DbError>)
    requires Conforms(schema, record)
    modifies fs
    ensures r == Err(ReadFailed(""))
    ensures fs.files == old(fs.files)[FilePath(name) := Empty]
  {
    var db := new Database(fs, name, true);
    db.schema := schema;
    r := db.Add(record);
  }
}
