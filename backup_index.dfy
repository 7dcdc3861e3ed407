/** The store of backup/index.ts: the shared logic without `delete`; its
    constructor keeps the path `create` sets. */
module BackupIndex {
  import opened Wrappers
  import opened Values
  import opened Store

  class Database {
    var schema: Record
    var fileName: string
    const fs: FileSystem

    /** Both branches leave `fileName` naming the store's file; a new store
        gets an empty file. */
    constructor (fs: FileSystem, name: string, isNew: bool)
      modifies fs
      ensures this.fs == fs && schema == [] && fileName == FilePath(name)
      ensures isNew ==> fs.files == old(fs.files)[FilePath(name) := Empty]
      ensures !isNew ==> fs.files == old(fs.files)
    {
      this.fs := fs;
      schema := [];
      fileName := "";
      new;
      if isNew {
        Create(name);
      } else {
        fileName := FilePath(name);
      }
    }

    /** `create`: make (or truncate) the file and remember its path. */
    method Create(name: string)
      modifies this, fs
      ensures fileName == FilePath(name) && schema == old(schema)
      ensures fs.files == old(fs.files)[FilePath(name) := Empty]
    {
      fs.Write(FilePath(name), Empty);
      fileName := FilePath(name);
    }

    /** `get`: the parsed array. */
    method Get() returns (r: Result<seq<Record>, DbError>)
      ensures r == ReadStore(fs.files, fileName)
    {
      r := GetFrom(fs, fileName);
    }

    /** `add`: the checked copy, then one of the two writes. */
    method Add(record: Record) returns (r: Result<Option<int>, DbError>)
      modifies fs
      ensures (r, fs.files) == AddEffect(schema, record, old(fs.files), fileName)
    {
      r := AddTo(fs, schema, record, fileName);
    }
  }

  /** A store made with `isNew` takes its first conforming record: the
      callback gets status 200 and the file holds exactly that record. */
  method NewStoreAcceptsAdd(fs: FileSystem, name: string, schema: Record, record: Record)
    returns (r: Result<Option<int>, DbError>)
    requires Conforms(schema, record)
    modifies fs
    ensures r == Ok(Some(200))
    ensures fs.files == old(fs.files)[FilePath(name) := Arr([BuildObject(record)])]
  {
    var db := new Database(fs, name, true);
    db.schema := schema;
    r := db.Add(record);
  }
}
