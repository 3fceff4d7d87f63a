/**
 * Clients of the store: the round trip the repository's own test performs,
 * and the queue and lifecycle behaviour a caller relies on, each as a method
 * that builds a fresh store over a fresh file store and drives it.
 */
module Scenarios {
  import opened Values
  import opened FileSystem
  import opened KeyQueue
  import opened FPersist

  /** `{ name: 'John', age, items: ['apple', 'banana'] }`. */
  function Person(age: int): Value
  {
    Defined(JObject([("name", JStr("John")), ("age", JNum(age)), ("items", JArray([JStr("apple"), JStr("banana")]))]))
  }

  /** An edit function that checks the value it is given, as the test's
      `assert` does, and throws when it is not `expected`. */
  function Expecting(expected: Value, replacement: Value): EditFunction
  {
    v => if v == expected then Ok(replacement) else Err(EditFunctionError("unexpected current value"))
  }

  /** One half of the test: edit `key` with `f`, wait, then read it back
      and wait. Both resolve with the value `f` produced, which is what the
      key's file now holds. */
  method EditThenRead(storage: Storage, key: Key, f: EditFunction, current: Value, newData: Value) returns (edited: Result<Value>, read: Result<Value>)
    requires storage.Valid() && storage.ready && !storage.closed && key !in storage.chains && key !in InheritedNames
    requires storage.fs.faults == Faults({}, map[], {}) && storage.stringify == JsonStringify && !storage.allowUndefinedEdits
    requires ReadData(storage.fs.files, storage.fs.faults, storage.md5, storage.persistenceDir, key, Undefined) == Ok(current)
    requires f(current) == Ok(newData) && newData != Undefined
    modifies storage, storage.fs
    ensures edited == Ok(newData) && read == Ok(newData)
    ensures storage.fs.files == old(storage.fs.files)[GetFilePath(storage.md5, storage.persistenceDir, key) := Encoded(Record(key, newData))]
    ensures storage.Valid() && !storage.closed && storage.chains == old(storage.chains)
  {
    EditThenGetReturnsEdit(storage.Setup(), storage.fs.files, storage.fs.faults, key, f, Undefined, Undefined, current, newData);
    ghost var chains0 := storage.chains;
    var t1 := storage.EditItem(key, f, Undefined);
    PushThenPopRestores(chains0, key, Job(t1.value, Edit(f, Undefined)));
    var _, o1 := storage.Step(key);
    assert storage.chains == chains0;
    edited := o1;
    var t2 := storage.GetItem(key, Undefined);
    PushThenPopRestores(chains0, key, Job(t2.value, Get(Undefined)));
    var _, o2 := storage.Step(key);
    read := o2;
  }

  /** Store, read back, update and read back one key of a fresh directory,
      then close: every step resolves with the value just stored, the edit
      functions see the values the test expects, and close finds nothing
      left to wait for. */
  method StoreAndRetrieve(md5: Hash, dir: string, files0: Files) returns (stored: Result<Value>, read: Result<Value>, updated: Result<Value>, reread: Result<Value>, closing: Result<set<Ticket>>)
    requires EntriesIn(files0, dir) == {}
    ensures stored == Ok(Person(30)) && read == Ok(Person(30))
    ensures updated == Ok(Person(31)) && reread == Ok(Person(31))
    ensures closing == Ok({})
  {
    var key := "test-key";
    var fs := new FileStore(files0, Faults({}, map[], {}));
    var storage := new Storage(dir, md5, None, false, true, fs);
    assert GetFilePath(md5, dir, key) !in EntriesIn(files0, dir);
    assert GetFilePath(md5, dir, key) !in files0;
    stored, read := EditThenRead(storage, key, Expecting(Undefined, Person(30)), Undefined, Person(30));
    updated, reread := EditThenRead(storage, key, Expecting(Person(30), Person(31)), Person(30), Person(31));
    assert storage.chains == map[];
    assert storage.queueForKey == map[];
    assert storage.queueForKey.Values == {};
    closing := storage.Close();
  }

  /** An edit and a read of the same key, both enqueued before either runs:
      the read waits for the edit and sees its value. The key's entry is kept
      while the read still waits and dropped once it has run. */
  method ReadQueuedBehindEdit(md5: Hash, dir: string, files0: Files, key: Key, v: Json) returns (edited: Result<Value>, read: Result<Value>, tailKept: bool, tailDropped: bool)
    requires key !in InheritedNames
    requires GetFilePath(md5, dir, key) in files0 ==> files0[GetFilePath(md5, dir, key)].Encoded?
    ensures edited == Ok(Defined(v)) && read == Ok(Defined(v))
    ensures tailKept && tailDropped
  {
    var fs := new FileStore(files0, Faults({}, map[], {}));
    var storage := new Storage(dir, md5, None, false, true, fs);
    var f: EditFunction := _ => Ok(Defined(v));
    var _ := storage.EditItem(key, f, Undefined);
    var _ := storage.GetItem(key, Undefined);
    assert storage.chains[key] == [Job(0, Edit(f, Undefined)), Job(1, Get(Undefined))];

    var p := GetFilePath(md5, dir, key);
    var current := if p in files0 then files0[p].record.value else Undefined;
    EditThenGetReturnsEdit(storage.Setup(), files0, fs.faults, key, f, Undefined, Undefined, current, Defined(v));
    var _, o1 := storage.Step(key);
    assert o1 == Ok(Defined(v));
    assert storage.chains[key] == [Job(1, Get(Undefined))];
    edited := o1;
    tailKept := key in storage.queueForKey;

    var _, o2 := storage.Step(key);
    read := o2;
    tailDropped := key !in storage.queueForKey;
  }

  /** Once closed, every operation rejects with the closed error and the
      files stay as they were. */
  method RefusedAfterClose(md5: Hash, dir: string, files0: Files, key: Key, f: EditFunction, d: Value) returns (results: seq<Result<Ticket>>, cleared: Result<()>, files: Files)
    ensures results == [Err(ClosedError), Err(ClosedError), Err(ClosedError)]
    ensures cleared == Err(ClosedError)
    ensures files == files0
  {
    var fs := new FileStore(files0, Faults({}, map[], {}));
    var storage := new Storage(dir, md5, None, false, true, fs);
    var _ := storage.Close();
    var e := storage.EditItem(key, f, d);
    var g := storage.GetItem(key, d);
    var x := storage.DeleteItem(key);
    results := [e, g, x];
    cleared := storage.Clear();
    files := fs.files;
  }

  /** When the directory could not be made, everything rejects with that
      error, close included, nothing is deleted and the instance never
      becomes closed. */
  method RefusedWithoutDirectory(md5: Hash, dir: string, files0: Files, key: Key, f: EditFunction, d: Value) returns (results: seq<Result<Ticket>>, cleared: Result<()>, closing: Result<set<Ticket>>, closed: bool, files: Files)
    ensures results == [Err(MkdirError), Err(MkdirError), Err(MkdirError)]
    ensures cleared == Err(MkdirError) && closing == Err(MkdirError) && !closed
    ensures files == files0
  {
    var fs := new FileStore(files0, Faults({}, map[], {}));
    var storage := new Storage(dir, md5, None, false, false, fs);
    var e := storage.EditItem(key, f, d);
    var g := storage.GetItem(key, d);
    var x := storage.DeleteItem(key);
    results := [e, g, x];
    cleared := storage.Clear();
    closing := storage.Close();
    closed := storage.closed;
    files := fs.files;
  }

  /** A key that names an inherited member of a plain object, such as
      "toString", is refused by every queued operation of an open store,
      queueing nothing and writing nothing. */
  method InheritedKeyRefused(md5: Hash, dir: string, files0: Files, f: EditFunction, d: Value) returns (results: seq<Result<Ticket>>, queued: bool, files: Files)
    ensures results == [Err(InheritedKeyError), Err(InheritedKeyError), Err(InheritedKeyError)]
    ensures !queued && files == files0
  {
    var key := "toString";
    var fs := new FileStore(files0, Faults({}, map[], {}));
    var storage := new Storage(dir, md5, None, false, true, fs);
    var e := storage.EditItem(key, f, d);
    var g := storage.GetItem(key, d);
    var x := storage.DeleteItem(key);
    results := [e, g, x];
    queued := key in storage.queueForKey || key in storage.chains;
    files := fs.files;
  }
}
