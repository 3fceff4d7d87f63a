/**
 * The storage engine: the actions that editItem, getItem and deleteItem put
 * on a key's queue, what each does to the files when its turn comes, and the
 * Storage object that owns the queues and the open/closed lifecycle.
 */
module FPersist {
  import opened Values
  import opened FileSystem
  import opened KeyQueue

  /** An edit function: the current value in, the value to store out, or
      the reason it threw. */
  type EditFunction = Value -> Result<Value>

  /** The action an operation enqueues for its key. */
  datatype Action =
    | Edit(editFunction: EditFunction, defaultValue: Value)
    | Get(defaultValue: Value)
    | Delete

  /** What a Storage instance fixes at construction. */
  datatype Options = Options(persistenceDir: string, md5: Hash, stringify: Record -> Content, allowUndefinedEdits: bool)

  /** The files after an action ran, and the outcome its caller receives. */
  datatype Effect = Effect(files: Files, outcome: Result<Value>)

  function PathOf(o: Options, key: Key): Path
  {
    GetFilePath(o.md5, o.persistenceDir, key)
  }

  /** The end of an edit, once the edit function has settled: a thrown error
      is passed on, `undefined` is refused unless allowed, and anything else
      is written and becomes the outcome. */
  function Commit(o: Options, files: Files, faults: Faults, key: Key, edited: Result<Value>): (e: Effect)
    ensures edited.Err? ==> e.outcome == edited && e.files == files
    ensures e.outcome.Ok? ==> e.outcome == edited && (e.outcome.value != Undefined || o.allowUndefinedEdits)
    ensures e.outcome.Ok? ==> PathOf(o, key) in e.files && e.files[PathOf(o, key)] == o.stringify(Record(key, e.outcome.value))
    ensures SameElsewhere(e.files, files, PathOf(o, key))
  {
    match edited
    case Err(e) => Effect(files, Err(e))
    case Ok(newData) =>
      if newData == Undefined && !o.allowUndefinedEdits then
        Effect(files, Err(UndefinedEditError))
      else
        var u := WriteFile(files, faults, PathOf(o, key), o.stringify(Record(key, newData)));
        Effect(u.files, if u.result.Ok? then Ok(newData) else Err(u.result.error))
  }

  /** What running `a` for `key` does. */
  function Perform(o: Options, files: Files, faults: Faults, key: Key, a: Action): (e: Effect)
    ensures a.Get? ==> e.files == files
    ensures a.Delete? && e.outcome.Ok? ==> e.outcome.value == Undefined && PathOf(o, key) !in e.files
    ensures a.Edit? && e.outcome.Ok? ==> e.outcome.value != Undefined || o.allowUndefinedEdits
    ensures SameElsewhere(e.files, files, PathOf(o, key))
  {
    match a
    case Get(d) =>
      Effect(files, ReadData(files, faults, o.md5, o.persistenceDir, key, d))
    case Delete =>
      var u := UnlinkFile(files, faults, PathOf(o, key));
      Effect(u.files, if u.result.Ok? then Ok(Undefined) else Err(u.result.error))
    case Edit(f, d) =>
      var current := ReadData(files, faults, o.md5, o.persistenceDir, key, d);
      if current.Err? then Effect(files, Err(current.error)) else Commit(o, files, faults, key, f(current.value))
  }

  /** A read of a key never written resolves with the caller's default and
      creates no file; a read of a stored record resolves with its value
      field; either way no file changes. */
  lemma GetReadsCurrentValue(o: Options, files: Files, faults: Faults, key: Key, d: Value)
    requires PathOf(o, key) !in faults.read
    ensures PathOf(o, key) !in files ==> Perform(o, files, faults, key, Get(d)) == Effect(files, Ok(d))
    ensures PathOf(o, key) in files && files[PathOf(o, key)].Encoded? ==>
              Perform(o, files, faults, key, Get(d)) == Effect(files, Ok(files[PathOf(o, key)].record.value))
  {
  }

  /** The edit function is applied to the current value, which for a key
      never written is the caller's default. */
  lemma EditSeesCurrentValue(o: Options, files: Files, faults: Faults, key: Key, f: EditFunction, d: Value)
    requires PathOf(o, key) !in faults.read
    ensures PathOf(o, key) !in files ==> Perform(o, files, faults, key, Edit(f, d)) == Commit(o, files, faults, key, f(d))
    ensures PathOf(o, key) in files && files[PathOf(o, key)].Encoded? ==>
              Perform(o, files, faults, key, Edit(f, d)) == Commit(o, files, faults, key, f(files[PathOf(o, key)].record.value))
  {
  }

  /** An edit function that returns `undefined`, when that is not allowed,
      makes the edit reject and nothing is written. */
  lemma UndefinedEditIsRefused(o: Options, files: Files, faults: Faults, key: Key, f: EditFunction, d: Value, current: Value)
    requires !o.allowUndefinedEdits
    requires ReadData(files, faults, o.md5, o.persistenceDir, key, d) == Ok(current)
    requires f(current) == Ok(Undefined)
    ensures Perform(o, files, faults, key, Edit(f, d)) == Effect(files, Err(UndefinedEditError))
  {
  }

  /** A successful edit resolves with exactly the value it stored, and a read
      of the same key that runs next returns that value. */
  lemma EditThenGetReturnsEdit(o: Options, files: Files, faults: Faults, key: Key, f: EditFunction, d: Value, d': Value, current: Value, newData: Value)
    requires o.stringify == JsonStringify && PathOf(o, key) !in faults.read && PathOf(o, key) !in faults.write
    requires ReadData(files, faults, o.md5, o.persistenceDir, key, d) == Ok(current)
    requires f(current) == Ok(newData) && (newData != Undefined || o.allowUndefinedEdits)
    ensures var e := Perform(o, files, faults, key, Edit(f, d));
            && e == Effect(files[PathOf(o, key) := Encoded(Record(key, newData))], Ok(newData))
            && Perform(o, e.files, faults, key, Get(d')).outcome == Ok(newData)
  {
    WriteThenReadRoundTrip(files, faults, o.md5, o.persistenceDir, key, newData, d');
  }

  /** A delete resolves even when the key was never written, and a read that
      runs next returns the caller's default. */
  lemma DeleteThenGetIsDefault(o: Options, files: Files, faults: Faults, key: Key, d: Value)
    requires PathOf(o, key) !in faults.read && PathOf(o, key) !in faults.unlink
    ensures var e := Perform(o, files, faults, key, Delete);
            && e.outcome == Ok(Undefined)
            && Perform(o, e.files, faults, key, Get(d)).outcome == Ok(d)
  {
    DeleteThenReadIsDefault(files, faults, o.md5, o.persistenceDir, key, d);
  }

  /** The value a sequence of edits leaves, applied in this order: one whose
      edit function throws, or returns a refused `undefined`, changes nothing
      and the next one carries on from the same value. */
  function Fold(o: Options, v: Value, fns: seq<EditFunction>): Value
    decreases |fns|
  {
    if |fns| == 0 then v
    else
      var next := match fns[0](v)
        case Ok(w) => if w == Undefined && !o.allowUndefinedEdits then v else w
        case Err(_) => v;
      Fold(o, next, fns[1..])
  }

  /** The files after running `actions` for `key`, one after another. */
  function RunInOrder(o: Options, files: Files, faults: Faults, key: Key, actions: seq<Action>): Files
    decreases |actions|
  {
    if |actions| == 0 then files
    else RunInOrder(o, Perform(o, files, faults, key, actions[0]).files, faults, key, actions[1..])
  }

  function EditsOf(fns: seq<EditFunction>, d: Value): (actions: seq<Action>)
    ensures |actions| == |fns|
    ensures forall i :: 0 <= i < |fns| ==> actions[i] == Edit(fns[i], d)
  {
    seq(|fns|, i requires 0 <= i < |fns| => Edit(fns[i], d))
  }

  /** Edits queued for one key leave, as the key's value, the result of
      applying their edit functions in submission order, one at a time; a
      faults edit does not stop those after it. */
  lemma {:induction false} EditsApplyInSubmissionOrder(o: Options, files: Files, faults: Faults, key: Key, fns: seq<EditFunction>, d: Value, start: Value)
    requires o.stringify == JsonStringify && PathOf(o, key) !in faults.read && PathOf(o, key) !in faults.write
    requires ReadData(files, faults, o.md5, o.persistenceDir, key, d) == Ok(start)
    ensures ReadData(RunInOrder(o, files, faults, key, EditsOf(fns, d)), faults, o.md5, o.persistenceDir, key, d) == Ok(Fold(o, start, fns))
    decreases |fns|
  {
    if |fns| > 0 {
      var e := Perform(o, files, faults, key, Edit(fns[0], d));
      var next := match fns[0](start)
        case Ok(w) => if w == Undefined && !o.allowUndefinedEdits then start else w
        case Err(_) => start;
      match fns[0](start) {
        case Ok(w) =>
          if !(w == Undefined && !o.allowUndefinedEdits) {
            WriteThenReadRoundTrip(files, faults, o.md5, o.persistenceDir, key, w, d);
          }
        case Err(_) =>
      }
      assert ReadData(e.files, faults, o.md5, o.persistenceDir, key, d) == Ok(next);
      assert EditsOf(fns, d)[1..] == EditsOf(fns[1..], d);
      EditsApplyInSubmissionOrder(o, e.files, faults, key, fns[1..], d, next);
    }
  }

  /** What one file holds, if it exists. */
  function Slot(files: Files, p: Path): Option<Content>
  {
    if p in files then Some(files[p]) else None
  }

  lemma SlotsDetermineFiles(f: Files, g: Files)
    requires forall p :: Slot(f, p) == Slot(g, p)
    ensures f == g
  {
    assert forall p :: p in f <==> Slot(f, p).Some?;
    assert forall p :: p in g <==> Slot(g, p).Some?;
    assert f.Keys == g.Keys;
    forall p | p in f
      ensures f[p] == g[p]
    {
      assert Slot(f, p) == Slot(g, p);
    }
  }

  /** An action changes its own key's file and no other. */
  lemma PerformTouchesOnlyItsFile(o: Options, files: Files, faults: Faults, key: Key, a: Action)
    ensures forall p :: p != PathOf(o, key) ==> Slot(Perform(o, files, faults, key, a).files, p) == Slot(files, p)
  {
  }

  /** An action's outcome, and what it leaves in its file, depend on nothing
      but that file. */
  lemma PerformReadsOnlyItsFile(o: Options, files: Files, files': Files, faults: Faults, key: Key, a: Action)
    requires Slot(files, PathOf(o, key)) == Slot(files', PathOf(o, key))
    ensures Perform(o, files, faults, key, a).outcome == Perform(o, files', faults, key, a).outcome
    ensures Slot(Perform(o, files, faults, key, a).files, PathOf(o, key)) == Slot(Perform(o, files', faults, key, a).files, PathOf(o, key))
  {
    var p := PathOf(o, key);
    assert p in files <==> p in files';
    match a {
      case Get(d) =>
      case Delete =>
      case Edit(f, d) =>
        var current := ReadData(files, faults, o.md5, o.persistenceDir, key, d);
        assert current == ReadData(files', faults, o.md5, o.persistenceDir, key, d);
    }
  }

  /** Actions of two keys stored in different files commute: each caller
      gets the same outcome and the files end the same whichever runs first.
      This is why the queues of different keys may run independently, and
      why running each action as one step loses nothing. */
  lemma ActionsOnDifferentFilesCommute(o: Options, files: Files, faults: Faults, k1: Key, a1: Action, k2: Key, a2: Action)
    requires PathOf(o, k1) != PathOf(o, k2)
    ensures var e1 := Perform(o, files, faults, k1, a1);
            var e2 := Perform(o, e1.files, faults, k2, a2);
            var f2 := Perform(o, files, faults, k2, a2);
            var f1 := Perform(o, f2.files, faults, k1, a1);
            e1.outcome == f1.outcome && e2.outcome == f2.outcome && e2.files == f1.files
  {
    var p1, p2 := PathOf(o, k1), PathOf(o, k2);
    var e1 := Perform(o, files, faults, k1, a1);
    var f2 := Perform(o, files, faults, k2, a2);
    var e2 := Perform(o, e1.files, faults, k2, a2);
    var f1 := Perform(o, f2.files, faults, k1, a1);
    PerformTouchesOnlyItsFile(o, files, faults, k1, a1);
    PerformTouchesOnlyItsFile(o, files, faults, k2, a2);
    PerformTouchesOnlyItsFile(o, e1.files, faults, k2, a2);
    PerformTouchesOnlyItsFile(o, f2.files, faults, k1, a1);
    PerformReadsOnlyItsFile(o, files, e1.files, faults, k2, a2);
    PerformReadsOnlyItsFile(o, files, f2.files, faults, k1, a1);
    forall p
      ensures Slot(e2.files, p) == Slot(f1.files, p)
    {
      if p == p1 {
        assert Slot(e2.files, p) == Slot(e1.files, p);
      } else if p == p2 {
        assert Slot(f1.files, p) == Slot(f2.files, p);
      }
    }
    SlotsDetermineFiles(e2.files, f1.files);
  }

  /** The members every plain object inherits from `Object.prototype` in
      Node.js. `queueForKey` is a plain object, so for these keys the
      lookup at the start of an enqueue finds the inherited member. */
  const InheritedNames: set<Key> := {
    "constructor", "hasOwnProperty", "isPrototypeOf", "propertyIsEnumerable",
    "toString", "toLocaleString", "valueOf", "__proto__",
    "__defineGetter__", "__defineSetter__", "__lookupGetter__", "__lookupSetter__" }

  /**
   * One store over one persistence directory. The promise chain the source
   * keeps per key is made explicit: `chains` lists each key's pending
   * actions head first, and `queueForKey` names each key's tail by ticket,
   * which is the identity the cleanup test compares. A caller's promise is
   * its ticket; `settled` records what each settled with. The scheduler
   * picks which key runs next by calling Step.
   */
  class Storage {
    const persistenceDir: string
    const md5: Hash
    const stringify: Record -> Content
    const allowUndefinedEdits: bool
    /** Whether creating the persistence directory succeeded. */
    const ready: bool
    const fs: FileStore

    var closed: bool
    var queueForKey: map<Key, Ticket>
    var chains: Chains<Action>
    var nextTicket: Ticket
    var settled: map<Ticket, Result<Value>>

    function Setup(): Options
    {
      Options(persistenceDir, md5, stringify, allowUndefinedEdits)
    }

    ghost predicate Valid()
      reads this
    {
      Tracks(chains, queueForKey, nextTicket)
    }

    /** `new Storage(persistenceDir, options)`; `mkdirSucceeded` is how the
        directory creation it starts turns out. */
    constructor (persistenceDir: string, md5: Hash, stringify: Option<Record -> Content>, allowUndefinedEdits: bool, mkdirSucceeded: bool, fs: FileStore)
      ensures Valid()
      ensures this.persistenceDir == persistenceDir && this.md5 == md5 && this.fs == fs
      ensures this.stringify == (if stringify.Some? then stringify.value else JsonStringify)
      ensures this.allowUndefinedEdits == allowUndefinedEdits && ready == mkdirSucceeded
      ensures !closed && queueForKey == map[] && chains == map[] && nextTicket == 0 && settled == map[]
    {
      this.persistenceDir := persistenceDir;
      this.md5 := md5;
      match stringify {
        case Some(custom) => this.stringify := custom;
        case None => this.stringify := JsonStringify;
      }
      this.allowUndefinedEdits := allowUndefinedEdits;
      ready := mkdirSucceeded;
      this.fs := fs;
      closed := false;
      queueForKey := map[];
      chains := map[];
      nextTicket := 0;
      settled := map[];
    }

    /** Throws once the instance is closed. */
    method VerifyNotClosed() returns (r: Result<()>)
      ensures r.Err? <==> closed
      ensures r.Err? ==> r.error == ClosedError
    {
      r := if closed then Err(ClosedError) else Ok(());
    }

    /** How an enqueue changes the state: refused with the directory error,
        or after close, touching nothing; refused too for a key that names an
        inherited member, whose lookup finds no queue but a function without
        `then`; otherwise `action` becomes the key's new tail, behind its
        previous one, and gets the next ticket. */
    twostate predicate AdmittedAs(key: Key, new action: Action, new r: Result<Ticket>)
      reads this
    {
      && closed == old(closed)
      && settled == old(settled)
      && (!ready ==> r == Err(MkdirError))
      && (ready && closed ==> r == Err(ClosedError))
      && (ready && !closed && key in InheritedNames ==> r == Err(InheritedKeyError))
      && (r.Err? ==> chains == old(chains) && queueForKey == old(queueForKey) && nextTicket == old(nextTicket))
      && (ready && !closed && key !in InheritedNames ==>
            && r == Ok(old(nextTicket))
            && chains == Pushed(old(chains), key, Job(old(nextTicket), action))
            && queueForKey == old(queueForKey)[key := old(nextTicket)]
            && nextTicket == old(nextTicket) + 1)
    }

    method EnqueueForKey(key: Key, action: Action) returns (r: Result<Ticket>)
      requires Valid()
      modifies this
      ensures Valid() && AdmittedAs(key, action, r)
    {
      if !ready {
        r := Err(MkdirError);
      } else {
        var admitted := VerifyNotClosed();
        if admitted.Err? {
          r := Err(admitted.error);
        } else if key in InheritedNames {
          r := Err(InheritedKeyError);
        } else {
          var t := nextTicket;
          PushKeepsTracks(chains, queueForKey, nextTicket, key, action);
          chains := chains[key := Pending(chains, key) + [Job(t, action)]];
          queueForKey := queueForKey[key := t];
          nextTicket := t + 1;
          r := Ok(t);
        }
      }
    }

    method EditItem(key: Key, editFunction: EditFunction, defaultValue: Value) returns (r: Result<Ticket>)
      requires Valid()
      modifies this
      ensures Valid() && AdmittedAs(key, Edit(editFunction, defaultValue), r)
    {
      r := EnqueueForKey(key, Edit(editFunction, defaultValue));
    }

    method GetItem(key: Key, defaultValue: Value) returns (r: Result<Ticket>)
      requires Valid()
      modifies this
      ensures Valid() && AdmittedAs(key, Get(defaultValue), r)
    {
      r := EnqueueForKey(key, Get(defaultValue));
    }

    method DeleteItem(key: Key) returns (r: Result<Ticket>)
      requires Valid()
      modifies this
      ensures Valid() && AdmittedAs(key, Delete, r)
    {
      r := EnqueueForKey(key, Delete);
    }

    /** The body of an action, run against the file store. */
    method RunAction(key: Key, action: Action) returns (outcome: Result<Value>)
      modifies fs
      ensures Effect(fs.files, outcome) == Perform(Setup(), old(fs.files), fs.faults, key, action)
    {
      match action {
        case Get(d) =>
          outcome := ReadData(fs.files, fs.faults, md5, persistenceDir, key, d);
        case Delete =>
          var deleted := fs.DeleteData(md5, persistenceDir, key);
          outcome := if deleted.Ok? then Ok(Undefined) else Err(deleted.error);
        case Edit(f, d) =>
          var currentData := ReadData(fs.files, fs.faults, md5, persistenceDir, key, d);
          if currentData.Err? {
            return Err(currentData.error);
          }
          var edited := f(currentData.value);
          if edited.Err? {
            return Err(edited.error);
          }
          var newData := edited.value;
          if newData == Undefined && !allowUndefinedEdits {
            return Err(UndefinedEditError);
          }
          var written := fs.WriteData(md5, persistenceDir, key, newData, stringify);
          outcome := if written.Ok? then Ok(newData) else Err(written.error);
      }
    }

    /** The head action of `key` runs and settles, whatever earlier actions
        of the key settled with; its outcome goes to its own caller only. */
    method Step(key: Key) returns (t: Ticket, outcome: Result<Value>)
      requires Valid() && key in chains
      modifies this, fs
      ensures Valid()
      ensures t == old(chains[key][0].ticket)
      ensures Effect(fs.files, outcome) == Perform(Setup(), old(fs.files), fs.faults, key, old(chains[key][0].action))
      ensures settled == old(settled)[t := outcome]
      ensures chains == Popped(old(chains), key)
      ensures queueForKey == if |old(chains[key])| == 1 then old(queueForKey) - {key} else old(queueForKey)
      ensures closed == old(closed) && nextTicket == old(nextTicket)
    {
      var job := chains[key][0];
      t := job.ticket;
      outcome := RunAction(key, job.action);
      Retire(key, outcome);
    }

    /** The continuation that runs once the head of `key` has settled: the
        outcome is recorded for its caller, and the key's entry is deleted if
        the stored tail is still this action, which is exactly when nothing
        newer is queued behind it. */
    method Retire(key: Key, outcome: Result<Value>)
      requires Valid() && key in chains
      modifies this
      ensures Valid()
      ensures settled == old(settled)[old(chains[key][0].ticket) := outcome]
      ensures chains == Popped(old(chains), key)
      ensures queueForKey == if |old(chains[key])| == 1 then old(queueForKey) - {key} else old(queueForKey)
      ensures closed == old(closed) && nextTicket == old(nextTicket)
    {
      var t := chains[key][0].ticket;
      RetireKeepsTracks(chains, queueForKey, nextTicket, key);
      chains, queueForKey, settled := Popped(chains, key), Untracked(queueForKey, key, t), settled[t := outcome];
    }

    /** Deletes every entry of the persistence directory at once, outside
        the per-key queues; refused after close, deleting nothing. */
    method Clear() returns (r: Result<()>)
      modifies fs
      ensures !ready ==> r == Err(MkdirError) && fs.files == old(fs.files)
      ensures ready && closed ==> r == Err(ClosedError) && fs.files == old(fs.files)
      ensures ready && !closed ==> Update(fs.files, r) == ClearDirectory(old(fs.files), fs.faults, persistenceDir)
    {
      if !ready {
        return Err(MkdirError);
      }
      var admitted := VerifyNotClosed();
      if admitted.Err? {
        return Err(admitted.error);
      }
      r := fs.DeleteDirectoryContents(persistenceDir);
    }

    /** Marks the instance closed and hands back the tails of every queue
        at this moment: the returned promise settles once they all have.
        When the directory could not be made it rejects before closing. */
    method Close() returns (r: Result<set<Ticket>>)
      requires Valid()
      modifies this`closed
      ensures Valid()
      ensures !ready ==> r == Err(MkdirError) && closed == old(closed)
      ensures ready ==> closed && r == Ok(queueForKey.Values)
    {
      if !ready {
        return Err(MkdirError);
      }
      closed := true;
      r := Ok(queueForKey.Values);
    }
  }
}
