/**
 * The record layer: where a key's record lives, and how records are read,
 * written and deleted over a file store that is modelled as a map from paths
 * to file contents.
 */
module FileSystem {
  import opened Values

  /** The digest used to name a key's file. It is a parameter of the model and
      is not assumed to be injective: two keys may share a file. */
  type Hash = string -> string

  /** `path.join(dir, name)`. */
  datatype Path = Path(dir: string, name: string)

  /** The persisted unit: the original key beside its value. */
  datatype Record = Record(key: Key, value: Value)

  /** What a file holds, as `JSON.parse` sees its text: a record, or text
      that does not parse (a file the store did not write, or the output of
      a custom serialiser). */
  datatype Content = Encoded(record: Record) | Unparsable(text: string)

  type Files = map<Path, Content>

  /** The paths on which a file-system call fails with an error other than
      ENOENT (permissions, a full disk, a directory in the way, ...), for
      each kind of call. `fs.writeFile` opens its file with flag 'w', which
      truncates it before writing, so a write can fail after the old
      contents are gone: `write[p]` is `None` for a write that fails before
      the file is opened, and `Some(text)` for one that fails after it,
      leaving the (empty or partial) `text` behind. */
  datatype Faults = Faults(read: set<Path>, write: map<Path, Option<string>>, unlink: set<Path>)

  /** The files after a change, and how the change settled. */
  datatype Update = Update(files: Files, result: Result<()>)

  /** The default serialiser, `JSON.stringify`, which `JSON.parse` inverts. */
  function JsonStringify(record: Record): Content
  {
    Encoded(record)
  }

  /** What JSON.stringify writes always parses, and distinct records are
      written as distinct texts. */
  lemma StringifyIsInjective(a: Record, b: Record)
    ensures JsonStringify(a).Encoded? && JsonStringify(a).record == a
    ensures JsonStringify(a) == JsonStringify(b) ==> a == b
  {
  }

  /** The file that holds the record of `key`. */
  function GetFilePath(md5: Hash, dir: string, key: Key): (p: Path)
    ensures p.dir == dir
  {
    Path(dir, md5(key))
  }

  /** The current value of `key`; `defaultValue` when its file does not exist.
      Paths in `faults.read` stand for files the operating system refuses to
      access (any error code but ENOENT). */
  function ReadData(files: Files, faults: Faults, md5: Hash, dir: string, key: Key, defaultValue: Value): (r: Result<Value>)
    ensures r.Err? ==> r.error == IoError || r.error == ParseError
    ensures r.Err? <==> GetFilePath(md5, dir, key) in faults.read
                        || (GetFilePath(md5, dir, key) in files && files[GetFilePath(md5, dir, key)].Unparsable?)
    ensures GetFilePath(md5, dir, key) !in faults.read && GetFilePath(md5, dir, key) !in files ==> r == Ok(defaultValue)
    ensures GetFilePath(md5, dir, key) !in faults.read && GetFilePath(md5, dir, key) in files && files[GetFilePath(md5, dir, key)].Encoded? ==>
              r == Ok(files[GetFilePath(md5, dir, key)].record.value)
  {
    var p := GetFilePath(md5, dir, key);
    if p in faults.read then Err(IoError)
    else if p !in files then Ok(defaultValue)
    else match files[p]
      case Encoded(record) => Ok(record.value)
      case Unparsable(_) => Err(ParseError)
  }

  /** `true` when `f` and `g` agree on every path but `p`. */
  ghost predicate SameElsewhere(f: Files, g: Files, p: Path)
  {
    && (forall q :: q != p ==> (q in f <==> q in g))
    && (forall q :: q in f && q != p ==> f[q] == g[q])
  }

  /** `fs.writeFile`: the file at `p` now holds `c`, unless the path fails;
      a failure after the file was truncated leaves text that does not
      parse. */
  function WriteFile(files: Files, faults: Faults, p: Path, c: Content): (u: Update)
    ensures u.result.Ok? <==> p !in faults.write
    ensures u.result.Ok? ==> p in u.files && u.files[p] == c
    ensures u.result.Err? ==> u.result.error == IoError && (u.files == files || (p in u.files && u.files[p].Unparsable?))
    ensures SameElsewhere(u.files, files, p)
  {
    if p !in faults.write then Update(files[p := c], Ok(()))
    else match faults.write[p]
      case None => Update(files, Err(IoError))
      case Some(left) => Update(files[p := Unparsable(left)], Err(IoError))
  }

  /** `fs.unlink` as `deleteData` uses it: ENOENT counts as success, so a
      missing file and a removed one end the same way. */
  function UnlinkFile(files: Files, faults: Faults, p: Path): (u: Update)
    ensures u.result.Ok? <==> p !in faults.unlink
    ensures u.result.Ok? ==> p !in u.files
    ensures u.result.Err? ==> u.result.error == IoError && u.files == files
    ensures SameElsewhere(u.files, files, p)
  {
    if p in faults.unlink then Update(files, Err(IoError)) else Update(files - {p}, Ok(()))
  }

  /** `getPathsInDir`: every entry of the directory, whoever wrote it. */
  function EntriesIn(files: Files, dir: string): set<Path>
  {
    set p | p in files.Keys && p.dir == dir
  }

  /** `deleteDirectoryContents`: every entry is unlinked; those that fail stay
      and make the whole operation reject. */
  function ClearDirectory(files: Files, faults: Faults, dir: string): (u: Update)
    ensures u.result.Err? ==> u.result.error == IoError
    ensures forall p :: p in u.files ==> p in files && u.files[p] == files[p]
    ensures forall p :: p in files && p !in u.files ==> p.dir == dir && p !in faults.unlink
  {
    var entries := EntriesIn(files, dir);
    Update(files - (entries - faults.unlink), if entries * faults.unlink == {} then Ok(()) else Err(IoError))
  }

  /** Two keys share a file exactly when their digests collide. */
  lemma SameFileIffSameDigest(md5: Hash, dir: string, key: Key, other: Key)
    ensures GetFilePath(md5, dir, key) == GetFilePath(md5, dir, other) <==> md5(key) == md5(other)
  {
  }

  /** Reading a key that was just written with the default serialiser gives
      back exactly the value written. */
  lemma WriteThenReadRoundTrip(files: Files, faults: Faults, md5: Hash, dir: string, key: Key, data: Value, defaultValue: Value)
    requires GetFilePath(md5, dir, key) !in faults.write && GetFilePath(md5, dir, key) !in faults.read
    ensures var u := WriteFile(files, faults, GetFilePath(md5, dir, key), JsonStringify(Record(key, data)));
            u.result == Ok(()) && ReadData(u.files, faults, md5, dir, key, defaultValue) == Ok(data)
  {
  }

  /** A write that fails rejects and changes no other file; the key then
      reads either as it did before the write, or, when the file was
      truncated, as a parse error: never as a stale or a mixed record. */
  lemma FailedWriteLeavesOldValueOrParseError(files: Files, faults: Faults, md5: Hash, dir: string, key: Key, c: Content, defaultValue: Value)
    requires GetFilePath(md5, dir, key) in faults.write && GetFilePath(md5, dir, key) !in faults.read
    ensures var u := WriteFile(files, faults, GetFilePath(md5, dir, key), c);
            && u.result == Err(IoError)
            && SameElsewhere(u.files, files, GetFilePath(md5, dir, key))
            && var after := ReadData(u.files, faults, md5, dir, key, defaultValue);
               after == ReadData(files, faults, md5, dir, key, defaultValue) || after == Err(ParseError)
  {
  }

  /** Writing one key does not change what any key stored in another file
      reads as. */
  lemma WriteLeavesOtherFilesAlone(files: Files, faults: Faults, md5: Hash, dir: string, key: Key, data: Value, other: Key, defaultValue: Value)
    requires md5(other) != md5(key)
    ensures var u := WriteFile(files, faults, GetFilePath(md5, dir, key), JsonStringify(Record(key, data)));
            ReadData(u.files, faults, md5, dir, other, defaultValue) == ReadData(files, faults, md5, dir, other, defaultValue)
  {
    assert GetFilePath(md5, dir, other) != GetFilePath(md5, dir, key);
  }

  /** Keys whose digests collide share one file: reading the second key gives
      the value last written under the first. */
  lemma CollidingKeysShareARecord(files: Files, faults: Faults, md5: Hash, dir: string, key: Key, data: Value, other: Key, defaultValue: Value)
    requires md5(other) == md5(key) && GetFilePath(md5, dir, key) !in faults.write && GetFilePath(md5, dir, key) !in faults.read
    ensures var u := WriteFile(files, faults, GetFilePath(md5, dir, key), JsonStringify(Record(key, data)));
            ReadData(u.files, faults, md5, dir, other, defaultValue) == Ok(data)
  {
    assert GetFilePath(md5, dir, other) == GetFilePath(md5, dir, key);
  }

  /** Deleting a file that is not there succeeds and changes nothing. */
  lemma DeleteMissingSucceeds(files: Files, faults: Faults, p: Path)
    requires p !in files && p !in faults.unlink
    ensures UnlinkFile(files, faults, p) == Update(files, Ok(()))
  {
    assert files - {p} == files;
  }

  /** After a successful delete the key reads as the caller's default, and a
      second delete is a successful no-op. */
  lemma DeleteThenReadIsDefault(files: Files, faults: Faults, md5: Hash, dir: string, key: Key, defaultValue: Value)
    requires GetFilePath(md5, dir, key) !in faults.unlink && GetFilePath(md5, dir, key) !in faults.read
    ensures var u := UnlinkFile(files, faults, GetFilePath(md5, dir, key));
            && u.result == Ok(())
            && ReadData(u.files, faults, md5, dir, key, defaultValue) == Ok(defaultValue)
            && UnlinkFile(u.files, faults, GetFilePath(md5, dir, key)) == u
  {
    var p := GetFilePath(md5, dir, key);
    DeleteMissingSucceeds(UnlinkFile(files, faults, p).files, faults, p);
  }

  /** A successful clear leaves the directory empty, including entries the
      store never wrote, and leaves every other directory as it was. */
  lemma ClearEmptiesDirectory(files: Files, faults: Faults, dir: string)
    ensures var u := ClearDirectory(files, faults, dir);
            && (u.result == Ok(()) <==> (forall p :: p in files && p.dir == dir ==> p !in faults.unlink))
            && (u.result == Ok(()) ==> EntriesIn(u.files, dir) == {})
            && (forall p: Path :: p.dir != dir ==> (p in u.files <==> p in files))
            && (forall p :: p in u.files ==> p in files && u.files[p] == files[p])
  {
    var u := ClearDirectory(files, faults, dir);
    var entries := EntriesIn(files, dir);
    if u.result == Ok(()) {
      assert entries * faults.unlink == {};
      forall p | p in entries
        ensures p !in faults.unlink
      {
        assert p !in entries * faults.unlink;
      }
      assert entries - faults.unlink == entries;
      assert forall p :: p in u.files ==> p !in entries;
    }
    if (forall p :: p in files && p.dir == dir ==> p !in faults.unlink) {
      assert entries * faults.unlink == {};
    }
  }

  /** After a successful clear every key reads as the caller's default. */
  lemma ClearThenReadIsDefault(files: Files, faults: Faults, md5: Hash, dir: string, key: Key, defaultValue: Value)
    requires GetFilePath(md5, dir, key) !in faults.read
    requires ClearDirectory(files, faults, dir).result == Ok(())
    ensures ReadData(ClearDirectory(files, faults, dir).files, faults, md5, dir, key, defaultValue) == Ok(defaultValue)
  {
    ClearEmptiesDirectory(files, faults, dir);
    var p := GetFilePath(md5, dir, key);
    assert p !in EntriesIn(ClearDirectory(files, faults, dir).files, dir);
  }

  /**
   * The file store the operating system provides. `files` is what the
   * directory tree holds; `faults` lists the paths whose access fails with
   * an error other than ENOENT.
   */
  class FileStore {
    var files: Files
    const faults: Faults

    constructor (initial: Files, faults: Faults)
      ensures files == initial && this.faults == faults
    {
      files := initial;
      this.faults := faults;
    }

    /** `writeData`: stores `{key, value: data}`, serialised by `stringify`. */
    method WriteData(md5: Hash, dir: string, key: Key, data: Value, stringify: Record -> Content) returns (r: Result<()>)
      modifies this
      ensures Update(files, r) == WriteFile(old(files), faults, GetFilePath(md5, dir, key), stringify(Record(key, data)))
    {
      var p := GetFilePath(md5, dir, key);
      if p !in faults.write {
        files := files[p := stringify(Record(key, data))];
        r := Ok(());
      } else {
        match faults.write[p] {
          case None =>
          case Some(left) =>
            files := files[p := Unparsable(left)];
        }
        r := Err(IoError);
      }
    }

    /** `deleteData`: removes the key's file; a missing file is not an error. */
    method DeleteData(md5: Hash, dir: string, key: Key) returns (r: Result<()>)
      modifies this
      ensures Update(files, r) == UnlinkFile(old(files), faults, GetFilePath(md5, dir, key))
    {
      var p := GetFilePath(md5, dir, key);
      if p in faults.unlink {
        r := Err(IoError);
      } else {
        files := files - {p};
        r := Ok(());
      }
    }

    /** `deleteDirectoryContents`: lists the directory and unlinks every
        entry. The unlinks are independent, so one that fails does not stop
        the others; the result rejects if any failed. */
    method DeleteDirectoryContents(dir: string) returns (r: Result<()>)
      modifies this
      ensures Update(files, r) == ClearDirectory(old(files), faults, dir)
    {
      var entries := EntriesIn(files, dir);
      var remaining := entries;
      var failed := false;
      while remaining != {}
        invariant remaining <= entries
        invariant files == old(files) - ((entries - remaining) - faults.unlink)
        invariant failed <==> (entries - remaining) * faults.unlink != {}
        decreases remaining
      {
        var p :| p in remaining;
        assert entries - (remaining - {p}) == (entries - remaining) + {p};
        if p in faults.unlink {
          assert p in (entries - (remaining - {p})) * faults.unlink;
          failed := true;
        } else {
          assert (entries - (remaining - {p})) * faults.unlink == (entries - remaining) * faults.unlink;
          files := files - {p};
        }
        remaining := remaining - {p};
      }
      r := if failed then Err(IoError) else Ok(());
    }
  }
}
