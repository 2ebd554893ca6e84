/** The per-repository state store. The data directory is a map from file
    paths to what a read of that file would give: a stored record, a read
    error, or content that does not decode. Each repository's record keeps
    its current stargazer list and at most one earlier list. */
module Storage {
  import opened Wrappers
  import opened Text
  import opened Errors
  import opened GitHub

  /** `RepoData`; a `lastCheck` of None is Go's zero `time.Time`. */
  datatype RepoData = RepoData(
    owner: string,
    repo: string,
    lastCheck: Option<int>,
    stargazers: seq<Stargazer>,
    previous: Option<RepoData>)

  /** What reading a file gives: its decoded record, the error of
      `os.ReadFile`, or the error of `json.Unmarshal`. */
  datatype FileEntry =
    | Stored(data: RepoData)
    | Unreadable(readError: Error)
    | Malformed(decodeError: Error)

  type Disk = map<string, FileEntry>

  const DefaultDataDir: string := "./data"

  /** The data directory `NewFileStorage` uses for a configured path. */
  function DataDirFor(path: string): (dir: string)
    ensures dir != ""
    ensures path != "" ==> dir == path
  {
    if path == "" then DefaultDataDir else path
  }

  /** `getFilename`: `<owner>_<repo>.json` joined to the data directory by
      `filepath.Join`, which cleans the result. */
  function Filename(dataDir: string, owner: string, repo: string): string {
    JoinPath(dataDir, owner + "_" + repo + ".json")
  }

  /** The one element a repository contributes to its path. */
  function RecordName(owner: string, repo: string): string {
    owner + "_" + repo + ".json"
  }

  /** For slash-free names, the last element of the path is the record's own
      name, whatever the data directory. */
  lemma FilenameEndsInRecordName(dataDir: string, owner: string, repo: string)
    requires '/' !in owner && '/' !in repo
    ensures LastElement(Filename(dataDir, owner, repo)) == RecordName(owner, repo)
  {
    var n := RecordName(owner, repo);
    assert n[|n| - 1] == 'n';
    assert n != "." && n != "..";
    JoinPathLastElement(dataDir, n);
  }

  /** Under the default directory "./data" the leading "./" is cleaned away. */
  lemma DefaultDirFilename(owner: string, repo: string)
    requires '/' !in owner && '/' !in repo
    ensures Filename(DefaultDataDir, owner, repo) == "data/" + RecordName(owner, repo)
  {
    var n := RecordName(owner, repo);
    var path := DefaultDataDir + "/" + n;
    DefaultDirElements(n);
    assert n[|n| - 1] == 'n';
    DefaultDirResolved(n);
    JoinAppend(["data"], n, '/');
    assert path[0] == '.';
  }

  lemma DefaultDirElements(n: string)
    requires '/' !in n
    ensures Split(DefaultDataDir + "/" + n, '/') == [".", "data", n]
  {
    DefaultDirSplit();
    SplitAppend(DefaultDataDir, n, '/');
    SplitWithoutSeparator(n, '/');
  }

  lemma DefaultDirSplit()
    ensures Split(DefaultDataDir, '/') == [".", "data"]
  {
    assert DefaultDataDir == "." + "/" + "data";
    SplitAppend(".", "data", '/');
    SplitWithoutSeparator(".", '/');
    SplitWithoutSeparator("data", '/');
  }

  lemma DefaultDirResolved(n: string)
    requires n != "" && n != "." && n != ".."
    ensures Resolve([".", "data", n], false) == ["data", n]
  {
    assert Resolve(["."], false) == [] by {
      assert ["."][..0] == [];
    }
    assert Resolve([".", "data"], false) == ["data"] by {
      assert [".", "data"][..1] == ["."];
    }
    assert [".", "data", n] == [".", "data"] + [n];
    ResolveAppend([".", "data"], n, false);
  }

  /** The file name `Save` writes before renaming. */
  function TempFilename(dataDir: string, owner: string, repo: string): string {
    Filename(dataDir, owner, repo) + ".tmp"
  }

  /** The record of a repository that has never been saved. */
  function EmptyRecord(owner: string, repo: string): RepoData {
    RepoData(owner, repo, None, [], None)
  }

  /** `loadUnsafe`: the stored record, an empty record when there is no file,
      or a storage error for a file that cannot be read or decoded. */
  function LoadUnsafe(disk: Disk, dataDir: string, owner: string, repo: string): (r: Result<RepoData, Error>)
    ensures Filename(dataDir, owner, repo) !in disk ==> r == Success(EmptyRecord(owner, repo))
    ensures r.Failure? ==>
      r.error.StorageError? && r.error.operation == "load" && r.error.path == Filename(dataDir, owner, repo)
  {
    var filename := Filename(dataDir, owner, repo);
    if filename !in disk then Success(EmptyRecord(owner, repo))
    else
      match disk[filename]
      case Stored(data) => Success(data)
      case Unreadable(e) => Failure(StorageError("load", filename, "failed to read data file", Some(e)))
      case Malformed(e) => Failure(StorageError("load", filename, "failed to unmarshal data", Some(e)))
  }

  /** `Load`: `loadUnsafe` once the context is found not cancelled. */
  function LoadOn(disk: Disk, dataDir: string, cancelled: bool, owner: string, repo: string): (r: Result<RepoData, Error>)
    ensures cancelled ==> r == Failure(Canceled)
    ensures !cancelled ==> r == LoadUnsafe(disk, dataDir, owner, repo)
  {
    if cancelled then Failure(Canceled) else LoadUnsafe(disk, dataDir, owner, repo)
  }

  /** The record `Save` writes: the new list stamped with `now`, and the old
      list, when it had stargazers, kept as the previous record without its
      own history. */
  function NextRecord(existing: RepoData, owner: string, repo: string, stargazers: seq<Stargazer>, now: int): RepoData {
    RepoData(owner, repo, Some(now), stargazers,
      if |existing.stargazers| > 0
      then Some(RepoData(existing.owner, existing.repo, existing.lastCheck, existing.stargazers, None))
      else None)
  }

  /** How many levels of earlier records a record carries. */
  function HistoryDepth(d: RepoData): nat {
    match d.previous
    case None => 0
    case Some(p) => 1 + HistoryDepth(p)
  }

  /** A saved record keeps exactly one level of history, and keeps it exactly
      when the existing list had stargazers, whatever history the existing
      record itself had. */
  lemma OneLevelHistory(existing: RepoData, owner: string, repo: string, stargazers: seq<Stargazer>, now: int)
    ensures var d := NextRecord(existing, owner, repo, stargazers, now);
      && HistoryDepth(d) <= 1
      && (d.previous.Some? <==> |existing.stargazers| > 0)
      && (d.previous.Some? ==>
            d.previous.value.stargazers == existing.stargazers && d.previous.value.lastCheck == existing.lastCheck)
  {
  }

  /** The outcome of `Save`: the data directory afterwards and the error. */
  datatype SaveResult = SaveResult(disk: Disk, err: Option<Error>)

  /** `Save` on a data directory. `writeError` and `renameError` are what
      `os.WriteFile` of the temporary file and `os.Rename` return. */
  function SaveOn(disk: Disk, dataDir: string, cancelled: bool, owner: string, repo: string,
                  stargazers: seq<Stargazer>, now: int,
                  writeError: Option<Error>, renameError: Option<Error>): (r: SaveResult)
    ensures r.err.None? <==>
      !cancelled && LoadUnsafe(disk, dataDir, owner, repo).Success? && writeError.None? && renameError.None?
    ensures r.err.Some? && !cancelled ==> r.err.value.StorageError? && r.err.value.operation == "save"
    ensures r.err.None? ==> Filename(dataDir, owner, repo) in r.disk
  {
    var filename := Filename(dataDir, owner, repo);
    var tempFile := TempFilename(dataDir, owner, repo);
    if cancelled then SaveResult(disk, Some(Canceled))
    else
      match LoadUnsafe(disk, dataDir, owner, repo)
      case Failure(e) =>
        SaveResult(disk, Some(StorageError("save", filename, "failed to load existing data", Some(e))))
      case Success(existing) =>
        var record := NextRecord(existing, owner, repo, stargazers, now);
        if writeError.Some? then
          SaveResult(disk[tempFile := Malformed(writeError.value)],
                     Some(StorageError("save", tempFile, "failed to write temporary file", writeError)))
        else if renameError.Some? then
          SaveResult(disk - {tempFile},
                     Some(StorageError("save", filename, "failed to rename temporary file", renameError)))
        else
          SaveResult((disk - {tempFile})[filename := Stored(record)], None)
  }

  /** After a successful `Save(owner, repo, S)`, `Load` returns `S` with that
      owner and repository, stamped with the save time, and the earlier list
      as history when it had stargazers. */
  lemma SaveThenLoad(disk: Disk, dataDir: string, owner: string, repo: string,
                     stargazers: seq<Stargazer>, now: int, renameError: Option<Error>)
    requires SaveOn(disk, dataDir, false, owner, repo, stargazers, now, None, renameError).err.None?
    ensures var after := SaveOn(disk, dataDir, false, owner, repo, stargazers, now, None, renameError).disk;
      var existing := LoadUnsafe(disk, dataDir, owner, repo);
      && existing.Success?
      && LoadOn(after, dataDir, false, owner, repo)
         == Success(NextRecord(existing.value, owner, repo, stargazers, now))
  {
    TempDiffers(dataDir, owner, repo);
  }

  lemma TempDiffers(dataDir: string, owner: string, repo: string)
    ensures TempFilename(dataDir, owner, repo) != Filename(dataDir, owner, repo)
  {
    var f := Filename(dataDir, owner, repo);
    assert |TempFilename(dataDir, owner, repo)| == |f| + 4;
  }

  /** `Save` touches no file but the repository's own file and its temporary file. */
  lemma SaveTouchesOnlyItsFiles(disk: Disk, dataDir: string, cancelled: bool, owner: string, repo: string,
                                stargazers: seq<Stargazer>, now: int,
                                writeError: Option<Error>, renameError: Option<Error>, path: string)
    requires path != Filename(dataDir, owner, repo) && path != TempFilename(dataDir, owner, repo)
    ensures var after := SaveOn(disk, dataDir, cancelled, owner, repo, stargazers, now, writeError, renameError).disk;
      (path in after <==> path in disk) && (path in disk ==> after[path] == disk[path])
  {
  }

  /** A failed save never changes the repository's own file: a cancelled
      save, or one that cannot load the existing data, writes nothing at all;
      after a failed rename the temporary file is gone and the old file is
      still in place. */
  lemma FailedSaveKeepsOldFile(disk: Disk, dataDir: string, cancelled: bool, owner: string, repo: string,
                               stargazers: seq<Stargazer>, now: int,
                               writeError: Option<Error>, renameError: Option<Error>)
    ensures var r := SaveOn(disk, dataDir, cancelled, owner, repo, stargazers, now, writeError, renameError);
      var f := Filename(dataDir, owner, repo);
      && (r.err.Some? ==> (f in r.disk <==> f in disk) && (f in disk ==> r.disk[f] == disk[f]))
      && (cancelled || LoadUnsafe(disk, dataDir, owner, repo).Failure? ==> r.disk == disk && r.err.Some?)
      && (!cancelled && LoadUnsafe(disk, dataDir, owner, repo).Success? && writeError.None? && renameError.Some?
          ==> r.disk == disk - {TempFilename(dataDir, owner, repo)}
              && r.err == Some(StorageError("save", f, "failed to rename temporary file", renameError)))
  {
    TempDiffers(dataDir, owner, repo);
  }

  /** Two successful saves in a row: the current list is the second, the
      history is the first (when it had stargazers) and nothing older. */
  lemma TwoSaves(disk: Disk, dataDir: string, owner: string, repo: string,
                 first: seq<Stargazer>, t1: int, second: seq<Stargazer>, t2: int)
    requires LoadUnsafe(disk, dataDir, owner, repo).Success?
    ensures var d1 := SaveOn(disk, dataDir, false, owner, repo, first, t1, None, None).disk;
      var d2 := SaveOn(d1, dataDir, false, owner, repo, second, t2, None, None).disk;
      var r := LoadOn(d2, dataDir, false, owner, repo);
      && r.Success?
      && r.value.stargazers == second && r.value.lastCheck == Some(t2)
      && (|first| > 0 ==> r.value.previous == Some(RepoData(owner, repo, Some(t1), first, None)))
      && (|first| == 0 ==> r.value.previous == None)
  {
    TempDiffers(dataDir, owner, repo);
    SaveThenLoad(disk, dataDir, owner, repo, first, t1, None);
    var d1 := SaveOn(disk, dataDir, false, owner, repo, first, t1, None, None).disk;
    SaveThenLoad(d1, dataDir, owner, repo, second, t2, None);
  }

  // ---------------------------------------------------------------------------
  // GetNewStargazers

  /** The IDs of a list of stargazers. */
  function IdsOf(s: seq<Stargazer>): set<int> {
    if s == [] then {} else IdsOf(s[..|s| - 1]) + {s[|s| - 1].id}
  }

  lemma {:induction false} IdsOfMembers(s: seq<Stargazer>, id: int)
    ensures id in IdsOf(s) <==> exists k :: 0 <= k < |s| && s[k].id == id
  {
    if s != [] {
      IdsOfMembers(s[..|s| - 1], id);
      if id in IdsOf(s[..|s| - 1]) {
        var k :| 0 <= k < |s| - 1 && s[..|s| - 1][k].id == id;
        assert s[k].id == id;
      }
      if exists k :: 0 <= k < |s| && s[k].id == id {
        var k :| 0 <= k < |s| && s[k].id == id;
        if k < |s| - 1 {
          assert s[..|s| - 1][k].id == id;
        }
      }
    }
  }

  /** The stargazers of `s` whose ID is not in `ids`, in the order of `s`. */
  function FilterNew(s: seq<Stargazer>, ids: set<int>): seq<Stargazer> {
    if s == [] then []
    else FilterNew(s[..|s| - 1], ids) + (if s[|s| - 1].id in ids then [] else [s[|s| - 1]])
  }

  /** Exactly the stargazers with an unknown ID are kept. */
  lemma {:induction false} FilterNewMembers(s: seq<Stargazer>, ids: set<int>, x: Stargazer)
    ensures x in FilterNew(s, ids) <==> x in s && x.id !in ids
  {
    if s != [] {
      FilterNewMembers(s[..|s| - 1], ids, x);
      assert s == s[..|s| - 1] + [s[|s| - 1]];
    }
  }

  /** Filtering splits over concatenation, so the kept stargazers stay in
      their observed order. */
  lemma {:induction false} FilterNewAppend(a: seq<Stargazer>, b: seq<Stargazer>, ids: set<int>)
    ensures FilterNew(a + b, ids) == FilterNew(a, ids) + FilterNew(b, ids)
    decreases |b|
  {
    if b == [] {
      assert a + b == a;
    } else {
      var b' := b[..|b| - 1];
      assert (a + b)[..|a + b| - 1] == a + b';
      FilterNewAppend(a, b', ids);
    }
  }

  /** With no known ID among them, every stargazer is new. */
  lemma {:induction false} FilterNewNoneKnown(s: seq<Stargazer>, ids: set<int>)
    requires forall k :: 0 <= k < |s| ==> s[k].id !in ids
    ensures FilterNew(s, ids) == s
  {
    if s != [] {
      FilterNewNoneKnown(s[..|s| - 1], ids);
    }
  }

  /** `GetNewStargazers` on a data directory. The two flags are the context's
      state at the load and at the check after it. */
  function NewStargazersOn(disk: Disk, dataDir: string, cancelledAtLoad: bool, cancelledAfter: bool,
                           owner: string, repo: string, current: seq<Stargazer>): (r: Result<seq<Stargazer>, Error>)
    ensures cancelledAtLoad ==> r.Failure?
    ensures r.Failure? ==> r.error == Canceled || (r.error.Wrapped? && r.error.prefix == "failed to load repo data")
  {
    match LoadOn(disk, dataDir, cancelledAtLoad, owner, repo)
    case Failure(e) => Failure(Wrapped("failed to load repo data", e))
    case Success(data) =>
      if |data.stargazers| == 0 then Success(current)
      else if cancelledAfter then Failure(Canceled)
      else Success(FilterNew(current, IdsOf(data.stargazers)))
  }

  /** On first sight (no stored stargazers) everything observed is new;
      otherwise the new stargazers are exactly those observed whose ID is not
      stored, in observed order. */
  lemma NewStargazersCharacterized(disk: Disk, dataDir: string, cancelledAfter: bool,
                                   owner: string, repo: string, current: seq<Stargazer>, x: Stargazer)
    requires LoadUnsafe(disk, dataDir, owner, repo).Success?
    ensures var stored := LoadUnsafe(disk, dataDir, owner, repo).value.stargazers;
      var r := NewStargazersOn(disk, dataDir, false, cancelledAfter, owner, repo, current);
      && (stored == [] ==> r == Success(current))
      && (stored != [] && !cancelledAfter ==>
            r.Success? && (x in r.value <==> x in current && forall k :: 0 <= k < |stored| ==> stored[k].id != x.id))
  {
    var stored := LoadUnsafe(disk, dataDir, owner, repo).value.stargazers;
    FilterNewMembers(current, IdsOf(stored), x);
    IdsOfMembers(stored, x.id);
  }

  /** Right after saving a non-empty list, checking against a later list
      reports exactly the unseen IDs; checking the same list again reports
      nothing. */
  lemma NewAfterSave(disk: Disk, dataDir: string, owner: string, repo: string,
                     saved: seq<Stargazer>, now: int, later: seq<Stargazer>)
    requires |saved| > 0
    requires LoadUnsafe(disk, dataDir, owner, repo).Success?
    ensures var after := SaveOn(disk, dataDir, false, owner, repo, saved, now, None, None).disk;
      && NewStargazersOn(after, dataDir, false, false, owner, repo, later)
         == Success(FilterNew(later, IdsOf(saved)))
      && NewStargazersOn(after, dataDir, false, false, owner, repo, saved) == Success([])
  {
    SaveThenLoad(disk, dataDir, owner, repo, saved, now, None);
    forall x | x in FilterNew(saved, IdsOf(saved)) ensures false {
      FilterNewMembers(saved, IdsOf(saved), x);
      var k :| 0 <= k < |saved| && saved[k] == x;
      IdsOfMembers(saved, x.id);
    }
    assert FilterNew(saved, IdsOf(saved)) == [] by {
      if FilterNew(saved, IdsOf(saved)) != [] {
        assert FilterNew(saved, IdsOf(saved))[0] in FilterNew(saved, IdsOf(saved));
      }
    }
  }

  /** `GetLastCheckTime`: the stored check time, or the load error. */
  function GetLastCheckTime(disk: Disk, dataDir: string, cancelled: bool, owner: string, repo: string): (r: Result<Option<int>, Error>)
    ensures Filename(dataDir, owner, repo) !in disk && !cancelled ==> r == Success(None)
  {
    match LoadOn(disk, dataDir, cancelled, owner, repo)
    case Success(d) => Success(d.lastCheck)
    case Failure(e) => Failure(e)
  }

  /** The storage section of the configuration. */
  datatype StorageConfig = StorageConfig(kind: string, path: string)

  /** `NewStorageFromConfig`: the data directory of the new file store, for
      type "file" or ""; any other type is refused. */
  function NewStorageFromConfig(cfg: StorageConfig): (r: Result<string, Error>)
    ensures r.Success? <==> cfg.kind == "file" || cfg.kind == ""
    ensures r.Success? ==> r.value == DataDirFor(cfg.path)
    ensures r.Failure? ==> r.error == StorageError("create", "", "unsupported storage type: " + cfg.kind, None)
  {
    if cfg.kind == "file" || cfg.kind == "" then Success(DataDirFor(cfg.path))
    else Failure(StorageError("create", "", "unsupported storage type: " + cfg.kind, None))
  }

  /** GitHub logins never contain '_' or '/', and repository names never
      contain '/', so distinct repositories never share a file. */
  lemma FilenameInjective(dataDir: string, o1: string, r1: string, o2: string, r2: string)
    requires '_' !in o1 && '_' !in o2
    requires '/' !in o1 && '/' !in r1 && '/' !in o2 && '/' !in r2
    requires Filename(dataDir, o1, r1) == Filename(dataDir, o2, r2)
    ensures o1 == o2 && r1 == r2
  {
    var n1 := RecordName(o1, r1);
    var n2 := RecordName(o2, r2);
    FilenameEndsInRecordName(dataDir, o1, r1);
    FilenameEndsInRecordName(dataDir, o2, r2);
    RecordNameInjective(o1, r1, o2, r2);
  }

  lemma RecordNameInjective(o1: string, r1: string, o2: string, r2: string)
    requires '_' !in o1 && '_' !in o2
    requires RecordName(o1, r1) == RecordName(o2, r2)
    ensures o1 == o2 && r1 == r2
  {
    var n1 := RecordName(o1, r1);
    var n2 := RecordName(o2, r2);
    assert n1 == o1 + "_" + (r1 + ".json") && n2 == o2 + "_" + (r2 + ".json");
    SameOwnerLength(o1, r1 + ".json", o2, r2 + ".json");
    assert o1 == n1[..|o1|] == n2[..|o2|] == o2;
    assert r1 == n1[|o1| + 1..|n1| - 5];
    assert r2 == n2[|o2| + 1..|n2| - 5];
  }

  /** The first '_' ends the owner part of `<owner>_<rest>`. */
  lemma SameOwnerLength(o1: string, x1: string, o2: string, x2: string)
    requires '_' !in o1 && '_' !in o2
    requires o1 + "_" + x1 == o2 + "_" + x2
    ensures |o1| == |o2|
  {
    FirstIndexAfter(o1, x1, '_');
    FirstIndexAfter(o2, x2, '_');
  }

  /** The position of the first `c` in `s`, or `|s|` when there is none. */
  function FirstIndex(s: string, c: char): nat {
    if s == [] || s[0] == c then 0 else 1 + FirstIndex(s[1..], c)
  }

  lemma {:induction false} FirstIndexAfter(o: string, x: string, c: char)
    requires c !in o
    ensures FirstIndex(o + [c] + x, c) == |o|
  {
    if o != [] {
      assert (o + [c] + x)[1..] == o[1..] + [c] + x;
      FirstIndexAfter(o[1..], x, c);
    }
  }

  /** With '_' allowed in the owner, two repositories can share a file. */
  lemma FilenameCollision(dataDir: string)
    ensures Filename(dataDir, "a_b", "c") == Filename(dataDir, "a", "b_c")
  {
    assert RecordName("a_b", "c") == RecordName("a", "b_c");
  }

  /** With '/' allowed in the owner, cleaning the path lets an owner that
      climbs out of a directory share a file with another. */
  lemma FilenameTraversalCollision(dataDir: string)
    ensures Filename(dataDir, "a/../x", "b") == Filename(dataDir, "x", "b")
  {
    var n := RecordName("x", "b");
    assert RecordName("a/../x", "b") == "a" + "/" + ".." + "/" + n;
    assert n[|n| - 1] == 'n';
    JoinPathClimb(dataDir, "a", n);
  }

  /** `FileStorage`: the data directory and (standing for the file system)
      what its files hold. */
  class FileStorage {
    const dataDir: string
    var files: Disk

    /** `NewFileStorage`, over a data directory that holds `disk`. */
    constructor (dataDir: string, disk: Disk)
      ensures this.dataDir == DataDirFor(dataDir) && files == disk
    {
      this.dataDir := DataDirFor(dataDir);
      files := disk;
    }

    function Load(cancelled: bool, owner: string, repo: string): (r: Result<RepoData, Error>)
      reads this
      ensures !cancelled && Filename(dataDir, owner, repo) !in files ==> r == Success(EmptyRecord(owner, repo))
    {
      LoadOn(files, dataDir, cancelled, owner, repo)
    }

    /** `Save`: load the existing record, write the new one to the temporary
        file, then rename it over the repository's file. */
    method Save(cancelled: bool, owner: string, repo: string, stargazers: seq<Stargazer>, now: int,
                writeError: Option<Error>, renameError: Option<Error>)
      returns (err: Option<Error>)
      modifies this
      ensures SaveResult(files, err)
           == SaveOn(old(files), dataDir, cancelled, owner, repo, stargazers, now, writeError, renameError)
    {
      var filename := Filename(dataDir, owner, repo);
      if cancelled {
        return Some(Canceled);
      }
      var existing := LoadUnsafe(files, dataDir, owner, repo);
      if existing.Failure? {
        return Some(StorageError("save", filename, "failed to load existing data", Some(existing.error)));
      }
      var record := NextRecord(existing.value, owner, repo, stargazers, now);
      var tempFile := filename + ".tmp";
      if writeError.Some? {
        files := files[tempFile := Malformed(writeError.value)];
        return Some(StorageError("save", tempFile, "failed to write temporary file", writeError));
      }
      files := files[tempFile := Stored(record)];
      if renameError.Some? {
        files := files - {tempFile};
        return Some(StorageError("save", filename, "failed to rename temporary file", renameError));
      }
      files := (files - {tempFile})[filename := Stored(record)];
      err := None;
    }

    /** `GetNewStargazers`: gather the stored IDs, then keep the observed
        stargazers whose ID is not among them. */
    method GetNewStargazers(cancelledAtLoad: bool, cancelledAfter: bool, owner: string, repo: string,
                            current: seq<Stargazer>)
      returns (r: Result<seq<Stargazer>, Error>)
      ensures r == NewStargazersOn(files, dataDir, cancelledAtLoad, cancelledAfter, owner, repo, current)
    {
      var loaded := Load(cancelledAtLoad, owner, repo);
      if loaded.Failure? {
        return Failure(Wrapped("failed to load repo data", loaded.error));
      }
      var stored := loaded.value.stargazers;
      if |stored| == 0 {
        return Success(current);
      }
      if cancelledAfter {
        return Failure(Canceled);
      }
      var existing: set<int> := {};
      var i := 0;
      while i < |stored|
        invariant 0 <= i <= |stored|
        invariant existing == IdsOf(stored[..i])
      {
        assert stored[..i + 1][..i] == stored[..i];
        existing := existing + {stored[i].id};
        i := i + 1;
      }
      assert stored[..|stored|] == stored;
      var newOnes: seq<Stargazer> := [];
      var j := 0;
      while j < |current|
        invariant 0 <= j <= |current|
        invariant newOnes == FilterNew(current[..j], existing)
      {
        assert current[..j + 1][..j] == current[..j];
        if current[j].id !in existing {
          newOnes := newOnes + [current[j]];
        }
        j := j + 1;
      }
      assert current[..|current|] == current;
      r := Success(newOnes);
    }
  }
}
