/** The receive directory: temporary entries, and the move of a finished one to a free final name. */
module StorageModel {
  import opened Wrappers
  import opened Filenames
  import opened FolderPaths
  import opened FolderExtract

  datatype Data = Bytes(bytes: string) | Tree(disk: map<Path, Node>) | Special

  /** `newest` is the latest modification time of the entry and of everything in it. */
  datatype Stored = Stored(name: string, data: Data, newest: int)

  /** What is directly in the directory, by the name that the file system knows it under. */
  type Dir = map<string, Stored>

  /** `accepts` tells the names that can be created where nothing is in the way. */
  datatype FileSystem = FileSystem(pf: Platform, fold: Fold, accepts: string -> bool)

  datatype Failure =
    | BadName | NoTemp | ReadFailure | Short | BadStream(error: Error) | CannotReserve | CannotRename | TooManyNames

  const MAX_NUMBER := 9999

  function Key(fs: FileSystem, name: string, i: nat, isDir: bool): string { fs.fold(NumberedName(name, i, isDir)) }

  /** The number of the final name, from i on, when the names in `taken` are in use. */
  function Pick(fs: FileSystem, taken: set<string>, name: string, isDir: bool, i: nat): (r: Result<nat, Failure>)
    requires i <= MAX_NUMBER + 1
    ensures r.Ok? ==>
              && i <= r.value <= MAX_NUMBER && Key(fs, name, r.value, isDir) !in taken
              && fs.accepts(NumberedName(name, r.value, isDir))
              && forall j | i <= j < r.value :: Key(fs, name, j, isDir) in taken
    ensures r == Err(TooManyNames) <==> forall j | i <= j <= MAX_NUMBER :: Key(fs, name, j, isDir) in taken
    decreases MAX_NUMBER + 1 - i
  {
    if i > MAX_NUMBER then Err(TooManyNames)
    else if Key(fs, name, i, isDir) in taken then Pick(fs, taken, name, isDir, i + 1)
    else if fs.accepts(NumberedName(name, i, isDir)) then Ok(i)
    else Err(CannotReserve)
  }

  /** Whether a finished temporary entry gets a final name, and which. `stuck` says that the rename fails. */
  function Final(fs: FileSystem, dir: Dir, temp: string, name: string, isDir: bool, stuck: bool): Result<nat, Failure> {
    match Pick(fs, dir.Keys, name, isDir, 0)
    case Err(e) => Err(e)
    case Ok(i) => if fs.fold(temp) !in dir || stuck then Err(CannotRename) else Ok(i)
  }

  function Moved(fs: FileSystem, dir: Dir, temp: string, final: string): Dir
    requires fs.fold(temp) in dir
  {
    (dir - {fs.fold(temp)})[fs.fold(final) := dir[fs.fold(temp)].(name := final)]
  }

  ghost predicate WellKeyed(fs: FileSystem, dir: Dir) {
    forall k | k in dir :: fs.fold(dir[k].name) == k
  }

  predicate Stale(dir: Dir, k: string, now: int, olderThan: int)
    requires k in dir
  {
    IsPart(dir[k].name) && !dir[k].data.Special? && now - dir[k].newest >= olderThan
  }

  /** The i-th candidate is the first that is not in use, and it can be created. */
  ghost predicate IsFree(fs: FileSystem, dir: Dir, name: string, isDir: bool, i: nat) {
    && i <= 9999 && fs.fold(NumberedName(name, i, isDir)) !in dir && fs.accepts(NumberedName(name, i, isDir))
    && forall j: nat | j < i :: fs.fold(NumberedName(name, j, isDir)) in dir
  }

  lemma {:induction false} PickReaches(fs: FileSystem, taken: set<string>, n: string, isDir: bool, j: nat, i: nat)
    requires j <= i <= MAX_NUMBER && Key(fs, n, i, isDir) !in taken && fs.accepts(NumberedName(n, i, isDir))
    requires forall k: nat | j <= k < i :: Key(fs, n, k, isDir) in taken
    ensures Pick(fs, taken, n, isDir, j) == Ok(i)
    decreases i - j
  {
    if j < i {
      PickReaches(fs, taken, n, isDir, j + 1, i);
    }
  }

  lemma FreeIsFree(fs: FileSystem, dir: Dir, name: string, isDir: bool, i: nat)
    ensures IsFree(fs, dir, name, isDir, i) <==>
            && i <= MAX_NUMBER && Key(fs, name, i, isDir) !in dir.Keys && fs.accepts(NumberedName(name, i, isDir))
            && forall j: nat | j < i :: Key(fs, name, j, isDir) in dir.Keys
  {
    if forall j: nat | j < i :: Key(fs, name, j, isDir) in dir.Keys {
      forall j: nat | j < i ensures fs.fold(NumberedName(name, j, isDir)) in dir {
        assert Key(fs, name, j, isDir) in dir.Keys;
      }
    }
    if forall j: nat | j < i :: fs.fold(NumberedName(name, j, isDir)) in dir {
      forall j: nat | j < i ensures Key(fs, name, j, isDir) in dir.Keys {
        assert fs.fold(NumberedName(name, j, isDir)) in dir;
      }
    }
  }

  lemma PickMeans(fs: FileSystem, dir: Dir, name: string, isDir: bool, first: nat, i: nat)
    requires first == 0
    ensures Pick(fs, dir.Keys, name, isDir, first) == Ok(i) <==> IsFree(fs, dir, name, isDir, i)
  {
    FreeIsFree(fs, dir, name, isDir, i);
    if IsFree(fs, dir, name, isDir, i) {
      PickReaches(fs, dir.Keys, name, isDir, first, i);
    }
  }

  /** A finished entry gets the i-th name exactly if that is the first free one, the entry is there, and it can be moved. */
  lemma FinalMeans(fs: FileSystem, dir: Dir, temp: string, name: string, isDir: bool, stuck: bool, i: nat)
    ensures Final(fs, dir, temp, name, isDir, stuck) == Ok(i) <==>
            IsFree(fs, dir, name, isDir, i) && fs.fold(temp) in dir && !stuck
  {
    PickMeans(fs, dir, name, isDir, 0, i);
  }

  /** An old temporary entry: it has such a name, it is a file or a folder, and nothing touched it for long enough. */
  lemma StaleMeans(dir: Dir, k: string, now: int, olderThan: int)
    requires k in dir
    ensures Stale(dir, k, now, olderThan) <==>
            && (exists mid :: dir[k].name == ".lanxfer-" + mid + ".part" && '/' !in mid)
            && (dir[k].data.Bytes? || dir[k].data.Tree?) && dir[k].newest + olderThan <= now
  {
    PartMeans(dir[k].name);
  }
}
