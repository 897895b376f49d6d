/** The persisted cache of session credentials (`load_state` and
    `store_state`, lib/swaj/app.py:139-161): one whole-file snapshot mapping
    a cache key (an MFA serial or a role ARN) to a credential set. */
module StateStore {
  import opened Wrappers
  import opened Failures

  /** One cached credential set: variable name to value. */
  type Entry = map<string, string>

  /** The whole cache, keyed by MFA serial or role ARN. */
  type CacheMap = map<string, Entry>

  /** What the state file holds: no file, a snapshot, or text that does not parse. */
  datatype Disk = Absent | Snapshot(state: CacheMap) | Unparseable

  /** Reading the file back: no file is the empty cache, a snapshot is the
      map it holds, and only text that does not parse fails. */
  function Loaded(d: Disk): (r: Result<CacheMap, Failure>)
    ensures r.Failure? <==> d.Unparseable?
    ensures r.Failure? ==> r.error == CorruptState
    ensures d.Absent? ==> r == Success(map[])
    ensures d.Snapshot? ==> r == Success(d.state)
  {
    match d
    case Absent => Success(map[])
    case Snapshot(s) => Success(s)
    case Unparseable => Failure(CorruptState)
  }

  class Store {
    var disk: Disk

    constructor (disk: Disk)
      ensures this.disk == disk
    {
      this.disk := disk;
    }

    /** `load_state`: a missing file is an empty cache; a file that does not
        parse raises. */
    method Load() returns (r: Result<CacheMap, Failure>)
      ensures r == Loaded(disk)
      ensures disk.Absent? ==> r == Success(map[])
      ensures disk.Snapshot? ==> r == Success(disk.state)
      ensures disk.Unparseable? ==> r == Failure(CorruptState)
    {
      match disk {
        case Absent => r := Success(map[]);
        case Snapshot(s) => r := Success(s);
        case Unparseable => r := Failure(CorruptState);
      }
    }

    /** `store_state`: under the lock, replace the file with the whole map;
        when the lock cannot be taken the call fails and the file is as it was. */
    method Save(state: CacheMap, acquired: bool) returns (o: Outcome<Failure>)
      modifies this
      ensures acquired ==> o == Pass && disk == Snapshot(state)
      ensures !acquired ==> o == Fail(LockFailed) && disk == old(disk)
    {
      if acquired {
        disk := Snapshot(state);
        o := Pass;
      } else {
        o := Fail(LockFailed);
      }
    }
  }

  /** Storing a cache under the lock and loading the file back yields that
      same cache. */
  method SaveThenLoad(store: Store, state: CacheMap) returns (r: Result<CacheMap, Failure>)
    modifies store
    ensures r == Success(state)
    ensures store.disk == Snapshot(state)
  {
    var o := store.Save(state, true);
    r := store.Load();
  }
}
