/** The per-path locks of the filesystem service (internal/filesystem/filesystem.go,
    `acquire`): a lock exists while somebody refers to it. */
module PathLocks {
  import opened Basics

  type Key = int
  type LockId = int
  type ThreadId = int

  const CAPACITY := 256

  /** A lock object; `holder` is the thread that has filled its gate. */
  datatype Lock = Lock(references: int, holder: Option<ThreadId>)

  type Paths = map<Key, LockId>
  type LockMap = map<LockId, Lock>

  /** `created` numbers the lock objects, `used` counts the commit slots taken. */
  datatype Table = Table(paths: Paths, locks: LockMap, created: LockId, used: int)

  const EmptyTable := Table(map[], map[], 0, 0)

  // The sections of acquire and of the function it returns --------------------------------

  /** The commit slot, without waiting for one. */
  function EnterSection(t: Table): Option<Table> {
    if t.used >= CAPACITY then None else Some(t.(used := t.used + 1))
  }

  function LeaveSection(t: Table): Table { t.(used := t.used - 1) }

  /** Finding or making the lock of a path, and referring to it. */
  function RegisterSection(t: Table, key: Key): (Table, LockId)
    requires key in t.paths ==> t.paths[key] in t.locks
  {
    if key in t.paths then
      var id := t.paths[key];
      (t.(locks := t.locks[id := t.locks[id].(references := t.locks[id].references + 1)]), id)
    else
      (t.(paths := t.paths[key := t.created], locks := t.locks[t.created := Lock(1, None)], created := t.created + 1),
       t.created)
  }

  /** The send on the gate of the lock, which holds one. */
  function TakeSection(t: Table, id: LockId, who: ThreadId): Option<Table>
    requires id in t.locks
  {
    if t.locks[id].holder.Some? then None
    else Some(t.(locks := t.locks[id := t.locks[id].(holder := Some(who))]))
  }

  function ReleaseSection(t: Table, id: LockId): Table
    requires id in t.locks
  {
    t.(locks := t.locks[id := t.locks[id].(holder := None)])
  }

  /** The caller no longer refers to the lock; the last one drops the entry. */
  function CleanupSection(t: Table, key: Key, id: LockId): Table
    requires id in t.locks
  {
    var left := t.locks[id].references - 1;
    t.(locks := t.locks[id := t.locks[id].(references := left)],
       paths := if left == 0 then t.paths - {key} else t.paths)
  }

  // The object ----------------------------------------------------------------------------

  class Service {
    var paths: Paths
    var locks: LockMap
    var created: LockId
    var used: int

    ghost function View(): Table
      reads this
    {
      Table(paths, locks, created, used)
    }

    constructor ()
      ensures View() == EmptyTable
    {
      paths, locks, created, used := map[], map[], 0, 0;
    }

    method Enter() returns (ok: bool)
      modifies this`used
      ensures ok == EnterSection(old(View())).Some?
      ensures View() == if ok then EnterSection(old(View())).value else old(View())
    {
      if used >= CAPACITY {
        return false;
      }
      used := used + 1;
      ok := true;
    }

    method Leave()
      modifies this`used
      ensures View() == LeaveSection(old(View()))
    {
      used := used - 1;
    }

    method Register(key: Key) returns (lock: LockId)
      requires key in paths ==> paths[key] in locks
      modifies this
      ensures (View(), lock) == RegisterSection(old(View()), key)
    {
      if key !in paths {
        paths := paths[key := created];
        locks := locks[created := Lock(0, None)];
        created := created + 1;
      }
      lock := paths[key];
      locks := locks[lock := locks[lock].(references := locks[lock].references + 1)];
      assert old(key !in paths) ==> locks == old(locks)[lock := Lock(1, None)];
    }

    method Take(lock: LockId, who: ThreadId) returns (ok: bool)
      requires lock in locks
      modifies this`locks
      ensures ok == TakeSection(old(View()), lock, who).Some?
      ensures View() == if ok then TakeSection(old(View()), lock, who).value else old(View())
    {
      ok := locks[lock].holder.None?;
      if ok {
        locks := locks[lock := locks[lock].(holder := Some(who))];
      }
    }

    method Release(lock: LockId)
      requires lock in locks
      modifies this`locks
      ensures View() == ReleaseSection(old(View()), lock)
    {
      locks := locks[lock := locks[lock].(holder := None)];
    }

    method Cleanup(key: Key, lock: LockId)
      requires lock in locks
      modifies this
      ensures View() == CleanupSection(old(View()), key, lock)
    {
      locks := locks[lock := locks[lock].(references := locks[lock].references - 1)];
      if locks[lock].references == 0 {
        paths := paths - {key};
      }
    }
  }
}
