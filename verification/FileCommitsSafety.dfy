/** What every interleaving of file commits keeps. */
module FileCommitsSafety {
  import opened Basics
  import opened TextPatch
  import opened PathLocks
  import opened FileCommits

  // Locks --------------------------------------------------------------------------------

  /** The calls that refer to the lock of a path. */
  function Members(threads: Threads, key: Key): set<ThreadId> {
    set t | t in threads && Registered(threads[t]) && threads[t].key == key
  }

  function Busy(threads: Threads): set<ThreadId> {
    set t | t in threads && !threads[t].Done?
  }

  /** A call refers to the lock that the map has for its path. */
  ghost predicate LocksShared(paths: Paths, threads: Threads) {
    forall t :: t in threads && Registered(threads[t]) ==>
      threads[t].key in paths && paths[threads[t].key] == threads[t].lock
  }

  ghost predicate LocksDistinct(paths: Paths, locks: LockMap, created: LockId) {
    && (forall k :: k in paths ==> paths[k] in locks)
    && (forall k, l :: k in paths && l in paths && paths[k] == paths[l] ==> k == l)
    && (forall id :: id in locks ==> id < created)
  }

  ghost predicate ReferencesCounted(paths: Paths, locks: LockMap, threads: Threads)
    requires forall k :: k in paths ==> paths[k] in locks
  {
    forall k :: k in paths ==> locks[paths[k]].references == |Members(threads, k)| > 0
  }

  ghost predicate GatesHeld(paths: Paths, locks: LockMap, threads: Threads)
    requires forall k :: k in paths ==> paths[k] in locks
  {
    && (forall k :: k in paths && locks[paths[k]].holder.Some? ==>
          var t := locks[paths[k]].holder.value;
          t in threads && Inside(threads[t]) && threads[t].key == k)
    && (forall t :: t in threads && Inside(threads[t]) ==>
          threads[t].key in paths && locks[paths[threads[t].key]].holder == Some(t))
  }

  ghost predicate LocksInv(t: Table, threads: Threads) {
    && LocksShared(t.paths, threads)
    && LocksDistinct(t.paths, t.locks, t.created)
    && ReferencesCounted(t.paths, t.locks, threads)
    && GatesHeld(t.paths, t.locks, threads)
    && t.used == |Busy(threads)| <= CAPACITY
  }

  // Moves that keep a call at its lock ---------------------------------------------------------

  /** The call stays registered at the same lock, or stays unregistered. */
  predicate StaysPut(o: Phase, p: Phase) {
    && Registered(o) == Registered(p) && (Registered(p) ==> p.key == o.key && p.lock == o.lock)
    && !o.Done? && !p.Done?
  }

  lemma SameMembers(threads: Threads, t: ThreadId, p: Phase)
    requires t in threads && StaysPut(threads[t], p)
    ensures Busy(threads[t := p]) == Busy(threads)
    ensures forall k :: Members(threads[t := p], k) == Members(threads, k)
  {}

  lemma MoveKeepsLocks(w: World, t: ThreadId, p: Phase)
    requires LocksInv(w.table, w.threads) && t in w.threads && StaysPut(w.threads[t], p)
    requires Inside(w.threads[t]) == Inside(p)
    ensures LocksInv(w.table, w.threads[t := p])
  {
    SameMembers(w.threads, t, p);
  }

  lemma TakeKeepsLocks(w: World, t: ThreadId)
    requires LocksInv(w.table, w.threads) && TakeStep(w, t).Some?
    ensures LocksInv(TakeStep(w, t).value.table, TakeStep(w, t).value.threads)
  {
    var Waiting(key, lock, request) := w.threads[t];
    SameMembers(w.threads, t, Holding(key, lock, request));
  }

  lemma UnlockKeepsLocks(w: World, t: ThreadId)
    requires LocksInv(w.table, w.threads) && UnlockStep(w, t).Some?
    ensures LocksInv(UnlockStep(w, t).value.table, UnlockStep(w, t).value.threads)
  {
    var Leaving(key, lock) := w.threads[t];
    SameMembers(w.threads, t, Draining(key, lock));
  }

  // Moves to and from a lock ----------------------------------------------------------------------

  lemma OneMoreMember(threads: Threads, t: ThreadId, p: Phase)
    requires t in threads && !Registered(threads[t]) && !threads[t].Done? && Registered(p)
    ensures Busy(threads[t := p]) == Busy(threads)
    ensures Members(threads[t := p], p.key) == Members(threads, p.key) + {t} && t !in Members(threads, p.key)
    ensures forall k :: k != p.key ==> Members(threads[t := p], k) == Members(threads, k)
  {}

  lemma NobodyAtMissingLock(paths: Paths, threads: Threads, key: Key)
    requires LocksShared(paths, threads) && key !in paths
    ensures Members(threads, key) == {}
  {
    assert forall t :: t !in Members(threads, key);
  }

  lemma RegisterKeepsLocks(w: World, t: ThreadId)
    requires LocksInv(w.table, w.threads) && RegisterStep(w, t).Some?
    ensures LocksInv(RegisterStep(w, t).value.table, RegisterStep(w, t).value.threads)
  {
    var Entered(key, request) := w.threads[t];
    var w' := RegisterStep(w, t).value;
    OneMoreMember(w.threads, t, w'.threads[t]);
    if key !in w.table.paths {
      NobodyAtMissingLock(w.table.paths, w.threads, key);
    }
  }

  lemma OneMemberLess(threads: Threads, t: ThreadId)
    requires t in threads && threads[t].Draining?
    ensures Busy(threads[t := Freeing]) == Busy(threads)
    ensures Members(threads, threads[t].key) == Members(threads[t := Freeing], threads[t].key) + {t}
    ensures t !in Members(threads[t := Freeing], threads[t].key)
    ensures forall k :: k != threads[t].key ==> Members(threads[t := Freeing], k) == Members(threads, k)
  {}

  /** The last reference is given up: nobody is left at the path. */
  lemma LastCleanupKeepsLocks(table: Table, threads: Threads, t: ThreadId)
    requires LocksInv(table, threads) && t in threads && threads[t].Draining?
    requires Members(threads[t := Freeing], threads[t].key) == {}
    ensures table.locks[threads[t].lock].references == 1
    ensures LocksInv(CleanupSection(table, threads[t].key, threads[t].lock), threads[t := Freeing])
  {
    var key, threads' := threads[t].key, threads[t := Freeing];
    OneMemberLess(threads, t);
    assert Members(threads, key) == {t};
    forall u | u in threads' && Registered(threads'[u])
      ensures threads'[u].key != key && threads'[u] == threads[u]
    {
      assert u !in Members(threads', key);
    }
  }

  lemma OtherCleanupKeepsLocks(table: Table, threads: Threads, t: ThreadId)
    requires LocksInv(table, threads) && t in threads && threads[t].Draining?
    requires Members(threads[t := Freeing], threads[t].key) != {}
    ensures LocksInv(CleanupSection(table, threads[t].key, threads[t].lock), threads[t := Freeing])
  {
    OneMemberLess(threads, t);
  }

  lemma CleanupKeepsLocks(w: World, t: ThreadId)
    requires LocksInv(w.table, w.threads) && CleanupStep(w, t).Some?
    ensures LocksInv(CleanupStep(w, t).value.table, CleanupStep(w, t).value.threads)
  {
    hide LocksInv, CleanupSection;
    if Members(w.threads[t := Freeing], w.threads[t].key) == {} {
      LastCleanupKeepsLocks(w.table, w.threads, t);
    } else {
      OtherCleanupKeepsLocks(w.table, w.threads, t);
    }
  }

  lemma NewcomerMembers(threads: Threads, t: ThreadId, p: Phase)
    requires t !in threads && !Registered(p)
    ensures Busy(threads[t := p]) == Busy(threads) + if p.Done? then {} else {t}
    ensures t !in Busy(threads)
    ensures forall k :: Members(threads[t := p], k) == Members(threads, k)
  {}

  lemma NewcomerKeepsLocks(table: Table, threads: Threads, t: ThreadId, p: Phase)
    requires LocksInv(table, threads) && t !in threads && (p.Entered? || p.Done?)
    requires p.Entered? ==> table.used < CAPACITY
    ensures LocksInv(table.(used := if p.Done? then table.used else table.used + 1), threads[t := p])
  {
    hide Members, Busy;
    NewcomerMembers(threads, t, p);
  }

  lemma EnterKeepsLocks(w: World, t: ThreadId, key: Key, request: Request)
    requires LocksInv(w.table, w.threads) && EnterStep(w, t, key, request).Some?
    ensures LocksInv(EnterStep(w, t, key, request).value.table, EnterStep(w, t, key, request).value.threads)
  {
    hide LocksInv;
    NewcomerKeepsLocks(w.table, w.threads, t, EnterStep(w, t, key, request).value.threads[t]);
  }

  lemma FreeKeepsLocks(w: World, t: ThreadId)
    requires LocksInv(w.table, w.threads) && FreeStep(w, t).Some?
    ensures LocksInv(FreeStep(w, t).value.table, FreeStep(w, t).value.threads)
  {
    LeaverMembers(w.threads, t);
  }

  lemma LeaverMembers(threads: Threads, t: ThreadId)
    requires t in threads && threads[t].Freeing?
    ensures Busy(threads) == Busy(threads[t := Done]) + {t} && t !in Busy(threads[t := Done])
    ensures forall k :: Members(threads[t := Done], k) == Members(threads, k)
  {}

  // Contents ----------------------------------------------------------------------------------------

  /** The content of a file before its version number `i`. */
  function Before(initial: Files, history: History, key: Key, i: nat): Option<Bytes>
    requires i <= |Versions(history, key)|
  {
    if i == 0 then Content(initial, key) else Versions(history, key)[i - 1].content
  }

  /** A file is what its last version is. */
  ghost predicate FilesFollow(initial: Files, files: Files, history: History) {
    forall k :: Content(files, k) == Before(initial, history, k, |Versions(history, k)|)
  }

  /** The content that a request names is the one it starts from; a create starts
      from nothing. */
  predicate Expects(r: Request, base: Option<Bytes>) {
    match r
    case Create(_) => base.None?
    case Replace(expected, _) => base == Some(expected)
    case Patch(expected, _) => base == Some(expected)
  }

  /** What a call is about to publish is what its request makes of the content it
      inspected; and unless somebody outside has interfered that still stands. */
  ghost predicate EditsFollow(threads: Threads, files: Files, touched: set<ThreadId>) {
    forall t :: t in threads && threads[t].Ready? ==>
      var p := threads[t];
      && Prepare(p.edit.base, p.request) == Some(p.edit) && Expects(p.request, p.edit.base)
      && (t !in touched ==> p.edit.base == Content(files, p.key))
  }

  /** A version that the service published comes from its base by its request;
      its base is the content before it, unless somebody outside has interfered;
      and what is created was not there. */
  ghost predicate VersionFollows(before: Option<Bytes>, v: Version) {
    v.author.Service? ==>
      var edit := Prepare(v.author.base, v.author.request);
      && edit.Some? && v.content == Some(edit.value.content)
      && Expects(v.author.request, v.author.base)
      && (edit.value.create ==> before.None?)
      && (!v.author.disturbed ==> v.author.base == before)
  }

  ghost predicate VersionsFollow(initial: Files, history: History) {
    forall k, i {:trigger Versions(history, k)[i]} :: 0 <= i < |Versions(history, k)| ==>
      VersionFollows(Before(initial, history, k, i), Versions(history, k)[i])
  }

  ghost predicate Inv(initial: Files, w: World) {
    && LocksInv(w.table, w.threads)
    && FilesFollow(initial, w.files, w.history)
    && EditsFollow(w.threads, w.files, w.touched)
    && VersionsFollow(initial, w.history)
  }

  lemma RecordingKeepsVersions(initial: Files, history: History, key: Key, v: Version)
    requires VersionsFollow(initial, history)
    requires VersionFollows(Before(initial, history, key, |Versions(history, key)|), v)
    ensures VersionsFollow(initial, Recorded(history, key, v))
  {
    var history' := Recorded(history, key, v);
    forall k, i: nat | i < |Versions(history', k)|
      ensures VersionFollows(Before(initial, history', k, i), Versions(history', k)[i])
    {
      if i < |Versions(history, k)| {
        assert Versions(history', k)[i] == Versions(history, k)[i];
        assert Before(initial, history', k, i) == Before(initial, history, k, i);
      } else {
        assert k == key && Before(initial, history', k, i) == Before(initial, history, k, i);
      }
    }
  }

  lemma RecordingKeepsFiles(initial: Files, files: Files, history: History, key: Key, v: Version, files': Files)
    requires FilesFollow(initial, files, history)
    requires Content(files', key) == v.content && forall k :: k != key ==> Content(files', k) == Content(files, k)
    ensures FilesFollow(initial, files', Recorded(history, key, v))
  {
    var history' := Recorded(history, key, v);
    forall k
      ensures Content(files', k) == Before(initial, history', k, |Versions(history', k)|)
    {
      assert k != key ==> Versions(history', k) == Versions(history, k);
    }
  }

  /** No two calls are at the same file inside its lock. */
  lemma AloneInside(table: Table, threads: Threads, t: ThreadId, u: ThreadId)
    requires LocksInv(table, threads) && t in threads && u in threads
    requires Inside(threads[t]) && Inside(threads[u]) && threads[t].key == threads[u].key
    ensures t == u
  {}

  lemma PublishKeepsEdits(w: World, t: ThreadId, files: Files)
    requires LocksInv(w.table, w.threads) && EditsFollow(w.threads, w.files, w.touched)
    requires t in w.threads && w.threads[t].Ready?
    requires forall k :: k != w.threads[t].key ==> Content(files, k) == Content(w.files, k)
    ensures EditsFollow(w.threads[t := Leaving(w.threads[t].key, w.threads[t].lock)], files, w.touched)
  {
    forall u | u in w.threads && u != t && w.threads[u].Ready?
      ensures w.threads[u].key != w.threads[t].key
    {
      if w.threads[u].key == w.threads[t].key {
        AloneInside(w.table, w.threads, t, u);
      }
    }
  }

  lemma PublishKeepsInv(initial: Files, w: World, t: ThreadId, ok: bool)
    requires Inv(initial, w) && PublishStep(w, t, ok).Some?
    ensures Inv(initial, PublishStep(w, t, ok).value)
  {
    hide LocksInv, FilesFollow, VersionsFollow, Prepare;
    var Ready(key, lock, request, edit) := w.threads[t];
    MoveKeepsLocks(w, t, Leaving(key, lock));
    if ok && !(edit.create && key in w.files) {
      var version := Version(Some(edit.content), Service(request, edit.base, t in w.touched));
      FilesAt(initial, w.files, w.history, key);
      RecordingKeepsVersions(initial, w.history, key, version);
      RecordingKeepsFiles(initial, w.files, w.history, key, version, w.files[key := edit.content]);
      PublishKeepsEdits(w, t, w.files[key := edit.content]);
    }
  }

  lemma FilesAt(initial: Files, files: Files, history: History, key: Key)
    requires FilesFollow(initial, files, history)
    ensures Content(files, key) == Before(initial, history, key, |Versions(history, key)|)
  {}

  lemma WriteKeepsInv(initial: Files, w: World, key: Key, content: Option<Bytes>)
    requires Inv(initial, w)
    ensures Inv(initial, WriteStep(w, key, content))
  {
    hide LocksInv, FilesFollow, VersionsFollow, Prepare;
    var w' := WriteStep(w, key, content);
    RecordingKeepsVersions(initial, w.history, key, Version(content, Outside));
    RecordingKeepsFiles(initial, w.files, w.history, key, Version(content, Outside), w'.files);
    forall t | t in w.threads && w.threads[t].Ready? && t !in w'.touched
      ensures w.threads[t].edit.base == Content(w'.files, w.threads[t].key)
    {
      assert !EditsFile(w.threads[t], key);
    }
  }

  lemma PreparedFromFile(file: Option<Bytes>, r: Request)
    ensures Prepare(file, r).Some? ==> Prepare(file, r).value.base == file
    ensures Prepare(file, r).Some? && Prepare(file, r).value.create ==> file.None?
    ensures Prepare(file, r).Some? ==> Expects(r, file)
  {}

  lemma InspectKeepsInv(initial: Files, w: World, t: ThreadId)
    requires Inv(initial, w) && InspectStep(w, t).Some?
    ensures Inv(initial, InspectStep(w, t).value)
  {
    hide LocksInv, FilesFollow, VersionsFollow, Prepare;
    MoveKeepsLocks(w, t, InspectStep(w, t).value.threads[t]);
    PreparedFromFile(Content(w.files, w.threads[t].key), w.threads[t].request);
  }

  /** A move that prepares nothing keeps what is known about contents. */
  lemma QuietMoveKeepsEdits(threads: Threads, files: Files, touched: set<ThreadId>, t: ThreadId, p: Phase)
    requires EditsFollow(threads, files, touched) && !p.Ready?
    ensures EditsFollow(threads[t := p], files, touched)
  {}

  lemma LockStepKeepsInv(initial: Files, w: World, e: Event)
    requires Inv(initial, w) && Next(w, e).Some?
    requires e.Enter? || e.Register? || e.Take? || e.Unlock? || e.Cleanup? || e.Free?
    ensures Inv(initial, Next(w, e).value)
  {
    hide LocksInv, FilesFollow, VersionsFollow, EditsFollow;
    QuietMoveKeepsEdits(w.threads, w.files, w.touched, e.t, Next(w, e).value.threads[e.t]);
    match e
    case Enter(t, key, request) => EnterKeepsLocks(w, t, key, request);
    case Register(t) => RegisterKeepsLocks(w, t);
    case Take(t) => TakeKeepsLocks(w, t);
    case Unlock(t) => UnlockKeepsLocks(w, t);
    case Cleanup(t) => CleanupKeepsLocks(w, t);
    case Free(t) => FreeKeepsLocks(w, t);
  }

  lemma MoveStepKeepsInv(initial: Files, w: World, e: Event)
    requires Inv(initial, w) && Next(w, e).Some? && (e.IdentityFails? || e.GiveUp? || e.Abandon?)
    ensures Inv(initial, Next(w, e).value)
  {
    hide LocksInv, FilesFollow, VersionsFollow, EditsFollow;
    QuietMoveKeepsEdits(w.threads, w.files, w.touched, e.t, Next(w, e).value.threads[e.t]);
    MoveKeepsLocks(w, e.t, Next(w, e).value.threads[e.t]);
  }

  lemma StepKeepsInv(initial: Files, w: World, e: Event)
    requires Inv(initial, w) && Next(w, e).Some?
    ensures Inv(initial, Next(w, e).value)
  {
    hide Inv;
    match e
    case Inspect(t) => InspectKeepsInv(initial, w, t);
    case Publish(t, ok) => PublishKeepsInv(initial, w, t, ok);
    case Write(key, content) => WriteKeepsInv(initial, w, key, content);
    case _ =>
      if e.IdentityFails? || e.GiveUp? || e.Abandon? {
        MoveStepKeepsInv(initial, w, e);
      } else {
        LockStepKeepsInv(initial, w, e);
      }
  }

  lemma {:induction false} EveryRunKeepsInv(initial: Files, es: seq<Event>)
    requires Run(initial, es).Some?
    ensures Inv(initial, Run(initial, es).value)
  {
    hide Next;
    if es == [] {
    } else {
      EveryRunKeepsInv(initial, es[..|es| - 1]);
      StepKeepsInv(initial, Run(initial, es[..|es| - 1]).value, es[|es| - 1]);
    }
  }
}
