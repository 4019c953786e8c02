/** Commits of text files (internal/filesystem/filesystem.go, `WriteText` and
    `PatchText`) by any number of concurrent calls, and by writers outside the
    service. A path is identified with the key of its lock, and a digest with the
    content it is the digest of; publishing a file is atomic. */
module FileCommits {
  import opened Basics
  import opened TextPatch
  import opened PathLocks

  type Files = map<Key, Bytes>

  datatype Request =
    | Create(content: Bytes)
    | Replace(expected: Bytes, content: Bytes)
    | Patch(expected: Bytes, hunks: seq<Hunk>)

  /** What a call has decided to publish, and the content it started from. */
  datatype Edit = Edit(base: Option<Bytes>, content: Bytes, create: bool)

  datatype Phase =
    | Entered(key: Key, request: Request)
    | Waiting(key: Key, lock: LockId, request: Request)
    | Holding(key: Key, lock: LockId, request: Request)
    | Ready(key: Key, lock: LockId, request: Request, edit: Edit)
    | Leaving(key: Key, lock: LockId)
    | Draining(key: Key, lock: LockId)  // the gate is free, the reference is not
    | Freeing                           // only the commit slot is left
    | Done

  type Threads = map<ThreadId, Phase>

  predicate Registered(p: Phase) { p.Waiting? || p.Holding? || p.Ready? || p.Leaving? || p.Draining? }

  predicate Inside(p: Phase) { p.Holding? || p.Ready? || p.Leaving? }

  /** History: the versions of each file. `disturbed` says that somebody outside
      had changed the file between the inspection and the commit. */
  datatype Author = Outside | Service(request: Request, base: Option<Bytes>, disturbed: bool)
  datatype Version = Version(content: Option<Bytes>, author: Author)

  type History = map<Key, seq<Version>>

  /** `touched`: the calls whose file was changed outside since they inspected it. */
  datatype World = World(
    table: Table,
    threads: Threads,
    files: Files,
    history: History,
    touched: set<ThreadId>)
  {
    function To(t: ThreadId, p: Phase): World { this.(threads := threads[t := p]) }
  }

  function NewWorld(files: Files): World { World(EmptyTable, map[], files, map[], {}) }

  function Content(files: Files, key: Key): Option<Bytes> { if key in files then Some(files[key]) else None }

  function Versions(history: History, key: Key): seq<Version> { if key in history then history[key] else [] }

  function Recorded(history: History, key: Key, v: Version): History {
    history[key := Versions(history, key) + [v]]
  }

  // One call ------------------------------------------------------------------------------

  /** What a call finds when it inspects the file; None when it is refused. */
  function Prepare(file: Option<Bytes>, r: Request): Option<Edit> {
    match r
    case Create(content) =>
      if |content| > MAX_TEXT || !IsText(content) || file.Some? then None else Some(Edit(None, content, true))
    case Replace(expected, content) =>
      if |content| > MAX_TEXT || !IsText(content) || file != Some(expected) then None
      else Some(Edit(file, content, false))
    case Patch(expected, hunks) =>
      if file != Some(expected) then None
      else match PatchText(expected, hunks)
        case Err(_) => None
        case Ok(content) => Some(Edit(file, content, false))
  }

  datatype Event =
    | Enter(t: ThreadId, key: Key, request: Request)
    | IdentityFails(t: ThreadId)
    | Register(t: ThreadId)
    | Take(t: ThreadId)
    | GiveUp(t: ThreadId)
    | Inspect(t: ThreadId)
    | Publish(t: ThreadId, ok: bool)
    | Abandon(t: ThreadId)
    | Unlock(t: ThreadId)
    | Cleanup(t: ThreadId)
    | Free(t: ThreadId)
    | Write(key: Key, content: Option<Bytes>)  // from outside the service

  function EnterStep(w: World, t: ThreadId, key: Key, request: Request): Option<World> {
    if t in w.threads then None
    else match EnterSection(w.table)
      case None => Some(w.To(t, Done))
      case Some(table) => Some(w.(table := table).To(t, Entered(key, request)))
  }

  function IdentityFailsStep(w: World, t: ThreadId): Option<World> {
    if t !in w.threads || !w.threads[t].Entered? then None else Some(w.To(t, Freeing))
  }

  function RegisterStep(w: World, t: ThreadId): Option<World> {
    if t !in w.threads || !w.threads[t].Entered? then None
    else
      var Entered(key, request) := w.threads[t];
      if key in w.table.paths && w.table.paths[key] !in w.table.locks then None
      else
        var (table, lock) := RegisterSection(w.table, key);
        Some(w.(table := table).To(t, Waiting(key, lock, request)))
  }

  function TakeStep(w: World, t: ThreadId): Option<World> {
    if t !in w.threads || !w.threads[t].Waiting? || w.threads[t].lock !in w.table.locks then None
    else
      var Waiting(key, lock, request) := w.threads[t];
      match TakeSection(w.table, lock, t)
      case None => None
      case Some(table) => Some(w.(table := table).To(t, Holding(key, lock, request)))
  }

  /** The context of a waiting call is cancelled. */
  function GiveUpStep(w: World, t: ThreadId): Option<World> {
    if t !in w.threads || !w.threads[t].Waiting? then None
    else Some(w.To(t, Draining(w.threads[t].key, w.threads[t].lock)))
  }

  function InspectStep(w: World, t: ThreadId): Option<World> {
    if t !in w.threads || !w.threads[t].Holding? then None
    else
      var Holding(key, lock, request) := w.threads[t];
      match Prepare(Content(w.files, key), request)
      case None => Some(w.To(t, Leaving(key, lock)))
      case Some(edit) => Some(w.(touched := w.touched - {t}).To(t, Ready(key, lock, request, edit)))
  }

  /** `atomicWrite`; a file that is created is linked, which never replaces one. */
  function PublishStep(w: World, t: ThreadId, ok: bool): Option<World> {
    if t !in w.threads || !w.threads[t].Ready? then None
    else
      var Ready(key, lock, request, edit) := w.threads[t];
      if !ok || (edit.create && key in w.files) then Some(w.To(t, Leaving(key, lock)))
      else
        var version := Version(Some(edit.content), Service(request, edit.base, t in w.touched));
        Some(w.(files := w.files[key := edit.content], history := Recorded(w.history, key, version))
              .To(t, Leaving(key, lock)))
  }

  /** The call fails while it holds the lock. */
  function AbandonStep(w: World, t: ThreadId): Option<World> {
    if t !in w.threads || !(w.threads[t].Holding? || w.threads[t].Ready?) then None
    else Some(w.To(t, Leaving(w.threads[t].key, w.threads[t].lock)))
  }

  function UnlockStep(w: World, t: ThreadId): Option<World> {
    if t !in w.threads || !w.threads[t].Leaving? || w.threads[t].lock !in w.table.locks then None
    else
      var Leaving(key, lock) := w.threads[t];
      Some(w.(table := ReleaseSection(w.table, lock)).To(t, Draining(key, lock)))
  }

  function CleanupStep(w: World, t: ThreadId): Option<World> {
    if t !in w.threads || !w.threads[t].Draining? || w.threads[t].lock !in w.table.locks then None
    else
      var Draining(key, lock) := w.threads[t];
      Some(w.(table := CleanupSection(w.table, key, lock)).To(t, Freeing))
  }

  function FreeStep(w: World, t: ThreadId): Option<World> {
    if t !in w.threads || !w.threads[t].Freeing? then None
    else Some(w.(table := LeaveSection(w.table)).To(t, Done))
  }

  predicate EditsFile(p: Phase, key: Key) { p.Ready? && p.key == key }

  function WriteStep(w: World, key: Key, content: Option<Bytes>): World {
    w.(files := match content case None => w.files - {key} case Some(data) => w.files[key := data],
       history := Recorded(w.history, key, Version(content, Outside)),
       touched := w.touched + set t | t in w.threads && EditsFile(w.threads[t], key))
  }

  /** One step; None when the event cannot happen now. */
  function Next(w: World, e: Event): Option<World> {
    match e
    case Enter(t, key, request) => EnterStep(w, t, key, request)
    case IdentityFails(t) => IdentityFailsStep(w, t)
    case Register(t) => RegisterStep(w, t)
    case Take(t) => TakeStep(w, t)
    case GiveUp(t) => GiveUpStep(w, t)
    case Inspect(t) => InspectStep(w, t)
    case Publish(t, ok) => PublishStep(w, t, ok)
    case Abandon(t) => AbandonStep(w, t)
    case Unlock(t) => UnlockStep(w, t)
    case Cleanup(t) => CleanupStep(w, t)
    case Free(t) => FreeStep(w, t)
    case Write(key, content) => Some(WriteStep(w, key, content))
  }

  function Run(files: Files, es: seq<Event>): Option<World> {
    if es == [] then Some(NewWorld(files))
    else match Run(files, es[..|es| - 1])
      case None => None
      case Some(w) => Next(w, es[|es| - 1])
  }
}
