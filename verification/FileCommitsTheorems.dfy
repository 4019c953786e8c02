/** The promises of concurrent file commits, over every run. */
module FileCommitsTheorems {
  import opened Basics
  import opened TextPatch
  import opened PathLocks
  import opened FileCommits
  import opened FileCommitsSafety

  // Locks ------------------------------------------------------------------------------

  /** The map holds a lock for a path exactly while some call refers to it, counts
      these calls, and all of them contend on that lock. */
  lemma LocksAreSharedWhileNeeded(files: Files, es: seq<Event>, key: Key)
    requires Run(files, es).Some?
    ensures
      var w := Run(files, es).value;
      && (key in w.table.paths <==> Members(w.threads, key) != {})
      && (key in w.table.paths ==>
            && w.table.paths[key] in w.table.locks
            && w.table.locks[w.table.paths[key]].references == |Members(w.threads, key)|
            && forall t :: t in Members(w.threads, key) ==> w.threads[t].lock == w.table.paths[key])
      && |Busy(w.threads)| <= CAPACITY
  {
    EveryRunKeepsInv(files, es);
    var w := Run(files, es).value;
    assert key !in w.table.paths ==> Members(w.threads, key) == {} by {
      if key !in w.table.paths {
        NobodyAtMissingLock(w.table.paths, w.threads, key);
      }
    }
  }

  /** No two calls are inside the lock of one path; calls for different paths
      never share a lock. */
  lemma LocksExclude(files: Files, es: seq<Event>, t: ThreadId, u: ThreadId)
    requires Run(files, es).Some?
    requires t in Run(files, es).value.threads && u in Run(files, es).value.threads
    requires Registered(Run(files, es).value.threads[t]) && Registered(Run(files, es).value.threads[u])
    ensures
      var threads := Run(files, es).value.threads;
      && (threads[t].lock == threads[u].lock <==> threads[t].key == threads[u].key)
      && (Inside(threads[t]) && Inside(threads[u]) && threads[t].key == threads[u].key ==> t == u)
  {
    EveryRunKeepsInv(files, es);
  }

  /** When all calls are done, no lock and no commit slot is retained. */
  lemma NothingIsRetained(files: Files, es: seq<Event>)
    requires Run(files, es).Some?
    requires forall t :: t in Run(files, es).value.threads ==> Run(files, es).value.threads[t].Done?
    ensures Run(files, es).value.table.paths == map[] && Run(files, es).value.table.used == 0
  {
    EveryRunKeepsInv(files, es);
    var w := Run(files, es).value;
    assert forall t :: t !in Busy(w.threads);
    assert |Busy(w.threads)| == 0;
    forall key
      ensures key !in w.table.paths
    {
      LocksAreSharedWhileNeeded(files, es, key);
      assert forall t :: t !in Members(w.threads, key);
    }
  }

  /** A new call is let in exactly while fewer than 256 calls are at work. */
  lemma CallsEnterExactly(files: Files, es: seq<Event>, t: ThreadId, key: Key, request: Request)
    requires Run(files, es).Some? && t !in Run(files, es).value.threads
    ensures
      var w := Run(files, es).value;
      var w' := Next(w, Enter(t, key, request));
      && w'.Some? && t in w'.value.threads && w'.value.files == w.files && w'.value.history == w.history
      && w'.value.threads[t] == (if |Busy(w.threads)| < 256 then Entered(key, request) else Done)
  {
    hide FilesFollow, EditsFollow, VersionsFollow;
    EveryRunKeepsInv(files, es);
  }

  /** A waiting call gets the lock of its path exactly when no call is inside it. */
  lemma LocksAreGrantedExactly(files: Files, es: seq<Event>, t: ThreadId)
    requires Run(files, es).Some? && t in Run(files, es).value.threads && Run(files, es).value.threads[t].Waiting?
    ensures
      var w := Run(files, es).value;
      && (Next(w, Take(t)).Some? <==>
            forall u :: u in w.threads && Inside(w.threads[u]) ==> w.threads[u].key != w.threads[t].key)
      && (Next(w, Take(t)).Some? ==>
            var p := w.threads[t];
            Next(w, Take(t)).value.threads[t] == Holding(p.key, p.lock, p.request))
  {
    hide FilesFollow, EditsFollow, VersionsFollow, ReferencesCounted;
    EveryRunKeepsInv(files, es);
  }

  // One call ----------------------------------------------------------------------------

  /** The request can be carried out on this file. */
  predicate Suits(file: Option<Bytes>, r: Request) {
    match r
    case Create(content) => file.None? && |content| <= MAX_TEXT && IsText(content)
    case Replace(expected, content) => file == Some(expected) && |content| <= MAX_TEXT && IsText(content)
    case Patch(expected, hunks) => file == Some(expected) && PatchText(expected, hunks).Ok?
  }

  /** What a request makes of a file. */
  function Apply(file: Option<Bytes>, r: Request): Option<Bytes> {
    match r
    case Create(content) => Some(content)
    case Replace(_, content) => Some(content)
    case Patch(_, hunks) =>
      if file.None? then None
      else match PatchText(file.value, hunks)
        case Ok(patched) => Some(patched)
        case Err(_) => None
  }

  lemma PreparesWhatSuits(file: Option<Bytes>, r: Request)
    ensures Prepare(file, r).Some? <==> Suits(file, r)
    ensures Prepare(file, r).Some? ==>
      var edit := Prepare(file, r).value;
      edit.base == file && Some(edit.content) == Apply(file, r) && edit.create == r.Create?
  {
    hide PatchText, IsText;
  }

  /** A call that holds the lock goes on to publish exactly if its request suits the
      file that it finds; inspecting changes no file. */
  lemma InspectionDecides(w: World, t: ThreadId)
    requires t in w.threads && w.threads[t].Holding?
    ensures
      var p := w.threads[t];
      var w' := Next(w, Inspect(t));
      && w'.Some? && t in w'.value.threads && w'.value.files == w.files && w'.value.history == w.history
      && (w'.value.threads[t].Ready? <==> Suits(Content(w.files, p.key), p.request))
      && (!w'.value.threads[t].Ready? ==> w'.value.threads[t] == Leaving(p.key, p.lock))
  {
    hide Prepare, Suits;
    PreparesWhatSuits(Content(w.files, w.threads[t].key), w.threads[t].request);
  }

  lemma ReadyToPublish(files: Files, es: seq<Event>, t: ThreadId)
    requires Run(files, es).Some? && t in Run(files, es).value.threads && Run(files, es).value.threads[t].Ready?
    ensures
      var p := Run(files, es).value.threads[t];
      && Suits(p.edit.base, p.request) && Some(p.edit.content) == Apply(p.edit.base, p.request)
      && p.edit.create == p.request.Create?
  {
    hide Prepare, LocksInv, FilesFollow, VersionsFollow, Suits, Apply;
    EveryRunKeepsInv(files, es);
    var p := Run(files, es).value.threads[t];
    PreparesWhatSuits(p.edit.base, p.request);
  }

  /** Publishing writes what the request makes of the file that was inspected, to that
      file alone, unless the write fails or a create finds a file by now. */
  lemma PublicationDecides(files: Files, es: seq<Event>, t: ThreadId, ok: bool)
    requires Run(files, es).Some? && t in Run(files, es).value.threads && Run(files, es).value.threads[t].Ready?
    ensures
      var w := Run(files, es).value;
      var p := w.threads[t];
      var w' := Next(w, Publish(t, ok));
      && w'.Some? && t in w'.value.threads && w'.value.threads[t] == Leaving(p.key, p.lock)
      && if ok && !(p.request.Create? && p.key in w.files)
         then
           && Content(w'.value.files, p.key) == Apply(p.edit.base, p.request)
           && Content(w'.value.files, p.key).Some?
           && (forall k :: k != p.key ==> Content(w'.value.files, k) == Content(w.files, k))
           && |Versions(w'.value.history, p.key)| == |Versions(w.history, p.key)| + 1
         else w'.value.files == w.files && w'.value.history == w.history
  {
    hide Apply, Suits, Prepare;
    ReadyToPublish(files, es, t);
  }

  // Commits -----------------------------------------------------------------------------

  ghost predicate NobodyOutside(es: seq<Event>) { forall i :: 0 <= i < |es| ==> !es[i].Write? }

  /** Without writers outside, nothing is ever disturbed. */
  ghost predicate Undisturbed(w: World) {
    && w.touched == {}
    && forall k, i {:trigger Versions(w.history, k)[i]} :: 0 <= i < |Versions(w.history, k)| ==>
         Versions(w.history, k)[i].author.Service? && !Versions(w.history, k)[i].author.disturbed
  }

  lemma {:induction false} RunsAloneUndisturbed(files: Files, es: seq<Event>)
    requires Run(files, es).Some? && NobodyOutside(es)
    ensures Undisturbed(Run(files, es).value)
  {
    hide Prepare;
    if es == [] {
    } else {
      var n := |es| - 1;
      RunsAloneUndisturbed(files, es[..n]);
      StepAloneUndisturbed(Run(files, es[..n]).value, es[n]);
    }
  }

  lemma StepAloneUndisturbed(w: World, e: Event)
    requires Undisturbed(w) && !e.Write? && Next(w, e).Some?
    ensures Undisturbed(Next(w, e).value)
  {
    hide Prepare, RegisterSection, TakeSection, ReleaseSection, CleanupSection, EnterSection, LeaveSection;
    if e.Publish? && Next(w, e).value.history != w.history {
      var key := w.threads[e.t].key;
      var w' := Next(w, e).value;
      forall k, i | 0 <= i < |Versions(w'.history, k)|
        ensures Versions(w'.history, k)[i].author.Service? && !Versions(w'.history, k)[i].author.disturbed
      {
        if i < |Versions(w.history, k)| {
          assert Versions(w'.history, k)[i] == Versions(w.history, k)[i];
        }
      }
    }
  }

  /** What a sequence of requests makes of a file, one after the other. */
  function Serial(file: Option<Bytes>, requests: seq<Request>): Option<Bytes> {
    if requests == [] then file
    else Apply(Serial(file, requests[..|requests| - 1]), requests[|requests| - 1])
  }

  function Requests(versions: seq<Version>): seq<Request>
    requires forall i :: 0 <= i < |versions| ==> versions[i].author.Service?
  {
    seq(|versions|, i requires 0 <= i < |versions| => versions[i].author.request)
  }

  /** Without writers outside no update is lost: however the calls were
      interleaved, each committed request named, as the content it expected, the
      one that the request before it had left, and was computed from it; and the
      file is what the committed requests make of it one after the other. */
  lemma CommitsAreSerial(files: Files, es: seq<Event>, key: Key)
    requires Run(files, es).Some? && NobodyOutside(es)
    ensures
      var w := Run(files, es).value;
      var versions := Versions(w.history, key);
      && (forall i :: 0 <= i < |versions| ==> versions[i].author.Service?)
      && (forall i :: 0 <= i < |versions| ==>
            var r := versions[i].author.request;
            if r.Create? then Before(files, w.history, key, i) == None
            else Before(files, w.history, key, i) == Some(r.expected))
      && Content(w.files, key) == Serial(Content(files, key), Requests(versions))
  {
    hide Prepare;
    EveryRunKeepsInv(files, es);
    RunsAloneUndisturbed(files, es);
    var w := Run(files, es).value;
    var versions := Versions(w.history, key);
    forall i | 0 <= i < |versions|
      ensures Expects(versions[i].author.request, Before(files, w.history, key, i))
    {
      assert VersionFollows(Before(files, w.history, key, i), versions[i]);
    }
    SerialUpTo(files, w, key, |versions|);
    assert Requests(versions)[..|versions|] == Requests(versions);
  }

  lemma VersionIsApplied(before: Option<Bytes>, v: Version)
    requires VersionFollows(before, v) && v.author.Service? && !v.author.disturbed
    ensures v.content == Apply(before, v.author.request)
  {
    hide Prepare, Apply, Suits;
    PreparesWhatSuits(v.author.base, v.author.request);
  }

  lemma {:induction false} SerialUpTo(files: Files, w: World, key: Key, n: nat)
    requires Inv(files, w) && Undisturbed(w) && n <= |Versions(w.history, key)|
    ensures Before(files, w.history, key, n)
      == Serial(Content(files, key), Requests(Versions(w.history, key))[..n])
  {
    hide Apply, LocksInv, FilesFollow, EditsFollow, VersionFollows;
    if n == 0 {
    } else {
      var requests := Requests(Versions(w.history, key));
      SerialUpTo(files, w, key, n - 1);
      assert requests[..n][..n - 1] == requests[..n - 1];
      VersionIsApplied(Before(files, w.history, key, n - 1), Versions(w.history, key)[n - 1]);
    }
  }

  /** Whatever is written outside: a commit started from the content that its
      request named; that is the content before it unless that was changed outside
      while the call was at work; it is what its request makes of its base; and a
      create never replaces a file. */
  lemma CommitsFollowTheirBase(files: Files, es: seq<Event>, key: Key, i: nat)
    requires Run(files, es).Some? && i < |Versions(Run(files, es).value.history, key)|
    requires Versions(Run(files, es).value.history, key)[i].author.Service?
    ensures
      var w := Run(files, es).value;
      var v := Versions(w.history, key)[i];
      var r := v.author.request;
      var before := Before(files, w.history, key, i);
      && (if r.Create? then v.author.base == None else v.author.base == Some(r.expected))
      && (!v.author.disturbed ==> v.author.base == before)
      && (r.Create? ==> before.None?)
      && Suits(v.author.base, r) && v.content == Apply(v.author.base, r)
  {
    hide Prepare, Suits, Apply;
    EveryRunKeepsInv(files, es);
    var w := Run(files, es).value;
    PreparesWhatSuits(Versions(w.history, key)[i].author.base, Versions(w.history, key)[i].author.request);
    assert VersionFollows(Before(files, w.history, key, i), Versions(w.history, key)[i]);
  }

  /** Of two requests that expected the same content, and of which the first
      changed it, the second was committed only because somebody had written that
      content again in between. */
  lemma SameVersionCommitsOnce(files: Files, es: seq<Event>, key: Key, i: nat, j: nat)
    requires Run(files, es).Some? && NobodyOutside(es)
    requires i < j < |Versions(Run(files, es).value.history, key)|
    ensures
      var versions := Versions(Run(files, es).value.history, key);
      && versions[i].author.Service? && versions[j].author.Service?
      && var r, q := versions[i].author.request, versions[j].author.request;
         !r.Create? && !q.Create? && r.expected == q.expected && versions[i].content != Some(r.expected) ==>
           exists k :: i < k < j && versions[k].content == Some(r.expected)
  {
    hide Prepare, Serial, Run, Content, Requests, NobodyOutside;
    CommitsAreSerial(files, es, key);
    var versions := Versions(Run(files, es).value.history, key);
    var r, q := versions[i].author.request, versions[j].author.request;
    if !r.Create? && !q.Create? && r.expected == q.expected && versions[i].content != Some(r.expected) {
      assert versions[j - 1].content == Some(q.expected);
      assert i < j - 1 < j;
    }
  }

  /** Once a file has a version it is never created again: the service removes none. */
  lemma FilesAreCreatedOnce(files: Files, es: seq<Event>, key: Key, i: nat, j: nat)
    requires Run(files, es).Some? && NobodyOutside(es)
    requires i < j < |Versions(Run(files, es).value.history, key)|
    ensures
      var versions := Versions(Run(files, es).value.history, key);
      versions[j].author.Service? && !versions[j].author.request.Create?
  {
    hide Prepare, PatchText, IsText, Serial, Run, Content, Requests, NobodyOutside, Versions;
    CommitsAreSerial(files, es, key);
    CommitsFollowTheirBase(files, es, key, j - 1);
    assert Before(files, Run(files, es).value.history, key, j).Some?;
  }
}
