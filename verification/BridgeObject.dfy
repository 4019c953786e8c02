/** The bridge as an object: its methods run, in place, the sections whose
    effect BrowserBridge.dfy specifies. */
module BridgeObject {
  import opened Basics
  import opened Coordination
  import opened DesktopGate
  import opened BrowserBridge

  // How far the loop of `connect` over the pending calls has come -----------------

  function Orphaning(calls: Calls, todo: set<CallId>, browser: BrowserId, oldBoot: BootId, boot: BootId): Calls {
    map id | id in calls && (id in todo || !DroppedByConnect(calls[id], browser, oldBoot, boot)) ::
      if id !in todo && calls[id].browser == browser then Orphaned(calls[id]) else calls[id]
  }

  function Telling(sends: Sends, calls: Calls, todo: set<CallId>, browser: BrowserId): Sends {
    map id | id in sends ::
      if id in calls && id !in todo && calls[id].browser == browser && !calls[id].abandoned
      then sends[id] + 1
      else sends[id]
  }

  function Releasing(calls: Calls, todo: set<CallId>, browser: BrowserId, oldBoot: BootId, boot: BootId)
    : set<ThreadId>
  {
    if oldBoot == boot then {}
    else set id | id in calls && id !in todo && calls[id].browser == browser && calls[id].release.Some?
           :: calls[id].release.value
  }

  lemma OrphaningStep(calls: Calls, todo: set<CallId>, id: CallId, browser: BrowserId, oldBoot: BootId, boot: BootId)
    requires id in todo && id in calls
    ensures
      var before := Orphaning(calls, todo, browser, oldBoot, boot);
      && id in before && before[id] == calls[id]
      && Orphaning(calls, todo - {id}, browser, oldBoot, boot) ==
           if calls[id].browser != browser then before
           else if DroppedByConnect(calls[id], browser, oldBoot, boot) then before[id := Orphaned(calls[id])] - {id}
           else before[id := Orphaned(calls[id])]
  {}

  lemma TellingStep(sends: Sends, calls: Calls, todo: set<CallId>, id: CallId, browser: BrowserId)
    requires id in todo && id in calls && id in sends
    ensures Telling(sends, calls, todo - {id}, browser) ==
      if calls[id].browser == browser && !calls[id].abandoned
      then CountSend(Telling(sends, calls, todo, browser), id)
      else Telling(sends, calls, todo, browser)
  {}

  lemma ReleasingStep(calls: Calls, todo: set<CallId>, id: CallId, browser: BrowserId, oldBoot: BootId, boot: BootId)
    requires id in todo && id in calls
    ensures Releasing(calls, todo - {id}, browser, oldBoot, boot) ==
      if calls[id].browser == browser && oldBoot != boot && calls[id].release.Some?
      then Releasing(calls, todo, browser, oldBoot, boot) + {calls[id].release.value}
      else Releasing(calls, todo, browser, oldBoot, boot)
  {}

  function Losing(calls: Calls, todo: set<CallId>, stream: Stream): Calls {
    map id | id in calls && (id in todo || !(Affected(calls[id], stream) && Droppable(calls[id]))) ::
      if id !in todo && Affected(calls[id], stream) then Orphaned(calls[id]) else calls[id]
  }

  lemma LosingStep(calls: Calls, todo: set<CallId>, id: CallId, stream: Stream)
    requires id in todo && id in calls
    ensures
      var before := Losing(calls, todo, stream);
      && id in before && before[id] == calls[id]
      && Losing(calls, todo - {id}, stream) ==
           if !Affected(calls[id], stream) then before
           else if Droppable(calls[id]) then before[id := Orphaned(calls[id])] - {id}
           else before[id := Orphaned(calls[id])]
  {}

  lemma LoopEnds(calls: Calls, sends: Sends, browser: BrowserId, oldBoot: BootId, boot: BootId, stream: Stream)
    ensures Orphaning(calls, calls.Keys, browser, oldBoot, boot) == calls
    ensures Orphaning(calls, {}, browser, oldBoot, boot) == CallsAfterConnect(calls, browser, oldBoot, boot)
    ensures Telling(sends, calls, calls.Keys, browser) == sends
    ensures Telling(sends, calls, {}, browser) == SendsAfterConnect(sends, calls, browser)
    ensures Losing(calls, calls.Keys, stream) == calls
    ensures Losing(calls, {}, stream) == CallsAfterDisconnect(calls, stream)
  {}

  class BridgeServer {
    var pending: Calls
    var instances: map<BrowserId, Instance>
    var streams: Streams
    var gateSet: bool
    var stopped: bool
    ghost var targets: map<CallId, StreamId>
    ghost var enqueued: set<CallId>
    ghost var sends: Sends
    ghost var marks: seq<Mark>

    ghost function View(): Bridge
      reads this
    {
      Bridge(pending, instances, streams, gateSet, stopped, targets, enqueued, sends, marks)
    }

    constructor ()
      ensures View() == InitialBridge
    {
      pending, instances, streams, gateSet, stopped := map[], map[], map[], false, false;
      targets, enqueued, sends, marks := map[], {}, map[], [];
    }

    method Register(id: CallId, browser: BrowserId, control: ControlId, recent: bool) returns (ok: bool)
      modifies this
      ensures ok == RegisterSection(old(View()), id, browser, control, recent).Some?
      ensures View() == if ok then RegisterSection(old(View()), id, browser, control, recent).value else old(View())
    {
      if browser !in instances || !instances[browser].online || !recent {
        return false;
      }
      if |pending| >= MAX_PENDING {
        return false;
      }
      var instance := instances[browser];
      pending := pending[id := NewCall(instance, browser, control, stopped)];
      targets := targets[id := instance.stream];
      sends := sends[id := 0];
      ok := true;
    }

    /** The send on the channel of the stream `s` that the call captured. */
    method Enqueue(id: CallId, s: StreamId) returns (ok: bool)
      requires id in targets && id !in enqueued && targets[id] == s && s in streams
      modifies this`streams, this`enqueued
      ensures ok == EnqueueSection(old(View()), id).Some?
      ensures View() == if ok then EnqueueSection(old(View()), id).value else old(View())
    {
      if |streams[s].commands| >= MAX_COMMANDS {
        return false;
      }
      streams := PutCommand(streams, s, id);
      enqueued := enqueued + {id};
      ok := true;
    }

    method CancelPending(id: CallId)
      requires id in pending
      modifies this
      ensures View() == CancelSection(old(View()), id)
    {
      var p := pending[id].(contextDone := true);
      if !p.dispatched {
        pending := pending - {id};
        return;
      }
      pending := pending[id := p];
      if !p.cancelSent && p.browser in instances && instances[p.browser].boot == p.boot {
        var s := instances[p.browser].stream;
        if s in streams && |streams[s].controls| < MAX_CONTROLS {
          streams := PutControl(streams, s, id);
          pending := pending[id := p.(cancelSent := true)];
        }
      }
    }

    method Leave(id: CallId)
      modifies this
      ensures View() == LeaveSection(old(View()), id)
    {
      if id in pending {
        pending := pending[id := Abandoned(pending[id])];
        CancelPending(id);
      }
    }

    /** The release function to call, if any, comes with the verdict. */
    method Receive(i: Identity) returns (verdict: Verdict)
      modifies this
      ensures verdict == ReceiveVerdict(old(View()), i)
      ensures View() == ReceiveSection(old(View()), i)
    {
      if i.browser !in instances || i.boot != instances[i.browser].boot {
        return Conflict;
      }
      if i.call in pending && !(pending[i.call].browser == i.browser && pending[i.call].boot == i.boot) {
        return Conflict;
      }
      if i.call !in pending {
        return Unknown;
      }
      var p := pending[i.call];
      pending := pending - {i.call};
      if !p.abandoned {
        sends := CountSend(sends, i.call);
      }
      verdict := Accepted(p.release);
    }

    method AuthorizeStart(i: Identity) returns (verdict: AuthorizeVerdict)
      modifies this`pending
      ensures verdict == AuthorizeVerdictOf(old(pending), i)
      ensures pending == AuthorizeStartCalls(old(pending), i)
    {
      if i.call !in pending {
        return Refused;
      }
      var p := pending[i.call];
      if !p.dispatched || p.abandoned || p.browser != i.browser || p.boot != i.boot {
        return Refused;
      }
      if p.release.Some? {
        return AlreadyHeld;
      }
      if p.authorizing {
        return InProgress;
      }
      pending := pending[i.call := p.(authorizing := true)];
      verdict := Ask(p.control);
    }

    method AuthorizeUngated(id: CallId)
      modifies this`pending
      ensures pending == UngatedCalls(old(pending), id)
    {
      if id in pending {
        var abandoned := pending[id].abandoned;
        pending := pending[id := pending[id].(authorizing := false)];
        if abandoned {
          pending := pending - {id};
        }
      }
    }

    method AuthorizeFailed(id: CallId)
      modifies this`pending
      ensures pending == AuthorizeFailedCalls(old(pending), id)
    {
      if id in pending {
        pending := pending[id := pending[id].(authorizing := false)];
        if pending[id].abandoned && pending[id].release.None? {
          pending := pending - {id};
        }
      }
    }

    method AuthorizeStore(id: CallId, t: ThreadId, contextDone: bool) returns (kept: bool)
      modifies this`pending
      ensures (pending, kept) == AuthorizeStoreCalls(old(pending), id, t, contextDone)
    {
      if id !in pending {
        return false;
      }
      if pending[id].abandoned {
        pending := pending - {id};
        return false;
      }
      if contextDone {
        pending := pending[id := pending[id].(authorizing := false)];
        return false;
      }
      pending := pending[id := pending[id].(release := Some(t), authorizing := false, watching := true)];
      kept := true;
    }

    /** The loop over the pending calls when a stream of `browser` replaces one
        of boot `oldBoot`; the release functions it calls are returned. */
    method DropCalls(browser: BrowserId, oldBoot: BootId, boot: BootId) returns (released: set<ThreadId>)
      requires pending.Keys <= sends.Keys
      modifies this`pending, this`sends
      ensures pending == CallsAfterConnect(old(pending), browser, oldBoot, boot)
      ensures sends == SendsAfterConnect(old(sends), old(pending), browser)
      ensures released == Releasing(old(pending), {}, browser, oldBoot, boot)
    {
      released := {};
      ghost var calls, counts := pending, sends;
      LoopEnds(calls, counts, browser, oldBoot, boot, Stream(browser, boot, [], []));
      var todo := pending.Keys;
      while todo != {}
        invariant todo <= calls.Keys
        invariant pending == Orphaning(calls, todo, browser, oldBoot, boot)
        invariant sends == Telling(counts, calls, todo, browser)
        invariant released == Releasing(calls, todo, browser, oldBoot, boot)
        decreases todo
      {
        var id := Pick(todo);
        OrphaningStep(calls, todo, id, browser, oldBoot, boot);
        TellingStep(counts, calls, todo, id, browser);
        ReleasingStep(calls, todo, id, browser, oldBoot, boot);
        todo := todo - {id};
        var p := pending[id];
        if p.browser == browser {
          if !p.abandoned {
            sends := CountSend(sends, id);
          }
          pending := pending[id := Orphaned(p)];
          if oldBoot != boot {
            if p.release.Some? {
              released := released + {p.release.value};
            }
            pending := pending - {id};
          } else if !p.dispatched || (p.release.None? && !p.authorizing) {
            pending := pending - {id};
          }
        }
      }
    }

    method Connect(browser: BrowserId, boot: BootId, s: StreamId) returns (ok: bool, released: set<ThreadId>)
      requires pending.Keys <= sends.Keys
      modifies this
      ensures ok == ConnectSection(old(View()), browser, boot, s).Some?
      ensures View() == if ok then ConnectSection(old(View()), browser, boot, s).value else old(View())
      ensures ok ==> released == ReleasedByConnect(old(View()), browser, boot)
    {
      released := {};
      if stopped || (browser !in instances && |instances| >= MAX_INSTANCES) {
        return false, released;
      }
      if browser in instances {
        released := DropCalls(browser, instances[browser].boot, boot);
      }
      instances := instances[browser := Instance(boot, s, true)];
      streams := streams[s := Stream(browser, boot, [], [])];
      ok := true;
    }

    method Disconnect(s: StreamId)
      requires s in streams
      modifies this`pending, this`instances
      ensures View() == DisconnectSection(old(View()), s)
    {
      var stream := streams[s];
      if stream.browser !in instances || instances[stream.browser].stream != s {
        return;
      }
      instances := instances[stream.browser := instances[stream.browser].(online := false)];
      ghost var calls := pending;
      LoopEnds(calls, sends, stream.browser, stream.boot, stream.boot, stream);
      var todo := pending.Keys;
      while todo != {}
        modifies this`pending
        invariant todo <= calls.Keys
        invariant pending == Losing(calls, todo, stream)
        decreases todo
      {
        var id := Pick(todo);
        LosingStep(calls, todo, id, stream);
        todo := todo - {id};
        var p := pending[id];
        if p.browser == stream.browser && p.boot == stream.boot {
          pending := pending[id := Orphaned(p)];
          if !p.dispatched || (p.release.None? && !p.authorizing) {
            pending := pending - {id};
          }
        }
      }
    }

    method Dispatch(s: StreamId, late: bool) returns (valid: bool)
      requires s in streams && streams[s].commands != [] && Serving(View(), s)
      modifies this
      ensures Some(View()) == DispatchSection(old(View()), s, late)
      ensures valid <==> marks != old(marks)
    {
      var stream := streams[s];
      var id := stream.commands[0];
      streams := DropCommand(streams, s);
      valid := stream.browser in instances && instances[stream.browser].stream == s && id in pending
               && pending[id].boot == stream.boot
               && !pending[id].abandoned && !pending[id].contextDone && !late;
      if valid {
        pending := pending[id := pending[id].(dispatched := true)];
        marks := marks + [Mark(id, s)];
      }
      if !valid && id in pending && !pending[id].dispatched {
        pending := pending - {id};
      }
    }

    method DispatchCancel(s: StreamId) returns (valid: bool)
      requires s in streams && streams[s].controls != [] && Serving(View(), s)
      modifies this
      ensures Some(View()) == DispatchCancelSection(old(View()), s)
    {
      var stream := streams[s];
      var id := stream.controls[0];
      streams := DropControl(streams, s);
      valid := stream.browser in instances && instances[stream.browser].stream == s && id in pending
               && pending[id].boot == stream.boot;
      if !valid && id in pending && !pending[id].dispatched {
        pending := pending - {id};
      }
    }

    method Close() returns (released: set<ThreadId>)
      modifies this`pending
      ensures pending == map[]
      ensures released == ReleasedByClose(old(pending))
    {
      released := {};
      ghost var calls := pending;
      var todo := pending.Keys;
      while todo != {}
        invariant todo <= calls.Keys
        invariant pending == map id | id in todo :: calls[id]
        invariant released == set id | id in calls && id !in todo && calls[id].release.Some? :: calls[id].release.value
        decreases todo
      {
        var id := Pick(todo);
        todo := todo - {id};
        if pending[id].release.Some? {
          released := released + {pending[id].release.value};
        }
        pending := pending - {id};
      }
    }
  }
}
