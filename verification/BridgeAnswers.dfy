/** What the bridge answers: which calls it takes, sends, authorizes and drops, told
    from its table and its streams. */
module BridgeAnswers {
  import opened Basics
  import opened Coordination
  import opened DesktopGate
  import opened DesktopGateSafety
  import opened BrowserBridge
  import opened BridgeSafety
  import opened DesktopProtocol
  import opened DesktopTheorems
  import opened DesktopHistory

  // Taking a call ---------------------------------------------------------------------------

  /** A call is taken exactly if its browser is online and was seen lately and fewer
      than 256 calls are pending; it then waits for the present boot of the browser,
      under the control that was named, on the present stream. */
  lemma RegistrationIsGrantedExactly(b: Bridge, c: CallId, browser: BrowserId, control: ControlId, recent: bool)
    requires c !in b.targets
    ensures
      var b' := BridgeNext(b, Register(c, browser, control, recent));
      && (b'.Some? <==> browser in b.instances && b.instances[browser].online && recent && |b.pending| < 256)
      && (b'.Some? ==>
            && b'.value.pending ==
                 b.pending[c := PendingCall(browser, b.instances[browser].boot, control, b.stopped,
                                            None, false, false, false, false, false)]
            && b'.value.targets == b.targets[c := b.instances[browser].stream]
            && b'.value.streams == b.streams && b'.value.instances == b.instances)
  {}

  /** The command of a call can be sent exactly once, while the queue of its stream has
      room, and goes to the end of that queue. */
  lemma CommandsAreQueuedExactly(s: System, c: CallId)
    requires Reachable(s) && c in s.bridge.targets
    ensures
      var b := s.bridge;
      var stream := b.targets[c];
      var b' := BridgeNext(b, Enqueue(c));
      && stream in b.streams
      && (b'.Some? <==> c !in b.enqueued && |b.streams[stream].commands| < 64)
      && (b'.Some? ==>
            && b'.value.streams.Keys == b.streams.Keys
            && b'.value.streams[stream].commands == b.streams[stream].commands + [c]
            && c in b'.value.enqueued && b'.value.pending == b.pending)
  {
    hide Reachable, DeskInv, Linked, MarkedOnce, CancelsOnce, SentAtMostOnce;
    ReachableKeepsInvariant(s);
  }

  /** The dispatch loop sends the command that it takes exactly if its call is still
      waited for, in time, on the present stream of its browser; the call of a command
      that it takes and does not send is pending no more. */
  lemma CommandsAreDispatchedExactly(s: System, stream: StreamId, late: bool)
    requires Reachable(s) && BridgeNext(s.bridge, Dispatch(stream, late)).Some?
    ensures stream in s.bridge.streams && s.bridge.streams[stream].commands != []
    ensures
      var b := s.bridge;
      var b' := BridgeNext(b, Dispatch(stream, late)).value;
      var c := b.streams[stream].commands[0];
      && stream in b'.streams && b'.streams[stream].commands == b.streams[stream].commands[1..]
      && (forall id :: id in b.pending && id != c ==> id in b'.pending && b'.pending[id] == b.pending[id])
      && if c in b.pending && !b.pending[c].abandoned && !b.pending[c].contextDone && !late
            && b.streams[stream].browser in b.instances && b.instances[b.streams[stream].browser].stream == stream
         then
           && b'.marks == b.marks + [Mark(c, stream)]
           && c in b'.pending && b'.pending[c] == b.pending[c].(dispatched := true)
         else b'.marks == b.marks && c !in b'.pending
  {
    hide Reachable, DeskInv, Linked, MarkedOnce, CancelsOnce, SentAtMostOnce, DropCommand;
    ReachableKeepsInvariant(s);
    DropCommandKeepsInv(s.bridge, stream);
    CommandTaken(s.bridge.streams, stream);
  }

  lemma CommandTaken(streams: Streams, stream: StreamId)
    requires stream in streams && streams[stream].commands != []
    ensures
      var streams' := DropCommand(streams, stream);
      stream in streams' && streams'[stream].commands == streams[stream].commands[1..]
  {}

  // Authorizing a call ------------------------------------------------------------------------

  /** An authorization starts exactly if the boot of the browser that runs the call asks
      for it, while the call is waited for and neither holds nor asks for a reservation.
      It asks the gate, if there is one, for the control of the call. */
  lemma AuthorizationsStartExactly(s: System, t: ThreadId, i: Identity)
    requires t !in s.desk.threads
    ensures
      var s' := Next(s, AuthorizeStart(t, i));
      && (s'.Some? <==> i.call in s.bridge.pending && Asked(s.bridge, i, i.call, s.bridge.pending[i.call].control))
      && (s'.Some? ==>
            var p := s.bridge.pending[i.call];
            && t in s'.value.desk.threads
            && s'.value.desk.threads[t] ==
                 (if s.bridge.gateSet then BeginChecking(p.control, Browser(i.call)) else Ungated(i.call))
            && s'.value.bridge.pending == s.bridge.pending[i.call := p.(authorizing := true)])
  {
    hide DeskNext, BridgeNext;
  }

  /** The other answers to the browser that asks: a call that already holds its
      reservation may go on, one that is being authorized has to wait, any other is
      refused. */
  lemma AuthorizationsAreAnsweredExactly(b: Bridge, i: Identity)
    ensures
      var verdict := AuthorizeVerdictOf(b.pending, i);
      var runs :=
        && i.call in b.pending && b.pending[i.call].dispatched && !b.pending[i.call].abandoned
        && b.pending[i.call].browser == i.browser && b.pending[i.call].boot == i.boot;
      && (verdict == Refused <==> !runs)
      && (verdict == AlreadyHeld <==> runs && b.pending[i.call].release.Some?)
      && (verdict == InProgress <==> runs && b.pending[i.call].release.None? && b.pending[i.call].authorizing)
      && (verdict.Ask? <==> runs && b.pending[i.call].release.None? && !b.pending[i.call].authorizing)
      && (verdict.Ask? ==> verdict.control == b.pending[i.call].control)
  {}

  /** The handler of an authorization is at work. */
  ghost predicate Handled(threads: Threads, c: CallId) { exists t :: t in threads && Handles(threads[t]) == Some(c) }

  ghost predicate FlagsHandled(s: System) {
    forall c :: c in s.bridge.pending && s.bridge.pending[c].authorizing ==> Handled(s.desk.threads, c)
  }

  lemma DeskKeepsHandlers(d: Desk, e: DeskEvent, t: ThreadId)
    requires DeskNext(d, e).Some? && t in d.threads && Handles(d.threads[t]).Some?
    ensures t in DeskNext(d, e).value.threads
    ensures Handles(DeskNext(d, e).value.threads[t]) == Handles(d.threads[t])
  {
    hide ExpireSection, AdmitSection, AdmitFailedSection, ReleaseSection, LocalStopSection, FinishStopSection,
         BeginSection, EndSection, ObserveSection, ConsumeSection, CloseSection, ReleaseLogged;
  }

  lemma DeskKeepsFlags(s: System, e: DeskEvent)
    requires FlagsHandled(s) && DeskNext(s.desk, e).Some?
    ensures FlagsHandled(s.(desk := DeskNext(s.desk, e).value))
  {
    hide DeskNext, Handles;
    forall c | c in s.bridge.pending && s.bridge.pending[c].authorizing
      ensures Handled(DeskNext(s.desk, e).value.threads, c)
    {
      var t :| t in s.desk.threads && Handles(s.desk.threads[t]) == Some(c);
      DeskKeepsHandlers(s.desk, e, t);
    }
  }

  lemma CancellingSetsNoFlag(b: Bridge, id: CallId, c: CallId)
    requires id in b.pending && c in CancelSection(b, id).pending && CancelSection(b, id).pending[c].authorizing
    ensures c in b.pending && b.pending[c].authorizing
  {
    hide CancelTarget, CancelledCalls, PutControl;
    CancelledFlags(b.pending, id, true, c);
    CancelledFlags(b.pending, id, b.pending[id].cancelSent, c);
  }

  lemma CancelledFlags(calls: Calls, id: CallId, sent: bool, c: CallId)
    requires id in calls
    ensures c in CancelledCalls(calls, id, sent) ==>
      c in calls && CancelledCalls(calls, id, sent)[c].authorizing == calls[c].authorizing
  {}

  lemma LeavingSetsNoFlag(b: Bridge, id: CallId, c: CallId)
    requires c in LeaveSection(b, id).pending && LeaveSection(b, id).pending[c].authorizing
    ensures c in b.pending && b.pending[c].authorizing
  {
    hide CancelSection;
    if id in b.pending {
      CancellingSetsNoFlag(b.(pending := b.pending[id := Abandoned(b.pending[id])]), id, c);
    }
  }

  lemma DispatchSetsNoFlag(b: Bridge, r: StreamId, late: bool, c: CallId)
    requires DispatchSection(b, r, late).Some? && c in DispatchSection(b, r, late).value.pending
    requires DispatchSection(b, r, late).value.pending[c].authorizing
    ensures c in b.pending && b.pending[c].authorizing
  {
    hide DropCommand, Serving, Dispatchable;
  }

  lemma DisconnectSetsNoFlag(b: Bridge, r: StreamId, c: CallId)
    requires r in b.streams && c in DisconnectSection(b, r).pending && DisconnectSection(b, r).pending[c].authorizing
    ensures c in b.pending && b.pending[c].authorizing
  {}

  /** No section of the bridge marks a call as authorizing. */
  lemma SectionsSetNoFlag(b: Bridge, e: BridgeEvent, c: CallId)
    requires BridgeNext(b, e).Some? && c in BridgeNext(b, e).value.pending
    requires BridgeNext(b, e).value.pending[c].authorizing
    ensures c in b.pending && b.pending[c].authorizing
  {
    hide DispatchSection, CancelSection, LeaveSection, DisconnectSection, PutCommand, DropControl;
    match e
    case Leave(id) => LeavingSetsNoFlag(b, id, c);
    case GateWatch(id) => CancellingSetsNoFlag(b, id, c);
    case Dispatch(r, late) => DispatchSetsNoFlag(b, r, late, c);
    case Disconnect(r) => DisconnectSetsNoFlag(b, r, c);
    case _ =>
  }

  lemma HandlersKeepFlags(s: System, e: SystemEvent)
    requires FlagsHandled(s) && Next(s, e).Some? && Linked(s.desk.threads, s.bridge.pending, s.bridge.targets)
    requires e.AuthorizeStart? || e.AuthorizeUngated? || e.AuthorizeFail? || e.AuthorizeStore?
    ensures FlagsHandled(Next(s, e).value)
  {
    hide DeskNext, BridgeNext, ReceiveStep, ConnectStep, CloseBridgeStep, ReleasesParked;
    var s' := Next(s, e).value;
    forall c | c in s'.bridge.pending && s'.bridge.pending[c].authorizing
      ensures Handled(s'.desk.threads, c)
    {
      if c in s.bridge.pending && s.bridge.pending[c].authorizing {
        var t :| t in s.desk.threads && Handles(s.desk.threads[t]) == Some(c);
        assert t != e.t;
        assert s'.desk.threads[t] == s.desk.threads[t];
      } else {
        assert Handles(s'.desk.threads[e.t]) == Some(c);
      }
    }
  }

  lemma ReleasingKeepsFlags(s: System, e: SystemEvent)
    requires FlagsHandled(s) && Next(s, e).Some? && (e.Receive? || e.Connect? || e.CloseBridge?)
    ensures FlagsHandled(Next(s, e).value)
  {
    hide DeskNext, BridgeNext, SendsAfterConnect;
    var s' := Next(s, e).value;
    forall c | c in s'.bridge.pending && s'.bridge.pending[c].authorizing
      ensures Handled(s'.desk.threads, c)
    {
      var t :| t in s.desk.threads && Handles(s.desk.threads[t]) == Some(c);
      assert t in s'.desk.threads && s'.desk.threads[t] == s.desk.threads[t];
    }
  }

  lemma StepKeepsFlags(s: System, e: SystemEvent)
    requires SystemInv(s) && FlagsHandled(s) && Next(s, e).Some?
    ensures FlagsHandled(Next(s, e).value)
  {
    hide DeskInv, BridgeInv, Linked, FlagsHandled, DeskNext, BridgeNext;
    LinkedOf(s);
    match e
    case OfDesk(step) => DeskKeepsFlags(s, step);
    case OfBridge(section) => BridgeKeepsFlags(s, section);
    case Receive(_) => ReleasingKeepsFlags(s, e);
    case Connect(_, _, _) => ReleasingKeepsFlags(s, e);
    case CloseBridge => ReleasingKeepsFlags(s, e);
    case _ => HandlersKeepFlags(s, e);
  }

  lemma BridgeKeepsFlags(s: System, e: BridgeEvent)
    requires FlagsHandled(s) && BridgeNext(s.bridge, e).Some?
    ensures FlagsHandled(s.(bridge := BridgeNext(s.bridge, e).value))
  {
    hide BridgeNext, Handled;
    var b := BridgeNext(s.bridge, e).value;
    forall c | c in b.pending && b.pending[c].authorizing
      ensures Handled(s.desk.threads, c)
    {
      SectionsSetNoFlag(s.bridge, e, c);
    }
  }

  lemma {:induction false} RunKeepsFlags(es: seq<SystemEvent>, ss: seq<System>, n: nat)
    requires IsRun(es, ss) && n <= |es|
    ensures FlagsHandled(ss[n])
    decreases n
  {
    hide SystemInv, Next, FlagsHandled;
    if n == 0 {
      NothingFlagged();
    } else {
      RunKeepsFlags(es, ss, n - 1);
      EveryRunKeepsInvariant(es, ss, n - 1);
      assert Next(ss[n - 1], es[n - 1]) == Some(ss[n]);
      StepKeepsFlags(ss[n - 1], es[n - 1]);
    }
  }

  lemma NothingFlagged()
    ensures FlagsHandled(InitialSystem)
  {}

  lemma HandlersFlag(s: System)
    requires SystemInv(s)
    ensures forall c :: c in s.bridge.pending && Handled(s.desk.threads, c) ==> s.bridge.pending[c].authorizing
  {
    hide DeskInv, BridgeInv, ReleasesParked;
  }

  /** A pending call is marked as authorizing exactly while a handler of it is at work,
      so that no authorization shuts out the next one. */
  lemma FlagsAreHandlersExactly(s: System, c: CallId)
    requires Reachable(s) && c in s.bridge.pending
    ensures s.bridge.pending[c].authorizing <==> Handled(s.desk.threads, c)
  {
    hide SystemInv, Next, Handled;
    var es, ss :| IsRun(es, ss) && ss[|es|] == s;
    RunKeepsFlags(es, ss, |es|);
    ReachableKeepsInvariant(s);
    HandlersFlag(s);
  }

  /** Both tables agree on the other calls. */
  ghost predicate OthersKept(calls: Calls, calls': Calls, c: CallId) {
    forall id :: id != c ==> (id in calls' <==> id in calls) && (id in calls ==> calls'[id] == calls[id])
  }

  /** A granted reservation is kept by the call exactly if the call is still waited for
      and nothing has cancelled it; otherwise it goes back at once. */
  lemma ReservationsAreKeptExactly(s: System, t: ThreadId, contextDone: bool)
    requires t in s.desk.threads && s.desk.threads[t].Operating? && s.desk.threads[t].use.Browser?
    ensures
      var Operating(id, Browser(c)) := s.desk.threads[t];
      var calls := s.bridge.pending;
      var s' := Next(s, AuthorizeStore(t, contextDone));
      && (s'.Some? <==>
            contextDone || (t !in s.desk.core.cancelled && (c in calls ==> !calls[c].contextDone)))
      && (s'.Some? ==>
            var calls' := s'.value.bridge.pending;
            && t in s'.value.desk.threads && OthersKept(calls, calls', c)
            && (c in calls' <==> c in calls && !calls[c].abandoned)
            && if c in calls && !calls[c].abandoned && !contextDone
               then
                 && s'.value.desk.threads[t] == Parked(id, c)
                 && calls'[c] == calls[c].(release := Some(t), authorizing := false, watching := true)
               else
                 && s'.value.desk.threads[t] == Ending(id, Finish)
                 && (c in calls' ==> calls'[c] == calls[c].(authorizing := false)))
  {
    hide DeskNext, BridgeNext;
  }

  /** An authorization that was refused, or that needs no gate, ends with the call free
      to be authorized again, or dropped if nobody waits for it. */
  lemma AuthorizationsEndExactly(s: System, t: ThreadId)
    requires Reachable(s) && t in s.desk.threads
    requires s.desk.threads[t].Ungated? || s.desk.threads[t].AuthorizationFailed?
    ensures
      var c := s.desk.threads[t].call;
      var calls := s.bridge.pending;
      var s' := Next(s, if s.desk.threads[t].Ungated? then AuthorizeUngated(t) else AuthorizeFail(t));
      && s'.Some? && s'.value.desk == s.desk.To(t, Done) && OthersKept(calls, s'.value.bridge.pending, c)
      && (c in s'.value.bridge.pending <==> c in calls && !calls[c].abandoned)
      && (c in s'.value.bridge.pending ==> s'.value.bridge.pending[c] == calls[c].(authorizing := false))
  {
    hide Reachable, DeskInv, BridgeInv, DeskNext, BridgeNext, ReleasesParked;
    ReachableKeepsInvariant(s);
  }

  // Streams -----------------------------------------------------------------------------------

  /** The browser may still be at work on the call, with the desktop. */
  predicate AtWork(p: PendingCall) { p.dispatched && (p.release.Some? || p.authorizing) }

  /** A stream is taken exactly if the bridge is not stopped and knows the browser or
      fewer than 32 others. It replaces the one before; of the calls of its browser
      those at work for the same boot stay, cancelled and waited for no more. */
  lemma StreamsAreTakenExactly(s: System, browser: BrowserId, boot: BootId, stream: StreamId)
    requires Reachable(s) && stream !in s.bridge.streams
    ensures
      var b := s.bridge;
      var s' := Next(s, Connect(browser, boot, stream));
      && (s'.Some? <==> !b.stopped && (browser in b.instances || |b.instances| < 32))
      && (s'.Some? ==>
            var b' := s'.value.bridge;
            && b'.instances == b.instances[browser := Instance(boot, stream, true)]
            && b'.streams == b.streams[stream := Stream(browser, boot, [], [])]
            && forall c ::
              && (c in b'.pending <==>
                    c in b.pending && (b.pending[c].browser == browser ==>
                                         AtWork(b.pending[c]) && b.pending[c].boot == boot))
              && (c in b'.pending ==>
                    b'.pending[c] == if b.pending[c].browser != browser then b.pending[c]
                                     else b.pending[c].(abandoned := true, contextDone := true)))
  {
    hide Reachable, DeskInv, Linked, DeskNext, BridgeNext, QueuesOk, MarkedOnce, CancelsOnce, SentAtMostOnce,
         DispatchedIffMarked, ReleaseParked, SendsAfterConnect;
    ReachableKeepsInvariant(s);
  }

  /** A stream that ends changes something only while it is the present one of its
      browser; then the browser is offline, and of its calls those at work stay,
      cancelled and waited for no more. */
  lemma StreamsEndExactly(s: System, stream: StreamId)
    requires Reachable(s) && stream in s.bridge.streams
    ensures
      var b := s.bridge;
      var browser := b.streams[stream].browser;
      var b' := BridgeNext(b, Disconnect(stream));
      && b'.Some?
      && if browser !in b.instances || b.instances[browser].stream != stream then b'.value == b
         else
           && b'.value.instances == b.instances[browser := b.instances[browser].(online := false)]
           && b'.value.streams == b.streams
           && forall c ::
             && (c in b'.value.pending <==>
                   c in b.pending && (b.pending[c].browser == browser ==> AtWork(b.pending[c])))
             && (c in b'.value.pending ==>
                   b'.value.pending[c] == if b.pending[c].browser != browser then b.pending[c]
                                          else b.pending[c].(abandoned := true, contextDone := true))
  {
    hide Reachable, DeskInv, Linked, QueuesOk, MarkedOnce, CancelsOnce, SentAtMostOnce, DispatchedIffMarked;
    ReachableKeepsInvariant(s);
  }

  /** The end of the bridge cancels every call and, once that is done, drops it; no
      stream is taken any more. */
  lemma BridgeEndsExactly(s: System)
    requires Reachable(s)
    ensures
      var s' := Next(s, OfBridge(StopContext));
      && s'.Some? && s'.value.desk == s.desk && s'.value.bridge.stopped
      && s'.value.bridge.pending.Keys == s.bridge.pending.Keys
      && (forall c :: c in s.bridge.pending ==>
            s'.value.bridge.pending[c] == s.bridge.pending[c].(contextDone := true))
      && var after := Next(s'.value, CloseBridge);
         && after.Some? && after.value.bridge.pending == map[]
         && (forall browser, boot, stream :: Next(after.value, Connect(browser, boot, stream)).None?)
  {
    hide Reachable, DeskNext;
  }
}
