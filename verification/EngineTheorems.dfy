/** The results about every run of the connection engine. */
module EngineTheorems {
  import opened Wrappers
  import opened Channels
  import opened Engine
  import opened EngineInvariant
  import opened EngineTables
  import opened EngineEntries
  import opened EngineAccounting

  // ---------- callers that returned without error ----------

  /** The operation got everything its caller waits for. */
  ghost predicate Complete(kind: Kind, k: Track) {
    if kind.Subscribe? then k.view.resp.closed && k.view.err.None? else |k.received| >= kind.Ids()
  }

  ghost predicate CallerInv(s: State) {
    forall o <- s.calls.callers | s.calls.callers[o] == Returned(true) ::
      o in s.calls.reqs && o in s.calls.tracks && Complete(s.calls.reqs[o].kind, s.calls.tracks[o])
  }

  lemma CallerKeptHandle(s: State, step: Step)
    requires s.WellFormed() && TableInv(s) && CallerInv(s) && Enabled(s, step) && step.Handle?
    ensures CallerInv(Apply(s, step))
  {
  }

  lemma CallerKeptCancelling(s: State, step: Step)
    requires s.WellFormed() && TableInv(s) && CallerInv(s) && Enabled(s, step)
    requires step.ReadFail? || step.CloseClient? || step.Reconnected?
    ensures CallerInv(Apply(s, step))
  {
  }

  lemma CallerKeptReceive(s: State, step: Step)
    requires s.WellFormed() && TracksOk(s.calls.reqs, s.calls.tracks) && CallerInv(s) && Enabled(s, step) && step.Receive?
    ensures CallerInv(Apply(s, step))
  {
    assert TrackOk(s.calls.reqs[step.o], s.calls.tracks[step.o]);
    assert Apply(s, step) == DoReceive(s, step.o);
  }

  lemma CallerKeptClosed(s: State, o: OpId)
    requires s.WellFormed() && TracksOk(s.calls.reqs, s.calls.tracks) && CallerInv(s) && Enabled(s, ReceiveClosed(o))
    ensures CallerInv(DoReceiveClosed(s, o))
  {
    assert TrackOk(s.calls.reqs[o], s.calls.tracks[o]);
  }

  lemma CallerKeptTimeout(s: State, step: Step)
    requires s.WellFormed() && CallerInv(s) && Enabled(s, step)
    requires step.Timeout? || step.TakeTimeout? || step.TimeoutQuit?
    ensures CallerInv(Apply(s, step))
  {
  }

  lemma CallerKeptSending(s: State, step: Step)
    requires s.WellFormed() && CallerInv(s) && Enabled(s, step) && Sending(step)
    ensures CallerInv(Apply(s, step))
  {
  }

  lemma CallerKeptStarting(s: State, step: Step)
    requires s.WellFormed() && CallerInv(s) && Enabled(s, step) && Starting(step)
    ensures CallerInv(Apply(s, step))
  {
  }

  lemma CallerKeptElse(s: State, step: Step)
    requires s.WellFormed() && CallerInv(s) && Enabled(s, step)
    requires step.ReconnectedIdle? || (Looping(step) && !step.Handle? && !step.ReadFail? && !step.CloseClient?)
    ensures CallerInv(Apply(s, step))
  {
    if Looping(step) {
      LoopFrame(s, step);
      TracksFrame(s, step);
    }
  }

  lemma CallerKept(s: State, step: Step)
    requires s.WellFormed() && TracksOk(s.calls.reqs, s.calls.tracks) && TableInv(s) && CallerInv(s) && Enabled(s, step)
    ensures CallerInv(Apply(s, step))
  {
    if step.Handle? {
      CallerKeptHandle(s, step);
    } else if step.ReadFail? || step.CloseClient? || step.Reconnected? {
      CallerKeptCancelling(s, step);
    } else if step.Receive? {
      CallerKeptReceive(s, step);
    } else if step.ReceiveClosed? {
      CallerKeptClosed(s, step.o);
    } else if Receiving(step) {
      CallerKeptTimeout(s, step);
    } else if Sending(step) {
      CallerKeptSending(s, step);
    } else if Starting(step) {
      CallerKeptStarting(s, step);
    } else {
      CallerKeptElse(s, step);
    }
  }

  // ---------- the whole invariant ----------

  ghost predicate Inv(s: State) {
    && s.WellFormed() && IdInv(s) && LockInv(s) && PhaseInv(s)
    && TracksOk(s.calls.reqs, s.calls.tracks) && TableInv(s)
    && FlightInv(s) && EntryInv(s) && ListInv(s) && GoneInv(s)
    && PendingInv(s) && HeldInv(s) && ConnInv(s) && AccountInv(s) && CallerInv(s) && !s.crashed
  }

  /** Only these steps look up an operation or a response that might be missing. */
  lemma CrashFrame(s: State, step: Step)
    requires s.WellFormed() && Enabled(s, step)
    requires !step.TakeSent? && !step.ReconnectedIdle? && !step.DrainReconnect? && !step.ReceiveClosed?
    ensures Apply(s, step).crashed == s.crashed
  {
  }

  lemma NoCrashReceive(s: State, o: OpId)
    requires s.WellFormed() && TracksOk(s.calls.reqs, s.calls.tracks) && !s.crashed && Enabled(s, ReceiveClosed(o))
    ensures !DoReceiveClosed(s, o).crashed
  {
    assert TrackOk(s.calls.reqs[o], s.calls.tracks[o]);
  }

  lemma NoCrashSwitch(s: State, step: Step)
    requires s.WellFormed() && LockInv(s) && TableInv(s) && !s.crashed && Enabled(s, step)
    requires step.TakeSent? || step.ReconnectedIdle? || step.DrainReconnect?
    ensures !Apply(s, step).crashed
  {
  }

  lemma NoCrash(s: State, step: Step)
    requires s.WellFormed() && LockInv(s) && TracksOk(s.calls.reqs, s.calls.tracks) && TableInv(s)
    requires !s.crashed && Enabled(s, step)
    ensures !Apply(s, step).crashed
  {
    if step.ReceiveClosed? { NoCrashReceive(s, step.o); }
    else if step.TakeSent? || step.ReconnectedIdle? || step.DrainReconnect? { NoCrashSwitch(s, step); }
    else { CrashFrame(s, step); }
  }

  lemma AccountKept(s: State, step: Step)
    requires Inv(s) && Enabled(s, step) && Assumed(s, step)
    ensures AccountInv(Apply(s, step))
  {
    if Starting(step) { AccountKeptStarting(s, step); }
    else if Sending(step) { AccountKeptSending(s, step); }
    else if Reconnecting(step) { AccountKeptReconnecting(s, step); }
    else if Receiving(step) { AccountKeptReceiving(s, step); }
    else { AccountKeptLooping(s, step); }
  }

  lemma TableKept(s: State, step: Step)
    requires Inv(s) && Enabled(s, step) && Assumed(s, step) && IdInv(Apply(s, step))
    ensures TableInv(Apply(s, step))
  {
    if Starting(step) { TableKeptStarting(s, step); }
    else if Sending(step) { TableKeptSending(s, step); }
    else if Reconnecting(step) { TableKeptReconnecting(s, step); }
    else if Receiving(step) { TableKeptReceiving(s, step); }
    else if step.Handle? { TableKeptHandle(s, step.c, step.msg, step.decoded); }
    else { TableKeptLooping(s, step); }
  }

  /** Every step the environment may take keeps the invariant. */
  lemma InvKept(s: State, step: Step)
    requires Inv(s) && Enabled(s, step) && Assumed(s, step)
    ensures Inv(Apply(s, step))
  {
    IdKept(s, step);
    LockKept(s, step);
    PhaseKept(s, step);
    TracksKept(s, step);
    TableKept(s, step);
    FlightKept(s, step);
    EntryKept(s, step);
    ListKept(s, step);
    GoneKept(s, step);
    PendingKept(s, step);
    HeldKept(s, step);
    ConnKept(s, step);
    AccountKept(s, step);
    CallerKept(s, step);
    NoCrash(s, step);
  }

  lemma {:induction false} InvOfRun(s: State, steps: seq<Step>)
    requires Inv(s) && Run(s, steps)
    ensures Inv(Final(s, steps))
    decreases steps
  {
    if steps != [] {
      InvKept(s, steps[0]);
      InvOfRun(Apply(s, steps[0]), steps[1..]);
    }
  }

  lemma InvInitially()
    ensures Inv(Initial())
  {
  }

  lemma InvReachable(s: State)
    requires Reachable(s)
    ensures Inv(s)
  {
    var steps: seq<Step> :| Run(Initial(), steps) && s == Final(Initial(), steps);
    InvInitially();
    InvOfRun(Initial(), steps);
  }

  // ---------- the write lock ----------

  /** What reachable states know of ids, tracks and the table. */
  lemma TablesReachable(s: State)
    requires Reachable(s)
    ensures s.WellFormed() && IdInv(s) && TracksOk(s.calls.reqs, s.calls.tracks) && TableInv(s)
  {
    InvReachable(s);
  }

  /** What they know of connections. */
  lemma ConnReachable(s: State)
    requires Reachable(s)
    ensures s.WellFormed() && PhaseInv(s) && ConnInv(s)
  {
    InvReachable(s);
  }

  /** The callers that have taken the write lock on reqInit and not posted on reqSent yet. */
  function Holders(s: State): set<OpId> {
    set o | o in s.calls.callers && s.calls.callers[o].HoldsLock()
  }

  /**
   * Holders and posted outcomes together are one while the lock is taken and none while it is
   * free.  So writeConn has one user at a time, posting never blocks, and no reconnect or
   * failed send finds the operation in flight missing.
   */
  lemma WriteLock(s: State)
    requires Reachable(s)
    ensures |Holders(s)| + |s.loop.reqSent.buf| == if !s.loop.lockFree && s.loop.lastOp.Some? then 1 else 0
    ensures s.loop.lockFree <==> s.loop.lastOp.None?
    ensures Sound(s.loop.reqSent) && !s.crashed
    ensures forall o <- Holders(s) :: s.loop.lastOp == Some(o) && Sound(Send(s.loop.reqSent, o in s.calls.sent))
  {
    InvReachable(s);
    if !s.loop.lockFree && s.loop.reqSent.buf == [] {
      assert Holders(s) == {s.loop.lastOp.value};
    } else {
      assert Holders(s) == {};
    }
  }

  // ---------- response channels ----------

  /**
   * No response channel is closed twice, sent to after closing, or sent to while full; each id
   * is delivered at most once and only to the operation it was drawn for; the channel of a
   * subscribe request never carries a message, and its subscription starts at most once.
   */
  lemma ResponseChannels(s: State, o: OpId)
    requires Reachable(s) && o in s.calls.reqs
    ensures o in s.calls.tracks
    ensures var q, k := s.calls.reqs[o], s.calls.tracks[o];
      && Sound(k.view.resp)
      && |k.Delivered()| <= |q.ids|
      && (forall i :: 0 <= i < |k.Delivered()| ==> k.Delivered()[i].id.Some? && k.Delivered()[i].id.value in q.ids)
      && (forall i, j :: 0 <= i < j < |k.Delivered()| ==> k.Delivered()[i].id != k.Delivered()[j].id)
      && (q.kind.Subscribe? ==> k.Delivered() == [] && k.starts <= 1 && (k.starts == 1 ==> k.view.resp.closed))
  {
    TablesReachable(s);
    var q, k := s.calls.reqs[o], s.calls.tracks[o];
    assert TrackOk(q, k);
    IdSetSize(q.ids);
    SubsetSize(k.answered, IdSet(q));
  }

  /** A notification is never in the table, and an id in the table is still unanswered and names one operation. */
  lemma OutstandingRequests(s: State, id: string)
    requires Reachable(s) && id in s.loop.wait
    ensures var o := s.loop.wait[id];
      && o in s.calls.reqs && id in s.calls.reqs[o].ids && !s.calls.reqs[o].kind.Notify?
      && id !in s.calls.tracks[o].answered && !s.calls.tracks[o].view.resp.closed
      && (forall p <- s.calls.reqs :: id in s.calls.reqs[p].ids ==> p == o)
  {
    TablesReachable(s);
  }

  /**
   * Until the client is closed, an id stays in the table only while the caller of its operation
   * sends or waits, or while the outcome of a send that failed is still to be taken.
   */
  lemma NoStaleEntries(s: State, id: string)
    requires Reachable(s) && id in s.loop.wait && !s.closing
    ensures var o := s.loop.wait[id];
      && o in s.calls.callers
      && (Live(s.calls.callers[o]) || (s.loop.lastOp == Some(o) && o !in s.calls.sent && s.loop.reqSent.buf == [false]))
  {
    InvReachable(s);
  }

  /** Every listed client subscription has started, once, and is listed once; none survives its connection. */
  lemma ListedSubscriptions(s: State, id: string)
    requires Reachable(s) && id in s.loop.clientSubs
    ensures var o := s.loop.clientSubs[id];
      && o in s.calls.reqs && s.calls.reqs[o].kind.Subscribe?
      && s.calls.tracks[o].starts == 1 && s.calls.tracks[o].view.resp.closed && s.calls.tracks[o].view.err.None?
      && (forall other <- s.loop.clientSubs :: s.loop.clientSubs[other] == o ==> other == id)
    ensures s.loop.phase.Running? || s.loop.phase.Stopped?
  {
    InvReachable(s);
    assert TrackOk(s.calls.reqs[s.loop.clientSubs[id]], s.calls.tracks[s.loop.clientSubs[id]]);
  }

  // ---------- readers and handlers ----------

  /**
   * A handler is closed at most once, and once the client is closed, exactly once.  There is
   * one reader with an undelivered error, of the current connection, while reading is true
   * and dispatch has not taken that error; otherwise there is none.
   */
  lemma Lifecycle(s: State)
    requires Reachable(s)
    ensures forall c <- s.net.closes :: s.net.closes[c] <= 1
    ensures forall c <- s.net.closes :: s.net.closes[c] == 1 ==> c in s.net.codecClosed
    ensures s.loop.phase.Stopped? ==> s.net.readers == {} && forall c <- s.net.closes :: s.net.closes[c] == 1
    ensures s.net.readers == if ReaderAlive(s.loop) then {s.loop.conn} else {}
  {
    ConnReachable(s);
  }

  /** What the loop handles was read from the current connection, and its handler is open. */
  lemma HandledByOpenHandler(s: State, step: Step)
    requires Reachable(s) && s.WellFormed() && Enabled(s, step) && (step.Handle? || step.HandleOther?)
    ensures step.c == s.loop.conn && s.loop.conn in s.net.closes && s.net.closes[s.loop.conn] == 0
  {
    ConnReachable(s);
  }

  /** Outside a switch of connections, a write that can succeed goes to the current connection, and its handler is open. */
  lemma WritesToCurrentConnection(s: State)
    requires Reachable(s) && s.net.writeConn.Some? && s.loop.phase.Running?
    ensures s.net.writeConn.value == s.loop.conn
    ensures s.loop.conn in s.net.closes && (s.net.writeConn.value !in s.net.codecClosed ==> s.net.closes[s.loop.conn] == 0)
  {
    ConnReachable(s);
  }

  /**
   * No connection is lost: every connection that was dialled is still held by the caller that
   * dialled it, or was handed over to dispatch, or was closed.  Once the client is closed, all
   * but those still held are closed.
   */
  lemma NoLostConnections(s: State, c: ConnId)
    requires Reachable(s) && c < s.net.dials
    ensures HandedOver(s.loop, s.net, c) || exists o <- s.calls.callers :: s.calls.callers[o].Dialled? && s.calls.callers[o].codec == c
    ensures s.loop.phase.Stopped? ==>
      c in s.net.codecClosed || exists o <- s.calls.callers :: s.calls.callers[o].Dialled? && s.calls.callers[o].codec == c
  {
    InvReachable(s);
    assert HandedOver(s.loop, s.net, c) || Held(s.calls.callers, c);
  }

  // ---------- accounting ----------

  /**
   * Once the send of an operation succeeded, each of its ids is registered in the open current
   * handler, answered, closed with an error, or removed by a timeout.  The exception is an
   * operation that was in flight when a read error was handled and was not registered on
   * another connection since; and while dispatch switches connections, the one being moved.
   */
  lemma SentIsAccounted(s: State, o: OpId, id: string)
    requires Reachable(s) && o in s.calls.reqs && o in s.calls.sent && id in s.calls.reqs[o].ids
    ensures
      || (id in s.loop.wait && s.loop.wait[id] == o && s.loop.conn in s.net.closes && s.net.closes[s.loop.conn] == 0)
      || id in s.calls.tracks[o].answered
      || s.calls.tracks[o].view.resp.closed
      || o in s.calls.timedOut
      || o in s.calls.orphaned
      || (Moving(s.loop.phase) && s.loop.lastOp == Some(o))
    ensures s.calls.tracks[o].view.resp.closed && !s.calls.reqs[o].kind.Subscribe? ==> s.calls.tracks[o].view.err.Some?
  {
    InvReachable(s);
    assert TrackOk(s.calls.reqs[o], s.calls.tracks[o]);
    assert Accounted(s.calls, s.loop, o, id);
  }

  // ---------- what callers get ----------

  /**
   * A call that returns without error received its response; a batch that does received one
   * response for each of its ids; a subscribe request that does started its subscription.
   */
  lemma ReturnedCalls(s: State, o: OpId)
    requires Reachable(s) && o in s.calls.reqs && s.calls.callers[o] == Returned(true)
    ensures var q, k := s.calls.reqs[o], s.calls.tracks[o];
      if q.kind.Subscribe? then k.starts == 1
      else
        && |k.received| == |q.ids| == q.kind.Ids()
        && (forall i :: 0 <= i < |k.received| ==> k.received[i].IsResponse() && k.received[i].id.value in q.ids)
        && (forall i, j :: 0 <= i < j < |k.received| ==> k.received[i].id != k.received[j].id)
  {
    InvReachable(s);
    var q, k := s.calls.reqs[o], s.calls.tracks[o];
    assert TrackOk(q, k) && Complete(q.kind, k);
    IdSetSize(q.ids);
    SubsetSize(k.answered, IdSet(q));
    if !q.kind.Subscribe? {
      assert forall i :: 0 <= i < |k.received| ==> k.received[i] == k.Delivered()[i];
    }
  }

  /**
   * Conversely, a caller that has sent its operation, without error on it, and received all
   * its responses returns without error.
   */
  lemma CompleteCallsReturn(s: State, o: OpId)
    requires Reachable(s) && o in s.calls.reqs && s.calls.callers[o].Returned? && o in s.calls.sent
    requires s.calls.tracks[o].view.err.None? && !s.calls.reqs[o].kind.Subscribe?
    ensures s.calls.callers[o] == Returned(true) <==> |s.calls.tracks[o].received| == s.calls.reqs[o].kind.Ids()
  {
    InvReachable(s);
    assert PendingOk(s.calls.callers[o], true, s.calls.reqs[o], s.calls.tracks[o]);
    if s.calls.callers[o] == Returned(true) { ReturnedCalls(s, o); }
  }
}
