/** Invariants of connections, readers and handlers, and the accounting of sent operations. */
module EngineAccounting {
  import opened Wrappers
  import opened JsonRpc
  import opened Engine
  import opened EngineInvariant
  import opened EngineTables

  // ---------- connections ----------

  /** The current handler has not been closed. */
  predicate HandlerOpen(loop: Loop) {
    loop.reading && (loop.phase.Running? || loop.phase.Closing?)
  }

  /** The reader of the current connection has not delivered its error. */
  predicate ReaderAlive(loop: Loop) {
    loop.reading && !loop.phase.Stopped? && loop.phase != Closing(ReadError)
  }

  ghost predicate LifeOk(loop: Loop, net: Net) {
    && (loop.phase.Closing? || loop.phase.Draining? ==> loop.reading)
    && net.readers == (if ReaderAlive(loop) then {loop.conn} else {})
    && loop.conn in net.closes
    && net.closes[loop.conn] == (if HandlerOpen(loop) then 0 else 1)
    && (forall c <- net.closes :: c < net.dials && (c != loop.conn ==> net.closes[c] == 1))
    && (forall c <- net.closes :: net.closes[c] == 1 ==> c in net.codecClosed)
    && (!loop.phase.Stopped? ==> net.codecClosed <= net.closes.Keys)
  }

  ghost predicate NewConn(net: Net, c: ConnId) {
    c < net.dials && c !in net.closes
  }

  ghost predicate WriteOkConn(loop: Loop, net: Net) {
    && (Moving(loop.phase) ==> NewConn(net, loop.phase.after.codec))
    && (net.writeConn.Some? ==> net.writeConn.value == if Moving(loop.phase) then loop.phase.after.codec else loop.conn)
  }

  ghost predicate DialledOk(callers: map<OpId, Caller>, loop: Loop, net: Net) {
    forall o <- callers :: callers[o].Dialled? ==>
      NewConn(net, callers[o].codec) && (Moving(loop.phase) ==> loop.phase.after.codec < callers[o].codec)
  }

  ghost predicate ConnInv(s: State) {
    && LifeOk(s.loop, s.net)
    && WriteOkConn(s.loop, s.net)
    && DialledOk(s.calls.callers, s.loop, s.net)
  }

  lemma ConnKeptDialOk(s: State, o: OpId)
    requires s.WellFormed() && ConnInv(s) && Enabled(s, DialOk(o))
    ensures ConnInv(DoDialOk(s, o))
  {
  }

  lemma ConnKeptLost(s: State, o: OpId)
    requires s.WellFormed() && PhaseInv(s) && ConnInv(s) && Enabled(s, ReconnectLost(o))
    ensures ConnInv(DoReconnectLost(s, o))
  {
  }

  /** A caller moves on without dialling; at most the connection for writing is given up. */
  lemma ConnMoves(s: State, t: State)
    requires ConnInv(s)
    requires forall o <- t.calls.callers :: t.calls.callers[o].Dialled? ==> o in s.calls.callers && s.calls.callers[o] == t.calls.callers[o]
    requires t.loop.phase == s.loop.phase && t.loop.conn == s.loop.conn && t.loop.reading == s.loop.reading
    requires t.net == s.net || t.net == s.net.(writeConn := None)
    ensures ConnInv(t)
  {
  }

  lemma ConnKeptSending(s: State, step: Step)
    requires s.WellFormed() && PhaseInv(s) && ConnInv(s) && Enabled(s, step)
    requires Sending(step)
    ensures ConnInv(Apply(s, step))
  {
    if step.DialOk? { ConnKeptDialOk(s, step.o); }
    else if step.ReconnectLost? { ConnKeptLost(s, step.o); }
    else { ConnMoves(s, Apply(s, step)); }
  }

  lemma ConnKeptReconnecting(s: State, step: Step)
    requires s.WellFormed() && LockInv(s) && PhaseInv(s) && ConnInv(s) && Enabled(s, step)
    requires Reconnecting(step)
    ensures ConnInv(Apply(s, step))
  {
  }

  lemma ConnKeptFinishClose(s: State)
    requires s.WellFormed() && PhaseInv(s) && ConnInv(s) && Enabled(s, FinishClose)
    ensures ConnInv(DoFinishClose(s))
  {
  }

  lemma ConnKeptDrained(s: State, c: ConnId)
    requires s.WellFormed() && PhaseInv(s) && ConnInv(s) && Enabled(s, DrainReconnect(c))
    ensures ConnInv(DoDrainReconnect(s, c))
  {
  }

  lemma ConnKeptLooping(s: State, step: Step)
    requires s.WellFormed() && PhaseInv(s) && ConnInv(s) && Enabled(s, step)
    requires Looping(step) && !step.FinishClose? && !step.DrainReconnect?
    ensures ConnInv(Apply(s, step))
  {
    LoopFrame(s, step);
  }

  lemma ConnKeptStarting(s: State, step: Step)
    requires s.WellFormed() && ConnInv(s) && Enabled(s, step) && Starting(step)
    ensures ConnInv(Apply(s, step))
  {
    StartFrame(s, step);
    ConnMoves(s, Apply(s, step));
  }

  lemma ConnKeptReceiving(s: State, step: Step)
    requires s.WellFormed() && ConnInv(s) && Enabled(s, step) && Receiving(step)
    ensures ConnInv(Apply(s, step))
  {
    var o := ReceiveFrame(s, step);
    ConnMoves(s, Apply(s, step));
  }

  lemma ConnKept(s: State, step: Step)
    requires s.WellFormed() && LockInv(s) && PhaseInv(s) && ConnInv(s) && Enabled(s, step)
    ensures ConnInv(Apply(s, step))
  {
    if Starting(step) { ConnKeptStarting(s, step); }
    else if Sending(step) { ConnKeptSending(s, step); }
    else if Reconnecting(step) { ConnKeptReconnecting(s, step); }
    else if Receiving(step) { ConnKeptReceiving(s, step); }
    else if step.FinishClose? { ConnKeptFinishClose(s); }
    else if step.DrainReconnect? { ConnKeptDrained(s, step.c); }
    else { ConnKeptLooping(s, step); }
  }

  // ---------- connections that were dialled ----------

  /** A caller in reconnect has the connection and has not handed it over. */
  ghost predicate Held(callers: map<OpId, Caller>, c: ConnId) {
    exists o <- callers :: callers[o].Dialled? && callers[o].codec == c
  }

  predicate HandedOver(loop: Loop, net: Net, c: ConnId) {
    c in net.closes || c in net.codecClosed || (Moving(loop.phase) && loop.phase.after.codec == c)
  }

  /** No connection is lost: dispatch has or had it, it was closed, or its caller still holds it. */
  ghost predicate HeldInv(s: State) {
    forall c: ConnId | c < s.net.dials :: HandedOver(s.loop, s.net, c) || Held(s.calls.callers, c)
  }

  lemma HeldKeptDial(s: State, o: OpId)
    requires s.WellFormed() && HeldInv(s) && Enabled(s, DialOk(o))
    ensures HeldInv(DoDialOk(s, o))
  {
    var t := DoDialOk(s, o);
    assert t.calls.callers[o].Dialled? && t.calls.callers[o].codec == s.net.dials;
    forall c: ConnId | c < s.net.dials && Held(s.calls.callers, c) ensures Held(t.calls.callers, c) {
      var p :| p in s.calls.callers && s.calls.callers[p].Dialled? && s.calls.callers[p].codec == c;
      assert p != o && t.calls.callers[p] == s.calls.callers[p];
    }
  }

  /** The connection that a caller gives up is handed over; whatever was handed over stays so. */
  lemma HeldMoves(s: State, t: State)
    requires HeldInv(s) && t.net.dials == s.net.dials
    requires forall c: ConnId | HandedOver(s.loop, s.net, c) :: HandedOver(t.loop, t.net, c)
    requires forall o <- s.calls.callers | s.calls.callers[o].Dialled? ::
      HandedOver(t.loop, t.net, s.calls.callers[o].codec) || (o in t.calls.callers && t.calls.callers[o] == s.calls.callers[o])
    ensures HeldInv(t)
  {
    forall c: ConnId | c < t.net.dials && !HandedOver(t.loop, t.net, c) ensures Held(t.calls.callers, c) {
      var o :| o in s.calls.callers && s.calls.callers[o].Dialled? && s.calls.callers[o].codec == c;
      assert t.calls.callers[o].Dialled?;
    }
  }

  lemma HeldFrameLooping(s: State, step: Step)
    requires s.WellFormed() && Enabled(s, step) && Looping(step)
    ensures var t := Apply(s, step);
      t.net.dials == s.net.dials && forall c: ConnId | HandedOver(s.loop, s.net, c) :: HandedOver(t.loop, t.net, c)
  {
  }

  lemma HeldFrameReconnecting(s: State, step: Step)
    requires s.WellFormed() && Enabled(s, step) && (Reconnecting(step) || step.ReconnectLost?)
    ensures var t := Apply(s, step);
      && t.net.dials == s.net.dials
      && (forall c: ConnId | HandedOver(s.loop, s.net, c) :: HandedOver(t.loop, t.net, c))
      && (forall o <- s.calls.callers | s.calls.callers[o].Dialled? ::
            HandedOver(t.loop, t.net, s.calls.callers[o].codec) || (o in t.calls.callers && t.calls.callers[o] == s.calls.callers[o]))
  {
  }

  lemma HeldFrameSending(s: State, step: Step)
    requires s.WellFormed() && Enabled(s, step) && Sending(step) && !step.DialOk? && !step.ReconnectLost?
    ensures var t := Apply(s, step);
      && t.net.dials == s.net.dials
      && (forall c: ConnId | HandedOver(s.loop, s.net, c) :: HandedOver(t.loop, t.net, c))
      && (forall o <- s.calls.callers | s.calls.callers[o].Dialled? :: o in t.calls.callers && t.calls.callers[o] == s.calls.callers[o])
  {
  }

  /** What is handed over stays so, and a caller that lets go of a connection hands it over. */
  lemma HeldFrame(s: State, step: Step)
    requires s.WellFormed() && Enabled(s, step) && !step.DialOk?
    ensures var t := Apply(s, step);
      && t.net.dials == s.net.dials
      && (forall c: ConnId | HandedOver(s.loop, s.net, c) :: HandedOver(t.loop, t.net, c))
      && (forall o <- s.calls.callers | s.calls.callers[o].Dialled? ::
            HandedOver(t.loop, t.net, s.calls.callers[o].codec) || (o in t.calls.callers && t.calls.callers[o] == s.calls.callers[o]))
  {
    if Starting(step) { StartFrame(s, step); }
    else if Receiving(step) { var o := ReceiveFrame(s, step); }
    else if Looping(step) { LoopFrame(s, step); HeldFrameLooping(s, step); }
    else if Reconnecting(step) || step.ReconnectLost? { HeldFrameReconnecting(s, step); }
    else { HeldFrameSending(s, step); }
  }

  lemma HeldKept(s: State, step: Step)
    requires s.WellFormed() && HeldInv(s) && Enabled(s, step)
    ensures HeldInv(Apply(s, step))
  {
    if step.DialOk? {
      HeldKeptDial(s, step.o);
    } else {
      HeldFrame(s, step);
      HeldMoves(s, Apply(s, step));
    }
  }

  // ---------- accounting ----------

  /** The send of the operation is under way or has succeeded. */
  predicate Committed(calls: Calls, o: OpId) {
    o in calls.sent || (o in calls.callers && (calls.callers[o].Writing? || calls.callers[o].Dialled?))
  }

  /** A response to the id still reaches the operation: it is registered in the current handler, which is open. */
  predicate Reaches(loop: Loop, o: OpId, id: string) {
    id in loop.wait && loop.wait[id] == o && HandlerOpen(loop)
  }

  /** The id needs no response any more. */
  predicate Settled(calls: Calls, o: OpId, id: string) {
    o in calls.tracks && (id in calls.tracks[o].answered || calls.tracks[o].view.resp.closed || o in calls.timedOut)
  }

  predicate Accounted(calls: Calls, loop: Loop, o: OpId, id: string) {
    || Reaches(loop, o, id)
    || Settled(calls, o, id)
    || o in calls.orphaned
    || (Moving(loop.phase) && loop.lastOp == Some(o))
    || (o !in calls.sent && loop.lastOp == Some(o) && !HandlerOpen(loop))
  }

  ghost predicate AccountInv(s: State) {
    forall o <- s.calls.reqs, id <- s.calls.reqs[o].ids | Committed(s.calls, o) :: Accounted(s.calls, s.loop, o, id)
  }

  lemma AccountKeptAccept(s: State, o: OpId)
    requires s.WellFormed() && LockInv(s) && AccountInv(s) && IdInv(s) && Enabled(s, Accept(o))
    ensures AccountInv(DoAccept(s, o))
  {
    var t := DoAccept(s, o);
    forall p <- t.calls.reqs, id <- t.calls.reqs[p].ids | Committed(t.calls, p) ensures Accounted(t.calls, t.loop, p, id) {
      assert p != o ==> Accounted(s.calls, s.loop, p, id) && id !in s.calls.reqs[o].ids;
    }
  }

  lemma AccountKeptDrawId(s: State, o: OpId)
    requires s.WellFormed() && LockInv(s) && AccountInv(s) && Enabled(s, DrawId(o))
    ensures AccountInv(DoDrawId(s, o))
  {
  }

  lemma AccountKeptNewOp(s: State, o: OpId, kind: Kind)
    requires s.WellFormed() && LockInv(s) && AccountInv(s) && Enabled(s, NewOp(o, kind))
    ensures AccountInv(DoNewOp(s, o, kind))
  {
  }

  /** The caller of an operation that is not under way moves on. */
  lemma AccountKeptCaller(s: State, o: OpId, c: Caller)
    requires AccountInv(s) && !c.Writing? && !c.Dialled?
    ensures AccountInv(s.(calls := SetCaller(s.calls, o, c)))
  {
  }

  lemma AccountKeptStarting(s: State, step: Step)
    requires s.WellFormed() && IdInv(s) && LockInv(s) && AccountInv(s) && Enabled(s, step) && Starting(step)
    ensures AccountInv(Apply(s, step))
  {
    if step.NewOp? { AccountKeptNewOp(s, step.o, step.kind); }
    else if step.DrawId? { AccountKeptDrawId(s, step.o); }
    else if step.Accept? { AccountKeptAccept(s, step.o); }
    else { AccountKeptCaller(s, step.o, Returned(false)); }
  }

  lemma AccountKeptWriteOk(s: State, o: OpId)
    requires s.WellFormed() && LockInv(s) && PhaseInv(s) && ConnInv(s) && AccountInv(s)
    requires Enabled(s, WriteOk(o)) && Assumed(s, WriteOk(o))
    ensures AccountInv(DoWriteOk(s, o))
  {
  }

  lemma AccountKeptTakeSent(s: State)
    requires s.WellFormed() && IdInv(s) && LockInv(s) && AccountInv(s) && Enabled(s, TakeSent)
    ensures AccountInv(DoTakeSent(s))
  {
  }

  lemma AccountKeptWriting(s: State, step: Step)
    requires s.WellFormed() && AccountInv(s) && Enabled(s, step)
    requires Sending(step) && !step.WriteOk? && !step.TakeSent?
    ensures AccountInv(Apply(s, step))
  {
    SendFrame(s, step);
  }

  lemma AccountKeptSending(s: State, step: Step)
    requires s.WellFormed() && IdInv(s) && LockInv(s) && PhaseInv(s) && ConnInv(s) && AccountInv(s)
    requires Enabled(s, step) && Assumed(s, step) && Sending(step)
    ensures AccountInv(Apply(s, step))
  {
    if step.WriteOk? { AccountKeptWriteOk(s, step.o); }
    else if step.TakeSent? { AccountKeptTakeSent(s); }
    else { AccountKeptWriting(s, step); }
  }

  lemma AccountKeptReconnecting(s: State, step: Step)
    requires s.WellFormed() && LockInv(s) && AccountInv(s) && Enabled(s, step) && Reconnecting(step)
    ensures AccountInv(Apply(s, step))
  {
    ReconnectFrame(s, step);
  }

  lemma AccountKeptReceive(s: State, o: OpId)
    requires s.WellFormed() && AccountInv(s) && Enabled(s, Receive(o))
    ensures AccountInv(DoReceive(s, o))
  {
  }

  lemma AccountKeptTimeout(s: State, o: OpId)
    requires s.WellFormed() && IdInv(s) && AccountInv(s) && Enabled(s, TakeTimeout(o))
    ensures AccountInv(DoTakeTimeout(s, o))
  {
  }

  lemma AccountKeptReceiving(s: State, step: Step)
    requires s.WellFormed() && IdInv(s) && AccountInv(s) && Enabled(s, step) && Receiving(step)
    ensures AccountInv(Apply(s, step))
  {
    if step.Receive? { AccountKeptReceive(s, step.o); }
    else if step.TakeTimeout? { AccountKeptTimeout(s, step.o); }
    else { AccountKeptCaller(s, step.o, Apply(s, step).calls.callers[step.o]); }
  }

  lemma AccountKeptHandle(s: State, c: ConnId, msg: Message, decoded: Result<string, Error>)
    requires s.WellFormed() && AccountInv(s) && Enabled(s, Handle(c, msg, decoded))
    ensures AccountInv(DoHandle(s, c, msg, decoded))
  {
  }

  lemma AccountKeptReadFail(s: State, c: ConnId, err: Error)
    requires s.WellFormed() && AccountInv(s) && Enabled(s, ReadFail(c, err))
    ensures AccountInv(DoReadFail(s, c, err))
  {
  }

  lemma AccountKeptFinishClose(s: State)
    requires s.WellFormed() && PhaseInv(s) && AccountInv(s) && Enabled(s, FinishClose)
    ensures AccountInv(DoFinishClose(s))
  {
  }

  lemma AccountKeptDrained(s: State, c: ConnId)
    requires s.WellFormed() && PhaseInv(s) && AccountInv(s) && Enabled(s, DrainReconnect(c))
    ensures AccountInv(DoDrainReconnect(s, c))
  {
  }

  /** Everything registered is cancelled, or nothing was reachable. */
  lemma AccountKeptClose(s: State)
    requires s.WellFormed() && AccountInv(s) && Enabled(s, CloseClient)
    ensures AccountInv(DoCloseClient(s))
  {
  }

  /** The loop stops; nothing was registered in an open handler. */
  lemma AccountKeptStop(s: State, t: State)
    requires AccountInv(s) && t.calls == s.calls && t.loop == s.loop.(phase := Stopped)
    requires !s.loop.reading || s.loop.wait == map[]
    requires !Moving(s.loop.phase)
    ensures AccountInv(t)
  {
  }

  lemma AccountKeptLooping(s: State, step: Step)
    requires s.WellFormed() && PhaseInv(s) && AccountInv(s) && Enabled(s, step) && Looping(step)
    ensures AccountInv(Apply(s, step))
  {
    if step.Handle? { AccountKeptHandle(s, step.c, step.msg, step.decoded); }
    else if step.ReadFail? { AccountKeptReadFail(s, step.c, step.err); }
    else if step.FinishClose? { AccountKeptFinishClose(s); }
    else if step.DrainReconnect? { AccountKeptDrained(s, step.c); }
    else if step.CloseClient? { AccountKeptClose(s); }
    else if step.CloseIdle? || step.DrainQuit? { AccountKeptStop(s, Apply(s, step)); }
  }
}
