/** No entry of the table of outstanding requests outlives its caller. */
module EngineEntries {
  import opened Wrappers
  import opened JsonRpc
  import opened Requests
  import opened Engine
  import opened EngineInvariant
  import opened EngineTables

  /** The caller still sends the operation or waits for it. */
  predicate Live(c: Caller) {
    c.HoldsLock() || c.Waiting? || c.TimingOut?
  }

  /** The operation has a live caller, or dispatch is about to take the outcome of its failed send. */
  predicate Tended(s: State, o: OpId) {
    o in s.calls.callers && (Live(s.calls.callers[o]) || (s.loop.lastOp == Some(o) && o !in s.calls.sent))
  }

  ghost predicate EntryInv(s: State)
    requires s.WellFormed()
  {
    !s.closing ==>
      && (forall id <- s.loop.wait :: Tended(s, s.loop.wait[id]))
      && (Moving(s.loop.phase) && s.loop.lastOp.Some? && s.calls.reqs[s.loop.lastOp.value].ids != [] ==>
          Tended(s, s.loop.lastOp.value))
  }

  lemma EntryKeptStarting(s: State, step: Step)
    requires s.WellFormed() && LockInv(s) && PhaseInv(s) && TableInv(s) && EntryInv(s) && Enabled(s, step)
    requires Starting(step)
    ensures EntryInv(Apply(s, step))
  {
    StartFrame(s, step);
  }

  lemma EntryKeptPostSent(s: State, o: OpId)
    requires s.WellFormed() && LockInv(s) && TableInv(s) && FlightInv(s) && EntryInv(s) && Enabled(s, PostSent(o))
    ensures EntryInv(DoPostSent(s, o))
  {
  }

  lemma EntryKeptTakeSent(s: State)
    requires s.WellFormed() && LockInv(s) && PhaseInv(s) && TableInv(s) && EntryInv(s) && Enabled(s, TakeSent)
    ensures EntryInv(DoTakeSent(s))
  {
  }

  lemma EntryKeptWriting(s: State, step: Step)
    requires s.WellFormed() && EntryInv(s) && Enabled(s, step)
    requires Sending(step) && !step.PostSent? && !step.TakeSent?
    ensures EntryInv(Apply(s, step))
  {
    SendFrame(s, step);
  }

  lemma EntryKeptSending(s: State, step: Step)
    requires s.WellFormed() && LockInv(s) && PhaseInv(s) && TableInv(s) && FlightInv(s) && EntryInv(s) && Enabled(s, step)
    requires Sending(step)
    ensures EntryInv(Apply(s, step))
  {
    if step.PostSent? { EntryKeptPostSent(s, step.o); }
    else if step.TakeSent? { EntryKeptTakeSent(s); }
    else { EntryKeptWriting(s, step); }
  }

  lemma EntryKeptReconnecting(s: State, step: Step)
    requires s.WellFormed() && LockInv(s) && PhaseInv(s) && TableInv(s) && EntryInv(s) && Enabled(s, step)
    requires Reconnecting(step)
    ensures EntryInv(Apply(s, step))
  {
    ReconnectFrame(s, step);
  }

  /** A caller that received a response for each id has none left to wait for. */
  lemma AllAnswered(q: Req, k: Track)
    requires TrackOk(q, k) && !k.view.sub && |k.received| >= q.kind.Ids()
    ensures forall id <- q.ids :: id in k.answered
  {
    IdSetSize(q.ids);
    if id :| id in q.ids && id !in k.answered {
      SubsetSize(k.answered, IdSet(q) - {id});
    }
  }

  lemma EntryKeptReceive(s: State, o: OpId)
    requires s.WellFormed() && TracksOk(s.calls.reqs, s.calls.tracks) && TableInv(s) && PhaseInv(s) && EntryInv(s)
    requires Enabled(s, Receive(o))
    ensures EntryInv(DoReceive(s, o))
  {
    var t := DoReceive(s, o);
    ReceivedOk(s.calls.reqs[o], s.calls.tracks[o]);
    if t.calls.callers[o] == Returned(true) {
      AllAnswered(t.calls.reqs[o], t.calls.tracks[o]);
    }
  }

  lemma EntryKeptWaiting(s: State, step: Step)
    requires s.WellFormed() && TableInv(s) && PhaseInv(s) && EntryInv(s) && Enabled(s, step)
    requires Receiving(step) && !step.Receive?
    ensures EntryInv(Apply(s, step))
  {
    var o := ReceiveFrame(s, step);
  }

  lemma EntryKeptLooping(s: State, step: Step)
    requires s.WellFormed() && LockInv(s) && PhaseInv(s) && TableInv(s) && EntryInv(s) && Enabled(s, step)
    requires Looping(step)
    ensures EntryInv(Apply(s, step))
  {
    LoopFrame(s, step);
  }

  lemma EntryKept(s: State, step: Step)
    requires s.WellFormed() && LockInv(s) && PhaseInv(s) && TracksOk(s.calls.reqs, s.calls.tracks) && TableInv(s)
    requires FlightInv(s) && EntryInv(s) && Enabled(s, step)
    ensures EntryInv(Apply(s, step))
  {
    if Starting(step) { EntryKeptStarting(s, step); }
    else if Sending(step) { EntryKeptSending(s, step); }
    else if Reconnecting(step) { EntryKeptReconnecting(s, step); }
    else if step.Receive? { EntryKeptReceive(s, step.o); }
    else if Receiving(step) { EntryKeptWaiting(s, step); }
    else { EntryKeptLooping(s, step); }
  }

  // ---------- client subscriptions ----------

  /** Listed subscriptions have started, each under one id. */
  ghost predicate ListOk(reqs: map<OpId, Req>, tracks: map<OpId, Track>, subs: map<string, OpId>) {
    && (forall id <- subs :: var o := subs[id];
        o in reqs && o in tracks && reqs[o].kind.Subscribe? && tracks[o].starts == 1)
    && (forall id <- subs, other <- subs :: subs[id] == subs[other] ==> id == other)
  }

  /** None is listed while a connection is given up. */
  ghost predicate ListInv(s: State) {
    && ListOk(s.calls.reqs, s.calls.tracks, s.loop.clientSubs)
    && (s.loop.phase.Closing? || s.loop.phase.Draining? ==> s.loop.clientSubs == map[])
  }

  /** An operation changes that is not started, or that stays so. */
  lemma ListUpdated(reqs: map<OpId, Req>, tracks: map<OpId, Track>, subs: map<string, OpId>, o: OpId, q: Req, k: Track)
    requires ListOk(reqs, tracks, subs)
    requires o in tracks && tracks[o].starts == 1 ==> k.starts == 1 && o in reqs && q.kind == reqs[o].kind
    ensures ListOk(reqs[o := q], tracks[o := k], subs)
  {
  }

  lemma ListHandled(reqs: map<OpId, Req>, tracks: map<OpId, Track>, subs: map<string, OpId>, o: OpId, msg: Message, decoded: Result<string, Error>)
    requires ListOk(reqs, tracks, subs) && o in reqs && o in tracks && TrackOk(reqs[o], tracks[o]) && !tracks[o].view.resp.closed
    requires msg.IsResponse()
    ensures var starts := Starts(tracks[o].view, msg, decoded);
      var l := Track(Responded(tracks[o].view, msg, decoded), tracks[o].received, tracks[o].answered + {msg.id.value},
                     tracks[o].starts + if starts then 1 else 0);
      ListOk(reqs, tracks[o := l], if starts then subs[decoded.value := o] else subs)
  {
  }

  lemma ListKeptHandle(s: State, c: ConnId, msg: Message, decoded: Result<string, Error>)
    requires s.WellFormed() && ListInv(s) && Enabled(s, Handle(c, msg, decoded))
    requires var o := s.loop.wait[msg.id.value];
      TrackOk(s.calls.reqs[o], s.calls.tracks[o]) && !s.calls.tracks[o].view.resp.closed
    ensures ListInv(DoHandle(s, c, msg, decoded))
  {
    ListHandled(s.calls.reqs, s.calls.tracks, s.loop.clientSubs, s.loop.wait[msg.id.value], msg, decoded);
  }

  lemma ListKeptOp(s: State, step: Step)
    requires s.WellFormed() && ListInv(s) && Enabled(s, step)
    requires step.NewOp? || step.DrawId? || step.Receive?
    ensures ListInv(Apply(s, step))
  {
    var t := Apply(s, step).calls;
    ListUpdated(s.calls.reqs, s.calls.tracks, s.loop.clientSubs, step.o, t.reqs[step.o], t.tracks[step.o]);
    assert t.reqs == s.calls.reqs[step.o := t.reqs[step.o]];
    assert t.tracks == s.calls.tracks[step.o := t.tracks[step.o]];
  }

  /** These steps empty the list. */
  lemma ListKeptCancelling(s: State, step: Step)
    requires s.WellFormed() && Enabled(s, step) && (step.Reconnected? || step.ReadFail? || step.CloseClient?)
    ensures ListInv(Apply(s, step))
  {
  }

  lemma ListKeptElse(s: State, step: Step)
    requires s.WellFormed() && ListInv(s) && Enabled(s, step)
    requires !step.NewOp? && !step.DrawId? && !step.Receive? && !step.Handle?
    requires !step.Reconnected? && !step.ReadFail? && !step.CloseClient?
    ensures ListInv(Apply(s, step))
  {
    ReqsFrame(s, step);
    TracksFrame(s, step);
  }

  lemma ListKept(s: State, step: Step)
    requires s.WellFormed() && TracksOk(s.calls.reqs, s.calls.tracks) && ListInv(s) && Enabled(s, step)
    requires WaitOk(s.calls.reqs, s.calls.tracks, s.loop.wait)
    ensures ListInv(Apply(s, step))
  {
    if step.Handle? {
      ListKeptHandle(s, step.c, step.msg, step.decoded);
    } else if step.NewOp? || step.DrawId? || step.Receive? {
      ListKeptOp(s, step);
    } else if step.Reconnected? || step.ReadFail? || step.CloseClient? {
      ListKeptCancelling(s, step);
    } else {
      ListKeptElse(s, step);
    }
  }

  // ---------- operations that are no longer registered ----------

  /** Neither a timeout nor a read error leaves an entry behind, and a timed-out caller is gone for good. */
  ghost predicate GoneInv(s: State) {
    && (forall id <- s.loop.wait :: s.loop.wait[id] !in s.calls.timedOut && s.loop.wait[id] !in s.calls.orphaned)
    && (forall o <- s.calls.timedOut :: o in s.calls.callers && s.calls.callers[o].Returned?
          && !(Moving(s.loop.phase) && s.loop.lastOp == Some(o)))
    && (forall o <- s.calls.orphaned :: o in s.calls.callers && !s.calls.callers[o].Building?)
  }

  lemma GoneKeptStarting(s: State, step: Step)
    requires s.WellFormed() && LockInv(s) && GoneInv(s) && Enabled(s, step) && Starting(step)
    ensures GoneInv(Apply(s, step))
  {
  }

  lemma GoneKeptSending(s: State, step: Step)
    requires s.WellFormed() && GoneInv(s) && Enabled(s, step) && Sending(step)
    ensures GoneInv(Apply(s, step))
  {
    SendFrame(s, step);
  }

  lemma GoneKeptReconnecting(s: State, step: Step)
    requires s.WellFormed() && LockInv(s) && GoneInv(s) && Enabled(s, step) && Reconnecting(step)
    ensures GoneInv(Apply(s, step))
  {
    ReconnectFrame(s, step);
  }

  lemma GoneKeptReceive(s: State, o: OpId)
    requires s.WellFormed() && GoneInv(s) && Enabled(s, Receive(o))
    ensures GoneInv(DoReceive(s, o))
  {
  }

  lemma GoneKeptTimeout(s: State, o: OpId)
    requires s.WellFormed() && TableInv(s) && GoneInv(s) && Enabled(s, TakeTimeout(o))
    ensures GoneInv(DoTakeTimeout(s, o))
  {
  }

  /** A caller that has not returned moves on. */
  lemma GoneMoves(s: State, t: State, o: OpId, c: Caller)
    requires GoneInv(s) && o in s.calls.callers && !s.calls.callers[o].Returned? && !c.Building?
    requires t.calls == SetCaller(s.calls, o, c) && t.loop == s.loop
    ensures GoneInv(t)
  {
  }

  lemma GoneKeptReceiving(s: State, step: Step)
    requires s.WellFormed() && TableInv(s) && GoneInv(s) && Enabled(s, step) && Receiving(step)
    ensures GoneInv(Apply(s, step))
  {
    if step.Receive? { GoneKeptReceive(s, step.o); }
    else if step.TakeTimeout? { GoneKeptTimeout(s, step.o); }
    else { GoneMoves(s, Apply(s, step), step.o, Apply(s, step).calls.callers[step.o]); }
  }

  lemma GoneKeptReadFail(s: State, c: ConnId, err: Error)
    requires s.WellFormed() && LockInv(s) && GoneInv(s) && Enabled(s, ReadFail(c, err))
    ensures GoneInv(DoReadFail(s, c, err))
  {
  }

  lemma GoneKeptDrained(s: State, c: ConnId)
    requires s.WellFormed() && GoneInv(s) && Enabled(s, DrainReconnect(c))
    ensures GoneInv(DoDrainReconnect(s, c))
  {
  }

  /** Entries leave the table, and no operation starts to move. */
  lemma GoneShrinks(s: State, t: State)
    requires GoneInv(s) && t.calls == s.calls.(tracks := t.calls.tracks) && t.loop.lastOp == s.loop.lastOp
    requires forall id <- t.loop.wait :: id in s.loop.wait && t.loop.wait[id] == s.loop.wait[id]
    requires Moving(t.loop.phase) ==> Moving(s.loop.phase)
    ensures GoneInv(t)
  {
  }

  lemma GoneKeptLooping(s: State, step: Step)
    requires s.WellFormed() && LockInv(s) && GoneInv(s) && Enabled(s, step) && Looping(step)
    ensures GoneInv(Apply(s, step))
  {
    if step.ReadFail? { GoneKeptReadFail(s, step.c, step.err); }
    else if step.DrainReconnect? { GoneKeptDrained(s, step.c); }
    else { GoneShrinks(s, Apply(s, step)); }
  }

  lemma GoneKept(s: State, step: Step)
    requires s.WellFormed() && LockInv(s) && TableInv(s) && GoneInv(s) && Enabled(s, step)
    ensures GoneInv(Apply(s, step))
  {
    if Starting(step) { GoneKeptStarting(s, step); }
    else if Sending(step) { GoneKeptSending(s, step); }
    else if Reconnecting(step) { GoneKeptReconnecting(s, step); }
    else if Receiving(step) { GoneKeptReceiving(s, step); }
    else { GoneKeptLooping(s, step); }
  }

  // ---------- callers that still wait, or failed ----------

  /** Who waits has not received everything; who failed after sending has an error, or has not received everything. */
  ghost predicate PendingOk(c: Caller, sent: bool, q: Req, k: Track) {
    && (c.Waiting? || c.TimingOut? ==> |k.received| < q.kind.Responses())
    && (c == Returned(false) && sent ==> k.view.err.Some? || |k.received| < q.kind.Responses())
  }

  ghost predicate PendingInv(s: State)
    requires s.WellFormed()
  {
    forall o <- s.calls.callers :: PendingOk(s.calls.callers[o], o in s.calls.sent, s.calls.reqs[o], s.calls.tracks[o])
  }

  lemma PendingKeptStarting(s: State, step: Step)
    requires s.WellFormed() && LockInv(s) && PendingInv(s) && Enabled(s, step) && Starting(step)
    ensures PendingInv(Apply(s, step))
  {
  }

  lemma PendingKeptPostSent(s: State, o: OpId)
    requires s.WellFormed() && LockInv(s) && FlightInv(s) && PendingInv(s) && Enabled(s, PostSent(o))
    ensures PendingInv(DoPostSent(s, o))
  {
    assert FlightOk(s.calls.callers[o], s.calls.reqs[o], s.calls.tracks[o]);
  }

  lemma PendingKeptSending(s: State, step: Step)
    requires s.WellFormed() && LockInv(s) && FlightInv(s) && PendingInv(s) && Enabled(s, step) && Sending(step)
    ensures PendingInv(Apply(s, step))
  {
    if step.PostSent? { PendingKeptPostSent(s, step.o); } else { SendFrame(s, step); }
  }

  lemma PendingKeptReceive(s: State, o: OpId)
    requires s.WellFormed() && PendingInv(s) && Enabled(s, Receive(o))
    ensures PendingInv(DoReceive(s, o))
  {
    assert PendingOk(s.calls.callers[o], o in s.calls.sent, s.calls.reqs[o], s.calls.tracks[o]);
  }

  lemma PendingKeptWaiting(s: State, step: Step)
    requires s.WellFormed() && PendingInv(s) && Enabled(s, step) && Receiving(step) && !step.Receive?
    ensures PendingInv(Apply(s, step))
  {
    var o := ReceiveFrame(s, step);
    TracksFrame(s, step);
  }

  lemma PendingKeptHandle(s: State, c: ConnId, msg: Message, decoded: Result<string, Error>)
    requires s.WellFormed() && TableInv(s) && PendingInv(s) && Enabled(s, Handle(c, msg, decoded))
    requires var o := s.loop.wait[msg.id.value]; TrackOk(s.calls.reqs[o], s.calls.tracks[o])
    ensures PendingInv(DoHandle(s, c, msg, decoded))
  {
    var o := s.loop.wait[msg.id.value];
    assert PendingOk(s.calls.callers[o], o in s.calls.sent, s.calls.reqs[o], s.calls.tracks[o]);
  }

  lemma PendingKeptReconnected(s: State, o: OpId)
    requires s.WellFormed() && PendingInv(s) && Enabled(s, Reconnected(o))
    ensures PendingInv(DoReconnected(s, o))
  {
  }

  lemma PendingKeptClosing(s: State, step: Step)
    requires s.WellFormed() && PendingInv(s) && Enabled(s, step)
    requires step.ReadFail? || step.CloseClient?
    ensures PendingInv(Apply(s, step))
  {
    LoopFrame(s, step);
  }

  lemma PendingKeptElse(s: State, step: Step)
    requires s.WellFormed() && PendingInv(s) && Enabled(s, step)
    requires step.ReconnectedIdle? || (Looping(step) && !step.Handle? && !step.ReadFail? && !step.CloseClient?)
    ensures PendingInv(Apply(s, step))
  {
    TracksFrame(s, step);
    if Looping(step) { LoopFrame(s, step); } else { ReconnectFrame(s, step); }
  }

  lemma PendingKept(s: State, step: Step)
    requires s.WellFormed() && LockInv(s) && TracksOk(s.calls.reqs, s.calls.tracks) && TableInv(s)
    requires FlightInv(s) && PendingInv(s) && Enabled(s, step)
    ensures PendingInv(Apply(s, step))
  {
    if Starting(step) { PendingKeptStarting(s, step); }
    else if Sending(step) { PendingKeptSending(s, step); }
    else if step.Receive? { PendingKeptReceive(s, step.o); }
    else if Receiving(step) { PendingKeptWaiting(s, step); }
    else if step.Handle? { PendingKeptHandle(s, step.c, step.msg, step.decoded); }
    else if step.Reconnected? { PendingKeptReconnected(s, step.o); }
    else if step.ReadFail? || step.CloseClient? { PendingKeptClosing(s, step); }
    else { PendingKeptElse(s, step); }
  }
}
