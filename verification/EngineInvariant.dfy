/** The invariants of the connection engine, each with the lemma that every step keeps it. */
module EngineInvariant {
  import opened Wrappers
  import opened Engine
  import Decimal

  // ---------- groups of steps, and what each leaves alone ----------

  predicate Starting(step: Step) {
    step.NewOp? || step.DrawId? || step.Abandon? || step.Accept?
  }

  predicate Sending(step: Step) {
    || step.WriteOk? || step.WriteFail? || step.DialOk? || step.DialFail? || step.ReconnectLost?
    || step.PostSent? || step.TakeSent?
  }

  predicate Reconnecting(step: Step) {
    step.Reconnected? || step.ReconnectedIdle?
  }

  predicate Receiving(step: Step) {
    step.Receive? || step.ReceiveClosed? || step.Timeout? || step.TakeTimeout? || step.TimeoutQuit?
  }

  predicate Looping(step: Step) {
    || step.Handle? || step.HandleOther? || step.ReadFail? || step.FinishClose? || step.Drop?
    || step.DrainReconnect? || step.DrainQuit? || step.CloseClient? || step.CloseIdle?
  }

  lemma StartFrame(s: State, step: Step)
    requires s.WellFormed() && Enabled(s, step) && Starting(step)
    ensures var t := Apply(s, step);
      && t.net == s.net && t.closing == s.closing && t.crashed == s.crashed
      && (step.Abandon? || step.Accept? ==>
          && t.calls == s.calls.(callers := t.calls.callers)
          && t.counter == s.counter && t.drawn == s.drawn)
      && (!step.Accept? ==> t.loop == s.loop)
  {
  }

  lemma TakeSentFrame(s: State)
    requires s.WellFormed() && Enabled(s, TakeSent)
    ensures var t := DoTakeSent(s);
      && t.calls == s.calls && t.net == s.net
      && t.counter == s.counter && t.drawn == s.drawn && t.closing == s.closing
  {
  }

  lemma SendFrame(s: State, step: Step)
    requires s.WellFormed() && Enabled(s, step) && Sending(step)
    ensures var t := Apply(s, step);
      && t.calls.reqs == s.calls.reqs && t.calls.tracks == s.calls.tracks
      && t.calls.timedOut == s.calls.timedOut && t.calls.orphaned == s.calls.orphaned
      && t.counter == s.counter && t.drawn == s.drawn && t.closing == s.closing
      && (!step.TakeSent? ==> t.loop == s.loop.(reqSent := t.loop.reqSent) && t.crashed == s.crashed)
      && (step.TakeSent? ==> t.calls == s.calls && t.net == s.net)
  {
    if step.TakeSent? { TakeSentFrame(s); }
  }

  lemma ReceiveFrame(s: State, step: Step) returns (o: OpId)
    requires s.WellFormed() && Enabled(s, step) && Receiving(step)
    ensures var t := Apply(s, step);
      && o in s.calls.callers && (s.calls.callers[o].Waiting? || s.calls.callers[o].TimingOut?)
      && t.calls.callers == s.calls.callers[o := t.calls.callers[o]]
      && (t.calls.callers[o].Waiting? || t.calls.callers[o].TimingOut? || t.calls.callers[o].Returned?)
      && t.calls.reqs == s.calls.reqs && t.calls.sent == s.calls.sent && t.calls.orphaned == s.calls.orphaned
      && t.loop == s.loop.(wait := t.loop.wait) && t.net == s.net
      && t.counter == s.counter && t.drawn == s.drawn && t.closing == s.closing
  {
    o := step.o;
  }

  lemma ReconnectFrame(s: State, step: Step)
    requires s.WellFormed() && Enabled(s, step) && Reconnecting(step)
    ensures var t := Apply(s, step);
      && t.calls.reqs == s.calls.reqs && t.calls.sent == s.calls.sent && t.calls.timedOut == s.calls.timedOut
      && t.loop.lastOp == s.loop.lastOp && t.loop.lockFree == s.loop.lockFree && t.loop.reqSent == s.loop.reqSent
      && t.counter == s.counter && t.drawn == s.drawn && t.closing == s.closing
      && t.calls.callers == s.calls.callers[step.o := Writing(s.calls.callers[step.o].retry)]
  {
  }

  lemma LoopFrame(s: State, step: Step)
    requires s.WellFormed() && Enabled(s, step) && Looping(step)
    ensures var t := Apply(s, step);
      && t.calls.reqs == s.calls.reqs && t.calls.callers == s.calls.callers && t.calls.sent == s.calls.sent
      && t.calls.timedOut == s.calls.timedOut
      && t.loop.lastOp == s.loop.lastOp && t.loop.lockFree == s.loop.lockFree && t.loop.reqSent == s.loop.reqSent
      && t.counter == s.counter && t.drawn == s.drawn
  {
  }

  /** Only NewOp and DrawId change the requests and the counter. */
  lemma ReqsFrame(s: State, step: Step)
    requires s.WellFormed() && Enabled(s, step) && !step.NewOp? && !step.DrawId?
    ensures var t := Apply(s, step);
      t.calls.reqs == s.calls.reqs && t.counter == s.counter && t.drawn == s.drawn
  {
    if Starting(step) { StartFrame(s, step); }
    else if Sending(step) { SendFrame(s, step); }
    else if Reconnecting(step) { ReconnectFrame(s, step); }
    else if Receiving(step) { var o := ReceiveFrame(s, step); }
    else { LoopFrame(s, step); }
  }

  // ---------- ids ----------

  /** The id was drawn: it is the text of one of the first `drawn` counter values. */
  ghost predicate Issued(id: string, drawn: nat) {
    exists k: nat :: 0 < k <= drawn && id == IdText(k)
  }

  ghost predicate Distinct(ids: seq<string>) {
    forall i, j :: 0 <= i < j < |ids| ==> ids[i] != ids[j]
  }

  /** No id is used twice, within one operation or across operations, and all were drawn. */
  ghost predicate IdsOk(reqs: map<OpId, Req>, drawn: nat) {
    && (forall o <- reqs :: Distinct(reqs[o].ids) && |reqs[o].ids| <= reqs[o].kind.Ids())
    && (forall o <- reqs, id <- reqs[o].ids :: Issued(id, drawn))
    && (forall o <- reqs, p <- reqs, id | id in reqs[o].ids && id in reqs[p].ids :: o == p)
  }

  ghost predicate IdInv(s: State) {
    s.counter == s.drawn < UINT32_RANGE && IdsOk(s.calls.reqs, s.drawn)
  }

  lemma FreshId(drawn: nat)
    ensures !Issued(IdText(drawn + 1), drawn)
    ensures Issued(IdText(drawn + 1), drawn + 1)
    ensures forall id | Issued(id, drawn) :: Issued(id, drawn + 1)
  {
    if Issued(IdText(drawn + 1), drawn) {
      var k: nat :| 0 < k <= drawn && IdText(drawn + 1) == IdText(k);
      Decimal.DigitsInjective(drawn + 1, k);
    }
    forall id | Issued(id, drawn) ensures Issued(id, drawn + 1) {
      var k: nat :| 0 < k <= drawn && id == IdText(k);
    }
  }

  lemma IdDrawn(reqs: map<OpId, Req>, drawn: nat, o: OpId)
    requires IdsOk(reqs, drawn) && o in reqs
    ensures IdsOk(reqs, drawn + 1)
    ensures |reqs[o].ids| < reqs[o].kind.Ids() ==>
      IdsOk(reqs[o := Req(reqs[o].kind, reqs[o].ids + [IdText(drawn + 1)])], drawn + 1)
  {
    FreshId(drawn);
    forall p <- reqs, id <- reqs[p].ids ensures Issued(id, drawn + 1) && id != IdText(drawn + 1) {
      assert Issued(id, drawn);
    }
  }

  lemma IdKeptNewOp(s: State, o: OpId, kind: Kind)
    requires s.WellFormed() && IdInv(s) && Enabled(s, NewOp(o, kind))
    ensures IdInv(DoNewOp(s, o, kind))
  {
  }

  lemma IdKeptDrawId(s: State, o: OpId)
    requires s.WellFormed() && IdInv(s) && Enabled(s, DrawId(o)) && Assumed(s, DrawId(o))
    ensures IdInv(DoDrawId(s, o))
  {
    IdDrawn(s.calls.reqs, s.drawn, o);
    assert s.calls.reqs[o := s.calls.reqs[o]] == s.calls.reqs;
  }

  lemma IdKept(s: State, step: Step)
    requires s.WellFormed() && IdInv(s) && Enabled(s, step) && Assumed(s, step)
    ensures IdInv(Apply(s, step))
  {
    if step.NewOp? { IdKeptNewOp(s, step.o, step.kind); }
    else if step.DrawId? { IdKeptDrawId(s, step.o); }
    else { ReqsFrame(s, step); }
  }

  // ---------- the write lock ----------

  ghost predicate LockInv(s: State) {
    && s.loop.reqSent.cap == 1 && !s.loop.reqSent.closed && !s.loop.reqSent.faulted
    && (s.loop.lockFree ==> s.loop.lastOp.None? && s.loop.reqSent.buf == [])
    && (!s.loop.lockFree ==>
      && s.loop.lastOp.Some? && s.loop.lastOp.value in s.calls.callers
      && !s.calls.callers[s.loop.lastOp.value].Building?
      && (s.loop.reqSent.buf == [] <==> s.calls.callers[s.loop.lastOp.value].HoldsLock())
      && |s.loop.reqSent.buf| <= 1
      && (s.loop.reqSent.buf != [] ==> s.loop.reqSent.buf[0] == (s.loop.lastOp.value in s.calls.sent)))
    && (forall o <- s.calls.callers :: s.calls.callers[o].HoldsLock() ==> s.loop.lastOp == Some(o))
    && (forall o <- s.calls.callers :: match s.calls.callers[o]
          case Building => o !in s.calls.sent
          case Writing(_) => o !in s.calls.sent
          case Dialled(_, _) => o !in s.calls.sent
          case Posting(ok) => ok == (o in s.calls.sent)
          case _ => true)
  }

  lemma LockKeptStarting(s: State, step: Step)
    requires s.WellFormed() && LockInv(s) && Enabled(s, step) && Starting(step)
    ensures LockInv(Apply(s, step))
  {
  }

  lemma LockKeptSending(s: State, step: Step)
    requires s.WellFormed() && LockInv(s) && Enabled(s, step) && Sending(step)
    ensures LockInv(Apply(s, step))
  {
  }

  lemma LockKeptReconnecting(s: State, step: Step)
    requires s.WellFormed() && LockInv(s) && Enabled(s, step) && Reconnecting(step)
    ensures LockInv(Apply(s, step))
  {
  }

  /** A caller that does not send moves on, to where it does not send either. */
  lemma LockMoves(s: State, t: State, o: OpId)
    requires LockInv(s) && o in s.calls.callers && (s.calls.callers[o].Waiting? || s.calls.callers[o].TimingOut?)
    requires o in t.calls.callers && t.calls.callers == s.calls.callers[o := t.calls.callers[o]] && t.calls.sent == s.calls.sent
    requires t.calls.callers[o].Waiting? || t.calls.callers[o].TimingOut? || t.calls.callers[o].Returned?
    requires t.loop.reqSent == s.loop.reqSent && t.loop.lockFree == s.loop.lockFree && t.loop.lastOp == s.loop.lastOp
    ensures LockInv(t)
  {
  }

  lemma LockKeptReceiving(s: State, step: Step)
    requires s.WellFormed() && LockInv(s) && Enabled(s, step) && Receiving(step)
    ensures LockInv(Apply(s, step))
  {
    var o := ReceiveFrame(s, step);
    LockMoves(s, Apply(s, step), o);
  }

  lemma LockKept(s: State, step: Step)
    requires s.WellFormed() && LockInv(s) && Enabled(s, step)
    ensures LockInv(Apply(s, step))
  {
    if Starting(step) { LockKeptStarting(s, step); }
    else if Sending(step) { LockKeptSending(s, step); }
    else if Reconnecting(step) { LockKeptReconnecting(s, step); }
    else if Receiving(step) { LockKeptReceiving(s, step); }
    else { LoopFrame(s, step); }
  }
}
