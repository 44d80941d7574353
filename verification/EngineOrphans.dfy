/**
 * Operations that were in flight when a read error was handled: which they are, that they
 * exist, that nothing reaches them any more, and that all others stay registered.
 */
module EngineOrphans {
  import opened Wrappers
  import opened Channels
  import opened JsonRpc
  import opened Engine
  import opened EngineRuns
  import opened EngineInvariant
  import opened EngineTables
  import opened EngineAccounting
  import opened EngineTheorems

  // ---------- who is registered ----------

  /** A response to the id reaches the operation: the id is registered, in a handler that is open. */
  predicate RegisteredHere(s: State, o: OpId, id: string) {
    && id in s.loop.wait && s.loop.wait[id] == o
    && s.loop.conn in s.net.closes && s.net.closes[s.loop.conn] == 0
  }

  ghost predicate ConnReady(s: State) {
    s.WellFormed() && PhaseInv(s) && ConnInv(s)
  }

  /**
   * Of a sent operation with an open channel, an unanswered id is registered in the current,
   * open handler if and only if the operation was not removed by a timeout, is not orphaned,
   * and is not just being moved to another connection.
   */
  lemma RegisteredExactly(s: State, o: OpId, id: string)
    requires Reachable(s) && o in s.calls.reqs && o in s.calls.sent && id in s.calls.reqs[o].ids
    requires id !in s.calls.tracks[o].answered && !s.calls.tracks[o].view.resp.closed
    ensures RegisteredHere(s, o, id) <==>
      && o !in s.calls.timedOut && o !in s.calls.orphaned
      && !(Moving(s.loop.phase) && s.loop.lastOp == Some(o))
  {
    InvReachable(s);
    assert Accounted(s.calls, s.loop, o, id);
  }

  /** The move ends with all ids registered on the new connection, and nothing else ends it. */
  lemma MoveLands(s: State, c: ConnId)
    requires ConnReady(s) && Enabled(s, DrainReconnect(c)) && s.loop.lastOp.Some?
    ensures forall id <- s.calls.reqs[s.loop.lastOp.value].ids ::
      RegisteredHere(DoDrainReconnect(s, c), s.loop.lastOp.value, id)
  {
  }

  lemma MoveGoesOn(s: State, step: Step)
    requires ConnReady(s) && Moving(s.loop.phase) && Enabled(s, step) && !step.DrainReconnect?
    ensures Moving(Apply(s, step).loop.phase) && Apply(s, step).loop.lastOp == s.loop.lastOp
  {
    if Sending(step) { SendFrame(s, step); }
    else if Receiving(step) { var o := ReceiveFrame(s, step); }
  }

  lemma MoveArrives(s: State, step: Step)
    requires Reachable(s) && s.WellFormed() && Moving(s.loop.phase) && s.loop.lastOp.Some? && Enabled(s, step)
    ensures var t, o := Apply(s, step), s.loop.lastOp.value;
      if step.DrainReconnect? then forall id <- t.calls.reqs[o].ids :: RegisteredHere(t, o, id)
      else Moving(t.loop.phase) && t.loop.lastOp == s.loop.lastOp
  {
    ConnReachable(s);
    if step.DrainReconnect? { MoveLands(s, step.c); } else { MoveGoesOn(s, step); }
  }

  // ---------- who is orphaned ----------

  /** The step handles a read error while the operation is in flight. */
  predicate Drops(s: State, step: Step, o: OpId) {
    step.ReadFail? && s.loop.lastOp == Some(o)
  }

  /** The step registers the operation in flight on a new connection. */
  predicate Rescues(s: State, step: Step, o: OpId) {
    (step.ReconnectedIdle? || step.DrainReconnect?) && s.loop.lastOp == Some(o)
  }

  ghost predicate NeverRescued(s: State, steps: seq<Step>, o: OpId)
    requires s.WellFormed() && Possible(s, steps)
    decreases steps
  {
    steps == [] || (!Rescues(s, steps[0], o) && NeverRescued(Apply(s, steps[0]), steps[1..], o))
  }

  /** At some step of the run the operation is dropped, and at no later step it is rescued. */
  ghost predicate LeftBehind(s: State, steps: seq<Step>, o: OpId)
    requires s.WellFormed() && Possible(s, steps)
    decreases steps
  {
    steps != [] &&
    var t, rest := Apply(s, steps[0]), steps[1..];
    (Drops(s, steps[0], o) && NeverRescued(t, rest, o)) || LeftBehind(t, rest, o)
  }

  /** The other steps orphan nothing and rescue nothing. */
  lemma OrphanFrame(s: State, step: Step)
    requires s.WellFormed() && Enabled(s, step) && !step.ReadFail? && !step.ReconnectedIdle? && !step.DrainReconnect? && !step.NewOp?
    ensures Apply(s, step).calls.orphaned == s.calls.orphaned
  {
    if Sending(step) { SendFrame(s, step); }
    else if Receiving(step) { var p := ReceiveFrame(s, step); }
  }

  lemma ReqsGrow(s: State, step: Step, o: OpId)
    requires s.WellFormed() && Enabled(s, step) && o in s.calls.reqs
    ensures o in Apply(s, step).calls.reqs
  {
    if !step.NewOp? && !step.DrawId? { ReqsFrame(s, step); }
  }

  lemma OrphanStep(s: State, step: Step, o: OpId)
    requires s.WellFormed() && Enabled(s, step) && (o in s.calls.orphaned ==> o in s.calls.reqs)
    ensures var t := Apply(s, step);
      && (o in t.calls.orphaned <==> Drops(s, step, o) || (o in s.calls.orphaned && !Rescues(s, step, o)))
      && (o in t.calls.orphaned ==> o in t.calls.reqs)
  {
    if o in s.calls.reqs { ReqsGrow(s, step, o); }
    if !step.ReadFail? && !step.ReconnectedIdle? && !step.DrainReconnect? && !step.NewOp? { OrphanFrame(s, step); }
  }

  lemma {:induction false} OrphansAfter(s: State, steps: seq<Step>, o: OpId)
    requires s.WellFormed() && Possible(s, steps) && (o in s.calls.orphaned ==> o in s.calls.reqs)
    ensures o in Final(s, steps).calls.orphaned <==>
      (o in s.calls.orphaned && NeverRescued(s, steps, o)) || LeftBehind(s, steps, o)
    decreases steps
  {
    if steps != [] {
      OrphanStep(s, steps[0], o);
      OrphansAfter(Apply(s, steps[0]), steps[1..], o);
    }
  }

  /** An operation is orphaned exactly if it was left behind in the run so far. */
  lemma OrphanedMeansLeftBehind(steps: seq<Step>, o: OpId)
    requires Possible(Initial(), steps)
    ensures o in Final(Initial(), steps).calls.orphaned <==> LeftBehind(Initial(), steps, o)
  {
    OrphansAfter(Initial(), steps, o);
  }

  // ---------- nothing reaches an operation that is not registered ----------

  /** The operation is in no entry and will not be registered again. */
  ghost predicate Unregistered(s: State, o: OpId)
    requires s.WellFormed()
  {
    && o in s.calls.reqs && !s.calls.callers[o].Building? && s.loop.lastOp != Some(o)
    && forall id <- s.loop.wait :: s.loop.wait[id] != o
  }

  /** The response side of the operation is as before, but for messages its caller took from the channel. */
  predicate SameResponses(k: Track, l: Track) {
    && l.answered == k.answered && l.Delivered() == k.Delivered()
    && l.view.err == k.view.err && l.view.resp.closed == k.view.resp.closed
  }

  lemma UnregisteredStarting(s: State, step: Step, o: OpId)
    requires s.WellFormed() && Enabled(s, step) && Unregistered(s, o) && Starting(step)
    ensures Unregistered(Apply(s, step), o)
    ensures Apply(s, step).calls.tracks[o] == s.calls.tracks[o]
  {
  }

  lemma UnregisteredReceive(s: State, p: OpId, o: OpId)
    requires s.WellFormed() && Enabled(s, Receive(p)) && Unregistered(s, o)
    ensures Unregistered(DoReceive(s, p), o)
    ensures SameResponses(s.calls.tracks[o], DoReceive(s, p).calls.tracks[o])
  {
  }

  lemma UnregisteredHandle(s: State, c: ConnId, msg: Message, decoded: Result<string, Error>, o: OpId)
    requires s.WellFormed() && Enabled(s, Handle(c, msg, decoded)) && Unregistered(s, o)
    ensures Unregistered(DoHandle(s, c, msg, decoded), o)
    ensures DoHandle(s, c, msg, decoded).calls.tracks[o] == s.calls.tracks[o]
  {
  }

  lemma UnregisteredCancelling(s: State, step: Step, o: OpId)
    requires s.WellFormed() && Enabled(s, step) && Unregistered(s, o)
    requires step.Reconnected? || step.ReadFail? || step.CloseClient?
    ensures Unregistered(Apply(s, step), o)
    ensures Apply(s, step).calls.tracks[o] == s.calls.tracks[o]
  {
  }

  lemma UnregisteredSending(s: State, step: Step, o: OpId)
    requires s.WellFormed() && Enabled(s, step) && Unregistered(s, o) && Sending(step)
    ensures Unregistered(Apply(s, step), o)
    ensures Apply(s, step).calls.tracks[o] == s.calls.tracks[o]
  {
    SendFrame(s, step);
  }

  lemma UnregisteredWaiting(s: State, step: Step, o: OpId)
    requires s.WellFormed() && Enabled(s, step) && Unregistered(s, o) && Receiving(step) && !step.Receive?
    ensures Unregistered(Apply(s, step), o)
    ensures Apply(s, step).calls.tracks[o] == s.calls.tracks[o]
  {
    var p := ReceiveFrame(s, step);
    TracksFrame(s, step);
  }

  lemma UnregisteredElse(s: State, step: Step, o: OpId)
    requires s.WellFormed() && Enabled(s, step) && Unregistered(s, o)
    requires step.ReconnectedIdle? || (Looping(step) && !step.Handle? && !step.ReadFail? && !step.CloseClient?)
    ensures Unregistered(Apply(s, step), o)
    ensures Apply(s, step).calls.tracks[o] == s.calls.tracks[o]
  {
    TracksFrame(s, step);
    if Looping(step) { LoopFrame(s, step); } else { ReconnectFrame(s, step); }
  }

  lemma UnregisteredStep(s: State, step: Step, o: OpId)
    requires s.WellFormed() && Enabled(s, step) && Unregistered(s, o)
    ensures Unregistered(Apply(s, step), o)
    ensures SameResponses(s.calls.tracks[o], Apply(s, step).calls.tracks[o])
  {
    if Starting(step) { UnregisteredStarting(s, step, o); }
    else if step.Receive? { UnregisteredReceive(s, step.o, o); }
    else if step.Handle? { UnregisteredHandle(s, step.c, step.msg, step.decoded, o); }
    else if step.Reconnected? || step.ReadFail? || step.CloseClient? { UnregisteredCancelling(s, step, o); }
    else if Sending(step) { UnregisteredSending(s, step, o); }
    else if Receiving(step) { UnregisteredWaiting(s, step, o); }
    else { UnregisteredElse(s, step, o); }
  }

  lemma {:induction false} UnregisteredForever(s: State, steps: seq<Step>, o: OpId)
    requires s.WellFormed() && Possible(s, steps) && Unregistered(s, o)
    ensures Unregistered(Final(s, steps), o)
    ensures SameResponses(s.calls.tracks[o], Final(s, steps).calls.tracks[o])
    decreases steps
  {
    if steps != [] {
      UnregisteredStep(s, steps[0], o);
      UnregisteredForever(Apply(s, steps[0]), steps[1..], o);
    }
  }

  /** Once its send is over, an orphaned operation gets no response, no error and no close in any run. */
  lemma OrphanedForever(s: State, steps: seq<Step>, o: OpId)
    requires Reachable(s) && s.WellFormed() && o in s.calls.orphaned && s.loop.lastOp != Some(o) && Possible(s, steps)
    ensures o in s.calls.tracks && o in Final(s, steps).calls.tracks
    ensures SameResponses(s.calls.tracks[o], Final(s, steps).calls.tracks[o])
    ensures forall id <- Final(s, steps).loop.wait :: Final(s, steps).loop.wait[id] != o
  {
    InvReachable(s);
    UnregisteredForever(s, steps, o);
  }

  /** Its caller waits on an empty open channel, or gave up because its context ended. */
  ghost predicate Stranded(s: State, o: OpId)
    requires s.WellFormed()
  {
    && Unregistered(s, o)
    && s.calls.tracks[o].view.resp.buf == [] && !s.calls.tracks[o].view.resp.closed
    && (s.calls.callers[o].Waiting? || s.calls.callers[o].TimingOut? || s.calls.callers[o] == Returned(false))
  }

  lemma StrandedReceiving(s: State, step: Step, o: OpId)
    requires s.WellFormed() && Enabled(s, step) && Stranded(s, o) && Receiving(step)
    ensures o in Apply(s, step).calls.callers
    ensures var c := Apply(s, step).calls.callers[o]; c.Waiting? || c.TimingOut? || c == Returned(false)
  {
  }

  lemma StrandedSending(s: State, step: Step, o: OpId)
    requires s.WellFormed() && Enabled(s, step) && Stranded(s, o) && (Starting(step) || Sending(step))
    ensures o in Apply(s, step).calls.callers && Apply(s, step).calls.callers[o] == s.calls.callers[o]
  {
  }

  lemma StrandedCaller(s: State, step: Step, o: OpId)
    requires s.WellFormed() && Enabled(s, step) && Stranded(s, o)
    ensures o in Apply(s, step).calls.callers
    ensures var c := Apply(s, step).calls.callers[o]; c.Waiting? || c.TimingOut? || c == Returned(false)
  {
    if Receiving(step) { StrandedReceiving(s, step, o); }
    else if Starting(step) || Sending(step) { StrandedSending(s, step, o); }
    else if Reconnecting(step) { ReconnectFrame(s, step); }
    else { LoopFrame(s, step); }
  }

  lemma StrandedChannel(s: State, step: Step, o: OpId)
    requires s.WellFormed() && Enabled(s, step) && Stranded(s, o)
    ensures o in Apply(s, step).calls.tracks && Apply(s, step).calls.tracks[o].view.resp.buf == []
  {
    if !step.NewOp? && !step.DrawId? && !step.Reconnected? && !step.Receive?
       && !step.Handle? && !step.ReadFail? && !step.CloseClient?
    {
      TracksFrame(s, step);
    }
  }

  lemma StrandedStep(s: State, step: Step, o: OpId)
    requires s.WellFormed() && Enabled(s, step) && Stranded(s, o)
    ensures Stranded(Apply(s, step), o)
  {
    UnregisteredStep(s, step, o);
    StrandedCaller(s, step, o);
    StrandedChannel(s, step, o);
  }

  lemma {:induction false} StrandedForever(s: State, steps: seq<Step>, o: OpId)
    requires s.WellFormed() && Possible(s, steps) && Stranded(s, o)
    ensures Stranded(Final(s, steps), o)
    decreases steps
  {
    if steps != [] {
      StrandedStep(s, steps[0], o);
      StrandedForever(Apply(s, steps[0]), steps[1..], o);
    }
  }

  // ---------- there are such operations ----------

  lemma FailedCall() returns (s: State)
    ensures Reachable(s) && s.WellFormed() && At(s, 0, Posting(true)) && 0 in s.calls.sent && 0 in s.calls.orphaned
    ensures s.loop.phase == Closing(ReadError) && s.loop.reqSent == Make(1) && s.loop.lastOp == Some(0) && s.loop.wait == map[]
    ensures s.calls.reqs[0] == Req(Call, [IdText(1)])
    ensures s.calls.tracks[0].view.resp == Make(1) && s.calls.tracks[0].answered == {} && s.calls.timedOut == {}
  {
    var err := Error("", None, None);
    var t := WrittenOp(Call);
    s := DoReadFail(t, 0, err);
    ReachableStep(t, ReadFail(0, err));
  }

  /** The read error comes before the call's send is over. */
  lemma DroppedCall() returns (s: State)
    ensures Reachable(s) && s.WellFormed() && At(s, 0, Posting(true)) && 0 in s.calls.sent && 0 in s.calls.orphaned
    ensures s.loop.phase.Running? && s.loop.reqSent == Make(1) && s.loop.lastOp == Some(0) && s.loop.wait == map[]
    ensures s.calls.reqs[0] == Req(Call, [IdText(1)])
    ensures s.calls.tracks[0].view.resp == Make(1) && s.calls.tracks[0].answered == {} && s.calls.timedOut == {}
  {
    var t := FailedCall();
    s := DoFinishClose(t);
    ReachableStep(t, FinishClose);
  }

  lemma PostedCall() returns (s: State)
    ensures Reachable(s) && s.WellFormed() && At(s, 0, Waiting) && 0 in s.calls.sent && 0 in s.calls.orphaned
    ensures s.loop.phase.Running? && s.loop.reqSent.buf == [true] && s.loop.wait == map[]
    ensures s.calls.reqs[0] == Req(Call, [IdText(1)])
    ensures s.calls.tracks[0].view.resp == Make(1) && s.calls.tracks[0].answered == {} && s.calls.timedOut == {}
  {
    var t := DroppedCall();
    s := DoPostSent(t, 0);
    ReachableStep(t, PostSent(0));
  }

  /** A call can be left waiting, in every run, for a response that nothing will deliver. */
  lemma OrphanExists() returns (s: State)
    ensures Reachable(s) && s.WellFormed() && Stranded(s, 0)
    ensures At(s, 0, Waiting) && 0 in s.calls.sent && 0 in s.calls.orphaned && 0 !in s.calls.timedOut
    ensures s.calls.tracks[0].answered == {} && s.calls.reqs[0].ids != []
  {
    var t := PostedCall();
    s := DoTakeSent(t);
    ReachableStep(t, TakeSent);
  }
}
