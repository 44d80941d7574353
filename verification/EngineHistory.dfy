/**
 * What operations got, told by the steps of the run: the messages they received are those the
 * loop handled for them, errors come from a step that says so, and callers that failed did so
 * for a reason.
 */
module EngineHistory {
  import opened Wrappers
  import opened Channels
  import opened JsonRpc
  import opened ClientSubscriptions
  import opened Requests
  import opened Engine
  import opened EngineRuns
  import opened EngineInvariant
  import opened EngineTables
  import opened EngineTheorems

  /** The state before the last step of a run. */
  lemma LastStep(steps: seq<Step>) returns (front: seq<Step>, s: State, last: Step)
    requires Run(Initial(), steps) && steps != []
    ensures front == steps[..|steps| - 1] && last == steps[|steps| - 1]
    ensures Run(Initial(), front) && s == Final(Initial(), front) && s.WellFormed()
    ensures Enabled(s, last) && Final(Initial(), steps) == Apply(s, last)
  {
    RunFront(Initial(), steps);
    front, last := steps[..|steps| - 1], steps[|steps| - 1];
    s := Final(Initial(), front);
  }

  /** The same, with what is known of reachable states. */
  lemma BeforeLast(steps: seq<Step>) returns (front: seq<Step>, s: State, last: Step)
    requires Run(Initial(), steps) && steps != []
    ensures front == steps[..|steps| - 1] && last == steps[|steps| - 1]
    ensures Run(Initial(), front) && s == Final(Initial(), front) && Inv(s)
    ensures Enabled(s, last) && Final(Initial(), steps) == Apply(s, last) && Inv(Apply(s, last))
  {
    RunFront(Initial(), steps);
    front, last := steps[..|steps| - 1], steps[|steps| - 1];
    s := Final(Initial(), front);
    InvInitially();
    InvOfRun(Initial(), front);
    InvOfRun(Initial(), steps);
  }

  // ---------- messages ----------

  /** The step handles a response to an id that is registered for the operation. */
  predicate HandlesFor(s: State, step: Step, o: OpId) {
    step.Handle? && Awaited(s, step.msg) && s.loop.wait[step.msg.id.value] == o
  }

  /** The responses that the loop handled for the operation, in order. */
  ghost function HandledFor(steps: seq<Step>, o: OpId): seq<Message>
    requires Run(Initial(), steps)
  {
    if steps == [] then [] else
    RunFront(Initial(), steps);
    var front, last := steps[..|steps| - 1], steps[|steps| - 1];
    HandledFor(front, o) + if HandlesFor(Final(Initial(), front), last, o) then [last.msg] else []
  }

  lemma DeliveredHandle(s: State, c: ConnId, msg: Message, decoded: Result<string, Error>, o: OpId)
    requires s.WellFormed() && o in s.calls.reqs && Enabled(s, Handle(c, msg, decoded)) && !s.calls.tracks[o].view.sub
    requires !DoHandle(s, c, msg, decoded).calls.tracks[o].view.resp.faulted
    ensures DoHandle(s, c, msg, decoded).calls.tracks[o].Delivered() ==
            s.calls.tracks[o].Delivered() + if s.loop.wait[msg.id.value] == o then [msg] else []
  {
    var k, l := s.calls.tracks[o], DoHandle(s, c, msg, decoded).calls.tracks[o];
    if s.loop.wait[msg.id.value] == o {
      assert l.view.resp.buf == k.view.resp.buf + [msg];
      assert k.received + (k.view.resp.buf + [msg]) == k.Delivered() + [msg];
    }
  }

  lemma DeliveredReceive(s: State, p: OpId, o: OpId)
    requires s.WellFormed() && o in s.calls.reqs && Enabled(s, Receive(p))
    ensures DoReceive(s, p).calls.tracks[o].Delivered() == s.calls.tracks[o].Delivered()
  {
    var k := s.calls.tracks[o];
    if p == o {
      assert k.received + [k.view.resp.buf[0]] + k.view.resp.buf[1..] == k.Delivered();
    }
  }

  lemma DeliveredCancelling(s: State, step: Step, o: OpId)
    requires s.WellFormed() && o in s.calls.reqs && Enabled(s, step)
    requires step.Reconnected? || step.ReadFail? || step.CloseClient?
    ensures o in Apply(s, step).calls.tracks && Apply(s, step).calls.tracks[o].Delivered() == s.calls.tracks[o].Delivered()
  {
  }

  lemma TrackStays(s: State, step: Step, o: OpId)
    requires s.WellFormed() && o in s.calls.reqs && Enabled(s, step)
    requires !step.Receive? && !step.Handle? && !step.Reconnected? && !step.ReadFail? && !step.CloseClient?
    ensures o in Apply(s, step).calls.tracks && Apply(s, step).calls.tracks[o] == s.calls.tracks[o]
  {
    if !step.NewOp? && !step.DrawId? { TracksFrame(s, step); }
  }

  lemma DeliveredStep(s: State, step: Step, o: OpId)
    requires s.WellFormed() && Enabled(s, step) && o in s.calls.reqs && !s.calls.tracks[o].view.sub
    requires o in Apply(s, step).calls.tracks && !Apply(s, step).calls.tracks[o].view.resp.faulted
    ensures Apply(s, step).calls.tracks[o].Delivered() ==
            s.calls.tracks[o].Delivered() + if HandlesFor(s, step, o) then [step.msg] else []
  {
    if step.Handle? {
      DeliveredHandle(s, step.c, step.msg, step.decoded, o);
    } else if step.Receive? {
      DeliveredReceive(s, step.o, o);
    } else if step.Reconnected? || step.ReadFail? || step.CloseClient? {
      DeliveredCancelling(s, step, o);
    } else {
      TrackStays(s, step, o);
    }
  }

  /** Operations are only added, and what kind of call they are for stays. */
  lemma OpsStay(s: State, step: Step, o: OpId)
    requires s.WellFormed() && Enabled(s, step)
    ensures o in s.calls.reqs ==> o in Apply(s, step).calls.reqs && Apply(s, step).calls.reqs[o].kind == s.calls.reqs[o].kind
    ensures o !in s.calls.reqs && o in Apply(s, step).calls.reqs ==>
      step.NewOp? && step.o == o && Apply(s, step).calls.tracks[o] == NewTrack(step.kind)
  {
    if !step.NewOp? && !step.DrawId? { ReqsFrame(s, step); }
  }

  /**
   * Except for a subscribe request, the messages delivered to an operation are exactly the
   * responses the loop handled while their ids were registered for it: all of them, unchanged
   * and in order.
   */
  lemma {:induction false} DeliveredIsHandled(steps: seq<Step>, o: OpId)
    requires Run(Initial(), steps)
    ensures var s := Final(Initial(), steps);
      && (o !in s.calls.reqs ==> HandledFor(steps, o) == [])
      && (o in s.calls.reqs && !s.calls.reqs[o].kind.Subscribe? ==>
          o in s.calls.tracks && s.calls.tracks[o].Delivered() == HandledFor(steps, o))
  {
    if steps != [] {
      var front, s, last := BeforeLast(steps);
      DeliveredIsHandled(front, o);
      OpsStay(s, last, o);
      if o in s.calls.reqs {
        assert TrackOk(s.calls.reqs[o], s.calls.tracks[o]);
        assert TrackOk(Apply(s, last).calls.reqs[o], Apply(s, last).calls.tracks[o]);
        if !s.calls.tracks[o].view.sub { DeliveredStep(s, last, o); }
      }
    }
  }

  // ---------- errors ----------

  /** Why the step gives the operation this error. */
  predicate GivesError(s: State, step: Step, o: OpId, e: Error) {
    || (o in s.loop.wait.Values && step.ReadFail? && e == step.err)
    || (o in s.loop.wait.Values && step.Reconnected? && e == CLIENT_RECONNECTED)
    || (o in s.loop.wait.Values && step.CloseClient? && e == CLIENT_QUIT)
    || (HandlesFor(s, step, o) && step.msg.error.Some?
        && e.text == step.msg.error.value.message && e.code == Some(step.msg.error.value.code) && e.data == step.msg.error.value.data)
    || (HandlesFor(s, step, o) && step.msg.error.None? && step.decoded == Failure(e))
  }

  ghost predicate ErrorGiven(steps: seq<Step>, o: OpId, e: Error)
    requires Run(Initial(), steps)
  {
    steps != [] && (
      RunFront(Initial(), steps);
      var front, last := steps[..|steps| - 1], steps[|steps| - 1];
      GivesError(Final(Initial(), front), last, o, e) || ErrorGiven(front, o, e))
  }

  lemma ErrorHandle(s: State, c: ConnId, msg: Message, decoded: Result<string, Error>, o: OpId)
    requires s.WellFormed() && o in s.calls.reqs && Enabled(s, Handle(c, msg, decoded))
    ensures var e := DoHandle(s, c, msg, decoded).calls.tracks[o].view.err;
      e.Some? && e != s.calls.tracks[o].view.err ==> GivesError(s, Handle(c, msg, decoded), o, e.value)
  {
  }

  lemma ErrorCancelling(s: State, step: Step, o: OpId)
    requires s.WellFormed() && o in s.calls.reqs && Enabled(s, step)
    requires step.Reconnected? || step.ReadFail? || step.CloseClient?
    ensures o in Apply(s, step).calls.tracks
    ensures var e := Apply(s, step).calls.tracks[o].view.err;
      e.Some? && e != s.calls.tracks[o].view.err ==> GivesError(s, step, o, e.value)
  {
  }

  lemma ErrorStep(s: State, step: Step, o: OpId)
    requires s.WellFormed() && o in s.calls.reqs && Enabled(s, step)
    ensures o in Apply(s, step).calls.tracks
    ensures var e := Apply(s, step).calls.tracks[o].view.err;
      e.Some? && e != s.calls.tracks[o].view.err ==> GivesError(s, step, o, e.value)
  {
    if step.Handle? { ErrorHandle(s, step.c, step.msg, step.decoded, o); }
    else if step.Reconnected? || step.ReadFail? || step.CloseClient? { ErrorCancelling(s, step, o); }
    else if !step.Receive? { TrackStays(s, step, o); }
  }

  /**
   * The error of an operation is that of a read error, a reconnect or a close that found it
   * registered, or it is what the response to a subscribe request says, code and data included.
   */
  lemma {:induction false} ErrorHasCause(steps: seq<Step>, o: OpId)
    requires Run(Initial(), steps)
    requires o in Final(Initial(), steps).calls.reqs && Final(Initial(), steps).calls.tracks[o].view.err.Some?
    ensures ErrorGiven(steps, o, Final(Initial(), steps).calls.tracks[o].view.err.value)
  {
    if steps != [] {
      var front, s, last := BeforeLast(steps);
      OpsStay(s, last, o);
      if o in s.calls.reqs {
        ErrorStep(s, last, o);
        if s.calls.tracks[o].view.err == Apply(s, last).calls.tracks[o].view.err {
          ErrorHasCause(front, o);
        }
      }
    }
  }

  // ---------- listed subscriptions ----------

  /** The step handles a response that starts a subscription under the id. */
  predicate StartsUnder(s: State, step: Step, id: string) {
    && step.Handle? && Awaited(s, step.msg) && s.loop.wait[step.msg.id.value] in s.calls.tracks
    && s.calls.tracks[s.loop.wait[step.msg.id.value]].view.sub
    && step.msg.error == None && step.decoded == Success(id)
  }

  /** The step gives up the current connection, or takes one over. */
  predicate LeavesConnection(step: Step) {
    step.Reconnected? || step.ReconnectedIdle? || step.ReadFail? || step.CloseClient? || step.DrainReconnect?
  }

  /** The last response that started one under the id was for the operation, and came from the connection that still is current. */
  ghost predicate ListedIn(steps: seq<Step>, o: OpId, id: string)
    requires Run(Initial(), steps)
  {
    steps != [] && (
      RunFront(Initial(), steps);
      var front, last := steps[..|steps| - 1], steps[|steps| - 1];
      var s := Final(Initial(), front);
      if StartsUnder(s, last, id) then HandlesFor(s, last, o)
      else !LeavesConnection(last) && ListedIn(front, o, id))
  }

  ghost predicate Listed(s: State, o: OpId, id: string) {
    id in s.loop.clientSubs && s.loop.clientSubs[id] == o
  }

  lemma ListingHandle(s: State, step: Step, o: OpId, id: string)
    requires s.WellFormed() && Enabled(s, step) && step.Handle?
    ensures Listed(Apply(s, step), o, id) <==>
      if StartsUnder(s, step, id) then HandlesFor(s, step, o) else Listed(s, o, id)
  {
  }

  lemma ListingLeaves(s: State, step: Step, o: OpId, id: string)
    requires s.WellFormed() && Enabled(s, step) && LeavesConnection(step)
    ensures !Listed(Apply(s, step), o, id)
  {
  }

  lemma ListingElse(s: State, step: Step, o: OpId, id: string)
    requires s.WellFormed() && Enabled(s, step) && !step.Handle? && !LeavesConnection(step)
    ensures Listed(Apply(s, step), o, id) <==> Listed(s, o, id)
  {
    if Sending(step) && !step.TakeSent? { SendFrame(s, step); }
    else if Receiving(step) { var p := ReceiveFrame(s, step); }
  }

  /**
   * A subscription is listed under an id exactly if the last response that started one under
   * it was for that operation and its connection has not been given up since.
   */
  lemma {:induction false} ListedExactly(steps: seq<Step>, o: OpId, id: string)
    requires Run(Initial(), steps)
    ensures Listed(Final(Initial(), steps), o, id) <==> ListedIn(steps, o, id)
  {
    if steps != [] {
      var front, s, last := LastStep(steps);
      ListedExactly(front, o, id);
      if last.Handle? { ListingHandle(s, last, o, id); }
      else if LeavesConnection(last) { ListingLeaves(s, last, o, id); }
      else { ListingElse(s, last, o, id); }
    }
  }

  lemma {:induction false} RepliesForReceived(steps: seq<Step>, o: OpId)
    requires Run(Initial(), steps)
    requires var s := Final(Initial(), steps); o in s.calls.reqs && !s.calls.reqs[o].kind.Subscribe?
    ensures Final(Initial(), steps).calls.tracks[o].received <= HandledFor(steps, o)
  {
    DeliveredIsHandled(steps, o);
  }

  // ---------- callers ----------

  /** Where a step takes a caller; only steps of its own move it. */
  predicate CallerMove(c: Caller, step: Step, o: OpId, d: Caller) {
    if step == Accept(o) then c.Building? && d == Writing(false)
    else if step == Abandon(o) then c.Building? && d == Returned(false)
    else if step == WriteOk(o) then c.Writing? && d == Posting(true)
    else if step == WriteFail(o) then c.Writing? && d == if c.retry then Posting(false) else Writing(true)
    else if step == DialOk(o) then c.Writing? && d.Dialled? && d.retry == c.retry
    else if step == DialFail(o) then c.Writing? && d == Posting(false)
    else if step == Reconnected(o) || step == ReconnectedIdle(o) then c.Dialled? && d == Writing(c.retry)
    else if step == ReconnectLost(o) then c.Dialled? && d == Posting(false)
    else if step == PostSent(o) then c.Posting? && (d == Returned(c.ok) || (c.ok && d == Waiting))
    else if step == Receive(o) then c == Waiting && (d == Waiting || d.Returned?)
    else if step == ReceiveClosed(o) then c == Waiting && d.Returned?
    else if step == Timeout(o) then c == Waiting && d == TimingOut
    else if step == TakeTimeout(o) || step == TimeoutQuit(o) then c == TimingOut && d == Returned(false)
    else d == c
  }

  lemma MovesSending(s: State, step: Step, o: OpId)
    requires s.WellFormed() && Enabled(s, step) && o in s.calls.callers && Sending(step)
    ensures o in Apply(s, step).calls.callers && CallerMove(s.calls.callers[o], step, o, Apply(s, step).calls.callers[o])
  {
  }

  lemma MovesReceiving(s: State, step: Step, o: OpId)
    requires s.WellFormed() && Enabled(s, step) && o in s.calls.callers && Receiving(step)
    ensures o in Apply(s, step).calls.callers && CallerMove(s.calls.callers[o], step, o, Apply(s, step).calls.callers[o])
  {
  }

  lemma MovesStarting(s: State, step: Step, o: OpId)
    requires s.WellFormed() && Enabled(s, step) && o in s.calls.callers && (Starting(step) || Reconnecting(step))
    ensures o in Apply(s, step).calls.callers && CallerMove(s.calls.callers[o], step, o, Apply(s, step).calls.callers[o])
  {
    if Reconnecting(step) { ReconnectFrame(s, step); }
  }

  lemma MovesLooping(s: State, step: Step, o: OpId)
    requires s.WellFormed() && Enabled(s, step) && o in s.calls.callers && Looping(step)
    ensures o in Apply(s, step).calls.callers && CallerMove(s.calls.callers[o], step, o, Apply(s, step).calls.callers[o])
  {
    LoopFrame(s, step);
  }

  /** Every step moves a caller along these lines; in particular the first failed write is tried again. */
  lemma CallerMoves(s: State, step: Step, o: OpId)
    requires s.WellFormed() && Enabled(s, step) && o in s.calls.callers
    ensures o in Apply(s, step).calls.callers && CallerMove(s.calls.callers[o], step, o, Apply(s, step).calls.callers[o])
  {
    if Sending(step) { MovesSending(s, step, o); }
    else if Receiving(step) { MovesReceiving(s, step, o); }
    else if Looping(step) { MovesLooping(s, step, o); }
    else { MovesStarting(s, step, o); }
  }

  /** wait only returns an error for a message or a close if the operation has one. */
  lemma ReceiveFails(s: State, step: Step, o: OpId)
    requires s.WellFormed() && Enabled(s, step) && (step == Receive(o) || step == ReceiveClosed(o))
    ensures o in Apply(s, step).calls.callers && o in Apply(s, step).calls.tracks
    ensures Apply(s, step).calls.callers[o] == Returned(false) ==> Apply(s, step).calls.tracks[o].view.err.Some?
  {
  }

  lemma ErrorStaysHandle(s: State, step: Step, o: OpId)
    requires s.WellFormed() && Enabled(s, step) && o in s.calls.reqs && o !in s.loop.wait.Values
    requires step.Receive? || step.Handle?
    ensures o in Apply(s, step).calls.tracks && Apply(s, step).calls.tracks[o].view.err == s.calls.tracks[o].view.err
  {
  }

  lemma ErrorStaysCancelling(s: State, step: Step, o: OpId)
    requires s.WellFormed() && Enabled(s, step) && o in s.calls.reqs && o !in s.loop.wait.Values
    requires step.Reconnected? || step.ReadFail? || step.CloseClient?
    ensures o in Apply(s, step).calls.tracks && Apply(s, step).calls.tracks[o].view.err == s.calls.tracks[o].view.err
  {
  }

  /** An operation that is not in the table keeps its error. */
  lemma ErrorStays(s: State, step: Step, o: OpId)
    requires s.WellFormed() && Enabled(s, step) && o in s.calls.reqs && o !in s.loop.wait.Values
    ensures o in Apply(s, step).calls.tracks && Apply(s, step).calls.tracks[o].view.err == s.calls.tracks[o].view.err
  {
    if step.Receive? || step.Handle? { ErrorStaysHandle(s, step, o); }
    else if step.Reconnected? || step.ReadFail? || step.CloseClient? { ErrorStaysCancelling(s, step, o); }
    else { TrackStays(s, step, o); }
  }

  lemma ClosedLeavesTable(s: State, o: OpId)
    requires Inv(s) && o in s.calls.reqs && s.calls.tracks[o].view.err.Some?
    ensures o !in s.loop.wait.Values
  {
    assert TrackOk(s.calls.reqs[o], s.calls.tracks[o]);
  }

  lemma SentStays(s: State, step: Step, o: OpId)
    requires s.WellFormed() && Enabled(s, step) && o in s.calls.callers
    ensures o in Apply(s, step).calls.sent <==> o in s.calls.sent || step == WriteOk(o)
  {
    if Receiving(step) { var p := ReceiveFrame(s, step); }
    else if Reconnecting(step) { ReconnectFrame(s, step); }
    else if Looping(step) { LoopFrame(s, step); }
  }

  /** The caller returned an error although its operation was sent. */
  predicate FailedAfterSend(s: State, o: OpId) {
    o in s.calls.callers && s.calls.callers[o] == Returned(false) && o in s.calls.sent
  }

  lemma FailureStep(s: State, step: Step, o: OpId)
    requires s.WellFormed() && LockInv(s) && Enabled(s, step) && o in s.calls.callers
    ensures var t := Apply(s, step);
      && o in t.calls.callers && o in t.calls.tracks
      && (t.calls.callers[o].TimingOut? ==> s.calls.callers[o].TimingOut? || step == Timeout(o))
      && (FailedAfterSend(t, o) ==>
          FailedAfterSend(s, o) || s.calls.callers[o].TimingOut? || t.calls.tracks[o].view.err.Some?)
  {
    CallerMoves(s, step, o);
    SentStays(s, step, o);
    if step == Receive(o) || step == ReceiveClosed(o) { ReceiveFails(s, step, o); }
  }

  /**
   * A caller whose operation was sent returns an error only if its context ended or the
   * operation has an error; so a subscribe request that started and was not timed out returns
   * without error.
   */
  lemma {:induction false} FailureHasCause(steps: seq<Step>, o: OpId)
    requires Run(Initial(), steps) && o in Final(Initial(), steps).calls.callers
    ensures var s := Final(Initial(), steps);
      && (s.calls.callers[o].TimingOut? ==> Timeout(o) in steps)
      && (FailedAfterSend(s, o) ==> Timeout(o) in steps || s.calls.tracks[o].view.err.Some?)
  {
    if steps != [] {
      var front, s, last := LastStep(steps);
      assert steps == front + [last];
      if o in s.calls.callers {
        FailureHasCause(front, o);
        InLock(front);
        FailureStep(s, last, o);
        if s.calls.tracks[o].view.err.Some? { ErrorKept(front, last, o); }
      } else {
        NewCaller(s, last, o);
      }
    }
  }

  lemma InLock(steps: seq<Step>)
    requires Run(Initial(), steps)
    ensures LockInv(Final(Initial(), steps))
  {
    InvInitially();
    InvOfRun(Initial(), steps);
  }

  lemma ErrorKept(steps: seq<Step>, step: Step, o: OpId)
    requires Run(Initial(), steps) && Enabled(Final(Initial(), steps), step)
    requires var s := Final(Initial(), steps); o in s.calls.tracks && s.calls.tracks[o].view.err.Some?
    ensures var t := Apply(Final(Initial(), steps), step); o in t.calls.tracks && t.calls.tracks[o].view.err.Some?
  {
    InvInitially();
    InvOfRun(Initial(), steps);
    ClosedLeavesTable(Final(Initial(), steps), o);
    ErrorStays(Final(Initial(), steps), step, o);
  }

  // ---------- failed sends ----------

  function WriteFailures(steps: seq<Step>, o: OpId): nat {
    if steps == [] then 0 else
    WriteFailures(steps[..|steps| - 1], o) + if steps[|steps| - 1] == WriteFail(o) then 1 else 0
  }

  /** The send was given up: no connection could be had, or writing failed twice. */
  predicate GaveUp(steps: seq<Step>, o: OpId) {
    DialFail(o) in steps || ReconnectLost(o) in steps || WriteFailures(steps, o) == 2
  }

  predicate SendTold(c: Caller, steps: seq<Step>, o: OpId) {
    var n := WriteFailures(steps, o);
    match c
    case Building => n == 0
    case Writing(retry) => n == if retry then 1 else 0
    case Dialled(_, retry) => n == if retry then 1 else 0
    case Posting(ok) => if ok then n <= 1 && WriteOk(o) in steps else n <= 2 && GaveUp(steps, o)
    case Returned(ok) => n <= 2 && (WriteOk(o) in steps || (!ok && (Abandon(o) in steps || GaveUp(steps, o))))
    case _ => n <= 1 && WriteOk(o) in steps
  }

  lemma ToldOneMore(c: Caller, d: Caller, steps: seq<Step>, o: OpId)
    requires steps != []
    requires SendTold(c, steps[..|steps| - 1], o) && CallerMove(c, steps[|steps| - 1], o, d)
    ensures SendTold(d, steps, o)
  {
    assert forall x <- steps[..|steps| - 1] :: x in steps;
    assert steps[|steps| - 1] in steps;
  }

  lemma {:induction false} CallersTold(steps: seq<Step>, o: OpId)
    requires Run(Initial(), steps)
    ensures var s := Final(Initial(), steps);
      if o in s.calls.callers then SendTold(s.calls.callers[o], steps, o) else WriteFailures(steps, o) == 0
  {
    if steps != [] {
      var front, s, last := LastStep(steps);
      CallersTold(front, o);
      if o in s.calls.callers {
        CallerMoves(s, last, o);
        ToldOneMore(s.calls.callers[o], Apply(s, last).calls.callers[o], steps, o);
      } else {
        NewCaller(s, last, o);
      }
    }
  }

  lemma CallerStays(s: State, step: Step, o: OpId)
    requires s.WellFormed() && Enabled(s, step) && o in s.calls.callers
    ensures o in Apply(s, step).calls.callers
  {
    CallerMoves(s, step, o);
  }

  lemma NewCaller(s: State, step: Step, o: OpId)
    requires s.WellFormed() && Enabled(s, step) && o !in s.calls.callers
    ensures step != WriteFail(o) && step != WriteOk(o)
    ensures o in Apply(s, step).calls.callers ==> Apply(s, step).calls.callers[o] == Building && o !in Apply(s, step).calls.sent
  {
    if Receiving(step) { var p := ReceiveFrame(s, step); }
    else if Looping(step) { LoopFrame(s, step); }
  }

  lemma {:induction false} SentMeansWritten(steps: seq<Step>, o: OpId)
    requires Run(Initial(), steps)
    ensures var s := Final(Initial(), steps);
      if o in s.calls.callers then o in s.calls.sent <==> WriteOk(o) in steps else WriteOk(o) !in steps
  {
    if steps != [] {
      var front, s, last := LastStep(steps);
      assert steps == front + [last];
      SentMeansWritten(front, o);
      if o in s.calls.callers {
        SentStays(s, last, o);
        CallerStays(s, last, o);
      } else {
        NewCaller(s, last, o);
      }
    }
  }

  /**
   * No operation is written unsuccessfully more than twice; a send that failed was abandoned
   * before dispatch took it, or found no connection, or was written twice.
   */
  lemma FailedSends(steps: seq<Step>, o: OpId)
    requires Run(Initial(), steps) && o in Final(Initial(), steps).calls.callers
    ensures var s := Final(Initial(), steps);
      && WriteFailures(steps, o) <= 2
      && (s.calls.callers[o] == Posting(false) ==> GaveUp(steps, o))
      && (s.calls.callers[o] == Returned(false) && o !in s.calls.sent ==> Abandon(o) in steps || GaveUp(steps, o))
  {
    CallersTold(steps, o);
    SentMeansWritten(steps, o);
  }

  // ---------- operations do return ----------

  /** A subscribe request that started, and whose context did not end, never returns an error. */
  lemma StartedSubscriptionReturns(steps: seq<Step>, o: OpId)
    requires Run(Initial(), steps) && o in Final(Initial(), steps).calls.reqs
    requires var s := Final(Initial(), steps);
      o in s.calls.sent && s.calls.reqs[o].kind.Subscribe? && s.calls.tracks[o].starts == 1 && s.calls.callers[o].Returned?
    requires Timeout(o) !in steps
    ensures Final(Initial(), steps).calls.callers[o] == Returned(true)
  {
    FailureHasCause(steps, o);
    StartedHasNoError(steps, o);
  }

  lemma StartedHasNoError(steps: seq<Step>, o: OpId)
    requires Run(Initial(), steps) && o in Final(Initial(), steps).calls.reqs
    requires Final(Initial(), steps).calls.tracks[o].starts == 1
    ensures Final(Initial(), steps).calls.tracks[o].view.err.None?
  {
    InvInitially();
    InvOfRun(Initial(), steps);
    var s := Final(Initial(), steps);
    assert TrackOk(s.calls.reqs[o], s.calls.tracks[o]);
  }

  lemma AnswerArrives(s: State, reply: Message)
    requires s.WellFormed() && Enabled(s, Handle(0, reply, DECODED)) && s.loop.wait == map[reply.id.value := 0]
    requires At(s, 0, Posting(true)) && s.calls.tracks[0] == NewTrack(Call)
    ensures var t := DoHandle(s, 0, reply, DECODED);
      && At(t, 0, Posting(true)) && t.calls.sent == s.calls.sent && t.calls.reqs == s.calls.reqs
      && t.loop.reqSent == s.loop.reqSent
      && t.calls.tracks[0] == Track(OpView(false, Chan([reply], 1, false, false), None), [], {reply.id.value}, 0)
  {
  }

  lemma AnsweredCall() returns (s: State)
    ensures Reachable(s) && s.WellFormed() && At(s, 0, Posting(true)) && 0 in s.calls.sent && s.loop.reqSent == Make(1)
    ensures s.calls.reqs[0].kind == Call && s.calls.tracks[0].view == OpView(false, Chan([ReplyTo(IdText(1))], 1, false, false), None)
    ensures s.calls.tracks[0].received == []
  {
    FreshId(0);
    IssuedReply(IdText(1), 1);
    var t := WrittenOp(Call);
    AnswerArrives(t, ReplyTo(IdText(1)));
    s := DoHandle(t, 0, ReplyTo(IdText(1)), DECODED);
    ReachableStep(t, Handle(0, ReplyTo(IdText(1)), DECODED));
  }

  /** A reachable state in which a call has returned without error, with the result it was sent. */
  lemma CallReturns() returns (s: State)
    ensures Reachable(s) && s.WellFormed() && At(s, 0, Returned(true)) && 0 in s.calls.sent
    ensures s.calls.reqs[0].kind == Call && s.calls.tracks[0].received == [ReplyTo(IdText(1))]
  {
    var t := AnsweredCall();
    var u := DoPostSent(t, 0);
    ReachableStep(t, PostSent(0));
    s := DoReceive(u, 0);
    ReachableStep(u, Receive(0));
  }

  lemma AnsweredSubscription() returns (s: State)
    ensures Reachable(s) && s.WellFormed() && At(s, 0, Posting(true)) && 0 in s.calls.sent && s.loop.reqSent == Make(1)
    ensures s.calls.reqs[0].kind == Subscribe && s.calls.tracks[0].starts == 1
    ensures s.calls.tracks[0].view == OpView(true, Chan([], 0, true, false), None)
  {
    FreshId(0);
    IssuedReply(IdText(1), 1);
    var t := WrittenOp(Subscribe);
    s := DoHandle(t, 0, ReplyTo(IdText(1)), DECODED);
    ReachableStep(t, Handle(0, ReplyTo(IdText(1)), DECODED));
  }

  /** A reachable state in which a subscribe request has returned without error. */
  lemma SubscriptionReturns() returns (s: State)
    ensures Reachable(s) && s.WellFormed() && At(s, 0, Returned(true)) && 0 in s.calls.sent
    ensures s.calls.reqs[0].kind == Subscribe && s.calls.tracks[0].starts == 1
  {
    var t := AnsweredSubscription();
    var u := DoPostSent(t, 0);
    ReachableStep(t, PostSent(0));
    s := DoReceiveClosed(u, 0);
    ReachableStep(u, ReceiveClosed(0));
  }
}
