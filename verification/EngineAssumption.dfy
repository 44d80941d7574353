/**
 * The assumption about registering a request again is exact: whenever a new connection takes
 * over, the runs from there are free of blocking and panics on response channels if and only
 * if nothing of the request in flight was answered before.  And it is one that can fail.
 */
module EngineAssumption {
  import opened Wrappers
  import opened JsonRpc
  import opened Requests
  import opened Engine
  import opened EngineRuns
  import opened EngineInvariant
  import opened EngineTables
  import opened EngineTheorems

  /** The dispatch loop sent on a full or closed response channel or closed it twice: it is blocked or has panicked. */
  ghost predicate Broken(s: State) {
    exists o <- s.calls.tracks :: s.calls.tracks[o].view.resp.faulted
  }

  /** No run that goes on with the step, under the assumptions for all later steps, breaks the loop. */
  ghost predicate SafeAfter(s: State, step: Step)
    requires s.WellFormed() && Enabled(s, step)
  {
    forall rest | Run(Apply(s, step), rest) :: !Broken(Final(Apply(s, step), rest))
  }

  // ---------- an answered request on a new connection ----------

  /** Answering all the ids again sends more than the channel has room for. */
  lemma {:induction false} Overflow(s: State, c: ConnId, o: OpId, i: nat) returns (rest: seq<Step>)
    requires s.WellFormed() && s.loop.phase.Running? && c in s.net.readers && o in s.calls.reqs
    requires i <= |s.calls.reqs[o].ids| && Distinct(s.calls.reqs[o].ids)
    requires forall id <- s.calls.reqs[o].ids :: ReplyTo(id).IsResponse()
    requires forall j :: i <= j < |s.calls.reqs[o].ids| ==>
      s.calls.reqs[o].ids[j] in s.loop.wait && s.loop.wait[s.calls.reqs[o].ids[j]] == o
    requires var v := s.calls.tracks[o].view;
      !v.sub && |v.resp.buf| <= v.resp.cap && (v.resp.faulted || |v.resp.buf| + |s.calls.reqs[o].ids| - i > v.resp.cap)
    ensures Run(s, rest) && Broken(Final(s, rest))
    decreases |s.calls.reqs[o].ids| - i
  {
    if s.calls.tracks[o].view.resp.faulted {
      rest := [];
    } else {
      var step := Handle(c, ReplyTo(s.calls.reqs[o].ids[i]), DECODED);
      var t := DoHandle(s, c, step.msg, step.decoded);
      rest := Overflow(t, c, o, i + 1);
      RunOne(s, step);
      RunOn(s, [step], rest);
      rest := [step] + rest;
    }
  }

  /** Answering a subscribe request again closes its channel again. */
  lemma CloseTwice(s: State, c: ConnId, id: string) returns (rest: seq<Step>)
    requires s.WellFormed() && s.loop.phase.Running? && c in s.net.readers
    requires ReplyTo(id).IsResponse() && id in s.loop.wait
    requires s.calls.tracks[s.loop.wait[id]].view.sub && s.calls.tracks[s.loop.wait[id]].view.resp.closed
    ensures Run(s, rest) && Broken(Final(s, rest))
  {
    rest := [Handle(c, ReplyTo(id), DECODED)];
    RunOne(s, rest[0]);
    assert Apply(s, rest[0]).calls.tracks[s.loop.wait[id]].view.resp.faulted;
  }

  /** The request is registered on the new connection, whose reader runs; its channel is as before. */
  ghost predicate Installed(s: State, o: OpId, t: State)
    requires s.WellFormed() && t.WellFormed() && AtDialled(s, o)
  {
    && t.loop.phase.Running? && s.calls.callers[o].codec in t.net.readers
    && t.calls.reqs == s.calls.reqs && t.calls.tracks[o] == s.calls.tracks[o]
    && t.loop.wait == Registered(map[], s.calls.reqs[o].ids, o)
  }

  /** The old connection is closed and drained, and the new one takes over. */
  lemma CloseAndDrain(s: State) returns (t: State)
    requires s.WellFormed() && s.loop.phase.Closing? && s.loop.phase.after.Reconnect? && s.loop.conn in s.net.readers
    ensures t.WellFormed() && t.loop == InstallLoop(s.loop, s.calls.reqs, s.loop.phase.after.codec)
    ensures t.calls == NotOrphaned(s.calls, s.loop.lastOp) && s.loop.phase.after.codec in t.net.readers
    ensures var steps := [FinishClose] + [DrainReconnect(s.loop.conn)]; Run(s, steps) && t == Final(s, steps)
  {
    var u := DoFinishClose(s);
    t := DoDrainReconnect(u, s.loop.conn);
    RunOne(s, FinishClose);
    RunOne(u, DrainReconnect(s.loop.conn));
    RunOn(s, [FinishClose], [DrainReconnect(s.loop.conn)]);
  }

  /** The operation in flight is the one that reconnects, and a live reader is that of the current connection. */
  ghost predicate CanSwitch(s: State, step: Step)
    requires s.WellFormed()
  {
    && Enabled(s, step) && Reconnecting(step) && s.loop.lastOp == Some(step.o)
    && (step.Reconnected? ==> s.loop.conn in s.net.readers)
  }

  lemma InvCanSwitch(s: State, step: Step)
    requires Inv(s) && Enabled(s, step) && Reconnecting(step)
    ensures CanSwitch(s, step)
  {
  }

  lemma Reregistered(s: State, step: Step) returns (steps: seq<Step>, t: State)
    requires s.WellFormed() && CanSwitch(s, step)
    ensures Run(Apply(s, step), steps) && t == Final(Apply(s, step), steps)
    ensures t.WellFormed() && Installed(s, step.o, t)
  {
    if step.Reconnected? {
      t := CloseAndDrain(DoReconnected(s, step.o));
      steps := [FinishClose] + [DrainReconnect(s.loop.conn)];
    } else {
      steps, t := [], DoReconnectedIdle(s, step.o);
    }
  }

  /** The channel of an answered request that its caller does not wait for yet. */
  lemma AnsweredChannel(q: Req, k: Track)
    requires TrackOk(q, k) && k.received == [] && k.answered != {} && |q.ids| == q.kind.Ids()
    ensures if k.view.sub then k.view.resp.closed && |q.ids| == 1 else 0 < |k.view.resp.buf| <= k.view.resp.cap == |q.ids|
  {
    if !k.view.sub {
      assert k.Delivered() == k.view.resp.buf;
      SubsetSize(k.answered, IdSet(q));
      IdSetSize(q.ids);
    }
  }

  lemma InFlightAnswered(s: State, step: Step)
    requires Inv(s) && Enabled(s, step) && Reconnecting(step) && !Assumed(s, step)
    ensures var ids, v := s.calls.reqs[step.o].ids, s.calls.tracks[step.o].view;
      if v.sub then v.resp.closed && |ids| == 1 else 0 < |v.resp.buf| <= v.resp.cap == |ids|
  {
    assert s.loop.lastOp == Some(step.o);
    assert FlightOk(s.calls.callers[step.o], s.calls.reqs[step.o], s.calls.tracks[step.o]);
    AnsweredChannel(s.calls.reqs[step.o], s.calls.tracks[step.o]);
  }

  lemma RepliesAreResponses(s: State, o: OpId)
    requires IdInv(s) && o in s.calls.reqs
    ensures Distinct(s.calls.reqs[o].ids)
    ensures forall id <- s.calls.reqs[o].ids :: ReplyTo(id).IsResponse()
  {
    forall id <- s.calls.reqs[o].ids ensures ReplyTo(id).IsResponse() {
      IssuedReply(id, s.drawn);
    }
  }

  lemma Breaks(s: State, c: ConnId, o: OpId) returns (rest: seq<Step>)
    requires s.WellFormed() && s.loop.phase.Running? && c in s.net.readers && o in s.calls.reqs
    requires s.loop.wait == Registered(map[], s.calls.reqs[o].ids, o) && Distinct(s.calls.reqs[o].ids)
    requires forall id <- s.calls.reqs[o].ids :: ReplyTo(id).IsResponse()
    requires var ids, v := s.calls.reqs[o].ids, s.calls.tracks[o].view;
      if v.sub then v.resp.closed && |ids| == 1 else 0 < |v.resp.buf| <= v.resp.cap == |ids|
    ensures Run(s, rest) && Broken(Final(s, rest))
  {
    if s.calls.tracks[o].view.sub {
      rest := CloseTwice(s, c, s.calls.reqs[o].ids[0]);
    } else {
      rest := Overflow(s, c, o, 0);
    }
  }

  lemma AnsweredAgain(s: State, step: Step) returns (rest: seq<Step>)
    requires Inv(s) && Enabled(s, step) && Reconnecting(step) && !Assumed(s, step)
    ensures Run(Apply(s, step), rest) && Broken(Final(Apply(s, step), rest))
  {
    InvCanSwitch(s, step);
    var steps, t := Reregistered(s, step);
    InFlightAnswered(s, step);
    RepliesAreResponses(s, step.o);
    rest := Breaks(t, s.calls.callers[step.o].codec, step.o);
    RunOn(Apply(s, step), steps, rest);
    rest := steps + rest;
  }

  /** The assumption holds of a reconnect exactly if the loop cannot break after it. */
  lemma AssumptionIsExact(s: State, step: Step)
    requires Reachable(s) && s.WellFormed() && Enabled(s, step) && Reconnecting(step)
    ensures Assumed(s, step) <==> SafeAfter(s, step)
  {
    InvReachable(s);
    var t := Apply(s, step);
    if Assumed(s, step) {
      InvKept(s, step);
      forall rest | Run(t, rest) ensures !Broken(Final(t, rest)) {
        InvOfRun(t, rest);
        var u := Final(t, rest);
        assert forall o <- u.calls.tracks :: TrackOk(u.calls.reqs[o], u.calls.tracks[o]);
      }
    } else {
      var rest := AnsweredAgain(s, step);
    }
  }

  // ---------- the assumption can fail ----------

  /** Its response arrives before its write fails, and it dials again. */
  lemma AnsweredEarly(s: State, id: string) returns (t: State)
    requires Reachable(s) && s.WellFormed() && At(s, 0, Writing(false))
    requires s.loop.phase.Running? && s.loop.reading && s.loop.lastOp == Some(0) && 0 in s.net.readers && s.net.writeConn.Some?
    requires id in s.loop.wait && s.loop.wait[id] == 0 && ReplyTo(id).IsResponse()
    ensures Reachable(t) && t.WellFormed() && AtDialled(t, 0)
    ensures t.loop.phase.Running? && t.loop.reading && t.loop.lastOp == Some(0) && id in t.calls.tracks[0].answered
  {
    var u := DoHandle(s, 0, ReplyTo(id), DECODED);
    ReachableStep(s, Handle(0, ReplyTo(id), DECODED));
    var v := DoWriteFail(u, 0);
    ReachableStep(u, WriteFail(0));
    t := DoDialOk(v, 0);
    ReachableStep(v, DialOk(0));
  }

  /** The environment can offer a reconnect that the assumption excludes. */
  lemma AssumptionCanFail()
    ensures exists s, step ::
              Reachable(s) && s.WellFormed() && Enabled(s, step) && Reconnecting(step) && !Assumed(s, step)
  {
    var id := IdText(1);
    FreshId(0);
    IssuedReply(id, 1);
    var s := AcceptedOp(Call);
    var t := AnsweredEarly(s, id);
    assert Enabled(t, Reconnected(0)) && !Assumed(t, Reconnected(0));
  }
}
