/** Putting runs of the connection engine together. */
module EngineRuns {
  import opened Wrappers
  import opened Channels
  import opened JsonRpc
  import opened Engine
  import opened EngineInvariant

  const DECODED: Result<string, Error> := Success("0")

  /** A response that carries a result. */
  function ReplyTo(id: string): Message {
    Message(VERSION, Some(id), "", None, None, Some("0"))
  }

  lemma {:induction false} RunOn(s: State, before: seq<Step>, after: seq<Step>)
    requires s.WellFormed() && Run(s, before) && Run(Final(s, before), after)
    ensures Run(s, before + after) && Final(s, before + after) == Final(Final(s, before), after)
    decreases before
  {
    if before == [] {
      assert before + after == after;
    } else {
      var all := before + after;
      assert all != [] && all[0] == before[0] && all[1..] == before[1..] + after;
      RunOn(Apply(s, before[0]), before[1..], after);
    }
  }

  lemma RunOne(s: State, step: Step)
    requires s.WellFormed() && Enabled(s, step) && Assumed(s, step)
    ensures Run(s, [step]) && Final(s, [step]) == Apply(s, step)
  {
  }

  /** The last step of a run is taken in the state the steps before it lead to. */
  lemma {:induction false} RunFront(s: State, steps: seq<Step>)
    requires s.WellFormed() && Run(s, steps) && steps != []
    ensures var front, last := steps[..|steps| - 1], steps[|steps| - 1];
      && Run(s, front)
      && Enabled(Final(s, front), last) && Assumed(Final(s, front), last)
      && Final(s, steps) == Apply(Final(s, front), last)
    decreases steps
  {
    var n := |steps| - 1;
    if n > 0 {
      assert steps[1..][..n - 1] == steps[..n][1..];
      RunFront(Apply(s, steps[0]), steps[1..]);
    }
  }

  lemma ReachableStep(s: State, step: Step)
    requires Reachable(s) && s.WellFormed() && Enabled(s, step) && Assumed(s, step)
    ensures Reachable(Apply(s, step))
  {
    var steps: seq<Step> :| Run(Initial(), steps) && s == Final(Initial(), steps);
    RunOne(s, step);
    RunOn(Initial(), steps, [step]);
  }

  /** A call or subscribe request that drew its id and is offered to a client that was just started. */
  lemma DrawnOp(kind: Kind) returns (s: State)
    requires kind.Call? || kind.Subscribe?
    ensures Reachable(s) && s.WellFormed() && At(s, 0, Building) && s.calls.reqs[0] == Req(kind, [IdText(1)])
    ensures s.loop == Initial().loop && s.net == Initial().net
    ensures s.calls.tracks[0] == NewTrack(kind)
    ensures s.calls.timedOut == {}
  {
    assert Run(Initial(), []) && Initial() == Final(Initial(), []);
    var t := DoNewOp(Initial(), 0, kind);
    ReachableStep(Initial(), NewOp(0, kind));
    s := DoDrawId(t, 0);
    ReachableStep(t, DrawId(0));
    assert s.calls.reqs[0].ids == [IdText(1)];
  }

  lemma IssuedReply(id: string, drawn: nat)
    requires Issued(id, drawn)
    ensures ReplyTo(id).IsResponse()
  {
  }

  /** It was accepted and is about to be written on the first connection. */
  lemma AcceptedOp(kind: Kind) returns (s: State)
    requires kind.Call? || kind.Subscribe?
    ensures Reachable(s) && s.WellFormed() && At(s, 0, Writing(false))
    ensures s.loop.phase.Running? && s.loop.reading && s.loop.reqSent == Make(1) && s.loop.lastOp == Some(0)
    ensures s.net == Initial().net && s.loop.wait == map[IdText(1) := 0]
    ensures s.calls.reqs[0] == Req(kind, [IdText(1)]) && s.calls.timedOut == {}
    ensures s.calls.tracks[0] == NewTrack(kind)
  {
    var t := DrawnOp(kind);
    s := DoAccept(t, 0);
    assert s.loop.wait == map[IdText(1) := 0];
    ReachableStep(t, Accept(0));
  }

  /** It was written and whose outcome is about to be posted. */
  lemma WrittenOp(kind: Kind) returns (s: State)
    requires kind.Call? || kind.Subscribe?
    ensures Reachable(s) && s.WellFormed() && At(s, 0, Posting(true)) && 0 in s.calls.sent
    ensures s.loop.phase.Running? && s.loop.reqSent == Make(1) && s.loop.lastOp == Some(0) && 0 in s.net.readers
    ensures s.loop.wait == map[IdText(1) := 0]
    ensures s.calls.reqs[0] == Req(kind, [IdText(1)]) && s.calls.timedOut == {}
    ensures s.calls.tracks[0] == NewTrack(kind)
  {
    var t := AcceptedOp(kind);
    s := DoWriteOk(t, 0);
    ReachableStep(t, WriteOk(0));
  }
}
