/**
 * Activation of notifiers, told by the steps of the run: a notifier is activated exactly if no
 * write of its buffer failed, and then every notification of the run was attempted.
 */
module ServerActivation {
  import opened JsonRpc
  import opened ServerCalls

  // ---------- runs ----------

  lemma {:induction false} RunFront(s: State, steps: seq<Step>)
    requires Run(s, steps) && steps != []
    ensures var front, last := steps[..|steps| - 1], steps[|steps| - 1];
      Run(s, front) && Enabled(Final(s, front), last) && Final(s, steps) == Apply(Final(s, front), last)
    decreases steps
  {
    var n := |steps| - 1;
    if n > 0 {
      assert steps[1..][..n - 1] == steps[..n][1..];
      RunFront(Apply(s, steps[0]), steps[1..]);
    }
  }

  lemma LastStep(steps: seq<Step>) returns (front: seq<Step>, s: State, last: Step)
    requires Run(Initial(), steps) && steps != []
    ensures front == steps[..|steps| - 1] && last == steps[|steps| - 1]
    ensures Run(Initial(), front) && s == Final(Initial(), front)
    ensures Enabled(s, last) && Final(Initial(), steps) == Apply(s, last)
  {
    RunFront(Initial(), steps);
    front, last := steps[..|steps| - 1], steps[|steps| - 1];
    s := Final(Initial(), front);
  }

  // ---------- what happened to a notifier ----------

  /** The step is a failing write of the notifier's buffer. */
  predicate FailsFor(s: State, step: Step, k: Key) {
    step.Send? && !step.ok && step.p == k.proc && step.p in s.procs
    && s.procs[step.p].pc.Activating? && s.procs[step.p].pc.next == k.index
  }

  ghost predicate SendFailed(steps: seq<Step>, k: Key)
    requires Run(Initial(), steps)
  {
    steps != [] && (
      RunFront(Initial(), steps);
      var front, last := steps[..|steps| - 1], steps[|steps| - 1];
      SendFailed(front, k) || FailsFor(Final(Initial(), front), last, k))
  }

  /** The payloads given to Notify in the run, in lock order. */
  function NotifiedIn(steps: seq<Step>, k: Key): seq<string> {
    if steps == [] then [] else
    var last := steps[|steps| - 1];
    NotifiedIn(steps[..|steps| - 1], k) + if last.Notify? && Key(last.p, last.i) == k then [last.payload] else []
  }

  // ---------- the invariant ----------

  predicate ActivationOk(procs: map<ProcId, Proc>, k: Key, failed: bool) {
    if Exists(procs, k) then
      var q := procs[k.proc];
      var activated := q.entries[k.index].view.activated;
      if q.pc.Passed(k.index) then activated <==> !failed else !activated && !failed
    else !failed
  }

  lemma ActivationHandling(s: State, step: Step, k: Key, failed: bool)
    requires Enabled(s, step) && ActivationOk(s.procs, k, failed)
    requires step.StartProc? || step.HandleCall? || step.HandleSubscribe? || step.Create? || step.Notify? || step.Unsubscribe?
    ensures ActivationOk(Apply(s, step).procs, k, failed)
  {
  }

  lemma ActivationMoving(s: State, step: Step, k: Key, failed: bool)
    requires Enabled(s, step) && ActivationOk(s.procs, k, failed)
    requires step.EndHandling? || step.Take? || step.EndAdding? || step.Answer? || step.BeginClose? || step.EndClose?
    ensures ActivationOk(Apply(s, step).procs, k, failed)
  {
  }

  lemma ActivationActivating(s: State, step: Step, k: Key, failed: bool)
    requires Enabled(s, step) && ActivationOk(s.procs, k, failed)
    requires step.BeginActivate? || step.Send? || step.EndActivate? || step.Finish?
    ensures ActivationOk(Apply(s, step).procs, k, failed || FailsFor(s, step, k))
  {
  }

  lemma ActivationStep(s: State, step: Step, k: Key, failed: bool)
    requires Enabled(s, step) && ActivationOk(s.procs, k, failed)
    ensures ActivationOk(Apply(s, step).procs, k, failed || FailsFor(s, step, k))
  {
    if step.BeginActivate? || step.Send? || step.EndActivate? || step.Finish? { ActivationActivating(s, step, k, failed); }
    else if step.EndHandling? || step.Take? || step.EndAdding? || step.Answer? || step.BeginClose? || step.EndClose? {
      ActivationMoving(s, step, k, failed);
    }
    else { ActivationHandling(s, step, k, failed); }
  }

  lemma {:induction false} ActivationOfRun(steps: seq<Step>, k: Key)
    requires Run(Initial(), steps)
    ensures ActivationOk(Final(Initial(), steps).procs, k, SendFailed(steps, k))
  {
    if steps != [] {
      var front, s, last := LastStep(steps);
      ActivationOfRun(front, k);
      ActivationStep(s, last, k, SendFailed(front, k));
    }
  }

  predicate NotifiedOk(procs: map<ProcId, Proc>, k: Key, payloads: seq<string>) {
    if Exists(procs, k) then procs[k.proc].entries[k.index].notified == payloads else payloads == []
  }

  lemma NotifiedHandling(s: State, step: Step, k: Key, payloads: seq<string>)
    requires Enabled(s, step) && NotifiedOk(s.procs, k, payloads)
    requires step.StartProc? || step.HandleCall? || step.HandleSubscribe? || step.Create? || step.Notify? || step.Unsubscribe?
    ensures NotifiedOk(Apply(s, step).procs, k,
                       payloads + if step.Notify? && Key(step.p, step.i) == k then [step.payload] else [])
  {
  }

  lemma NotifiedElse(s: State, step: Step, k: Key, payloads: seq<string>)
    requires Enabled(s, step) && NotifiedOk(s.procs, k, payloads)
    requires !step.StartProc? && !step.HandleCall? && !step.HandleSubscribe? && !step.Create? && !step.Notify? && !step.Unsubscribe?
    ensures NotifiedOk(Apply(s, step).procs, k, payloads)
  {
  }

  lemma {:induction false} NotifiedOfRun(steps: seq<Step>, k: Key)
    requires Run(Initial(), steps)
    ensures NotifiedOk(Final(Initial(), steps).procs, k, NotifiedIn(steps, k))
  {
    if steps != [] {
      var front, s, last := LastStep(steps);
      NotifiedOfRun(front, k);
      if last.StartProc? || last.HandleCall? || last.HandleSubscribe? || last.Create? || last.Notify? || last.Unsubscribe? {
        NotifiedHandling(s, last, k, NotifiedIn(front, k));
      } else {
        NotifiedElse(s, last, k, NotifiedIn(front, k));
      }
    }
  }

  // ---------- results ----------

  /** Once its goroutine is past a notifier, it is activated if and only if no write of its buffer failed; before, it is not. */
  lemma ActivatedExactly(steps: seq<Step>, k: Key)
    requires Run(Initial(), steps) && Exists(Final(Initial(), steps).procs, k)
    ensures var q := Final(Initial(), steps).procs[k.proc];
      q.entries[k.index].view.activated <==> q.pc.Passed(k.index) && !SendFailed(steps, k)
  {
    ActivationOfRun(steps, k);
  }

  /**
   * What was attempted for a notifier is a prefix of what the run gave to Notify; and past its
   * activation, if no write of the buffer failed, it is all of it, from before and after.
   */
  lemma NothingWithheld(steps: seq<Step>, k: Key)
    requires Run(Initial(), steps) && Exists(Final(Initial(), steps).procs, k)
    ensures var s := Final(Initial(), steps);
      && Payloads(s.attempts, k) <= NotifiedIn(steps, k)
      && (s.procs[k.proc].pc.Passed(k.index) && !SendFailed(steps, k) ==> Payloads(s.attempts, k) == NotifiedIn(steps, k))
  {
    ActivatedExactly(steps, k);
    NotifiedOfRun(steps, k);
    assert Reachable(Final(Initial(), steps));
    NotificationOrder(Final(Initial(), steps), k);
  }

  /** Closing the handler reports its error to the subscriptions still registered, and to no others; all end up closed. */
  lemma ClosingReports(s: State, err: Error, k: Key)
    requires Reachable(s) && Enabled(s, EndClose(err)) && Exists(s.procs, k) && s.procs[k.proc].entries[k.index].view.sub.Some?
    ensures Exists(Apply(s, EndClose(err)).procs, k)
    ensures var c, d := s.procs[k.proc].entries[k.index].err, Apply(s, EndClose(err)).procs[k.proc].entries[k.index].err;
      d.closed && d.buf == if k in s.serverSubs.Values then [err] else c.buf
  {
    InvReachable(s);
    var e := s.procs[k.proc].entries[k.index];
    assert ProcSubsOk(k.proc, s.procs[k.proc], s.serverSubs);
    assert SubOk(e, k, s.serverSubs);
    assert ProcNotes(k.proc, s.procs[k.proc], s.attempts);
    assert Progress(e, k.index, s.procs[k.proc].pc, Payloads(s.attempts, k));
  }
}
