/**
 * Call goroutines, notifiers and server subscriptions of one handler under concurrency
 * (simple_rpc/rpc/handler.go and subscription.go).
 *
 * A call goroutine handles its calls, registers the subscriptions they created, writes the
 * answers and activates the notifiers.  User code may hold a notifier and use it at any time.
 * Closing the handler waits for the call goroutines and then cancels what is registered.
 * Steps interleave freely; a step that needs a notifier's mutex waits for it.
 */
module ServerCalls {
  import opened Wrappers
  import opened Channels
  import opened JsonRpc
  import opened Notifiers

  type ProcId = nat

  datatype Pc =
    | Handling
    | Adding(next: nat)                             // in addSubscriptions
    | Answering                                     // about to write the answers, if any
    | Activating(next: nat, sent: Option<nat>)      // sent: inside activate, holding the mutex
    | Done
  {
    /** The subscription of the i-th notifier was taken. */
    predicate Took(i: nat) {
      (Adding? && i < next) || Answering? || Activating? || Done?
    }

    /** The activation of the i-th notifier is over. */
    predicate Passed(i: nat) {
      (Activating? && i < next) || Done?
    }

    /** The activation of the i-th notifier is under way; its mutex is held. */
    predicate Locks(i: nat) {
      Activating? && sent.Some? && i == next
    }
  }

  /** A notifier: whether its subscribe call has an id, every payload given to Notify, and its subscription's err. */
  datatype Entry = Entry(withId: bool, view: NotifierView, notified: seq<string>, err: Chan<Error>)

  /** The notifiers of a call goroutine in the order of its subscribe calls; answers: some call has an id. */
  datatype Proc = Proc(entries: seq<Entry>, answers: bool, pc: Pc)

  datatype Key = Key(proc: ProcId, index: nat)

  datatype Closing = Open | Waiting | Closed

  datatype State = State(
    procs: map<ProcId, Proc>,
    serverSubs: map<string, Key>,
    attempts: seq<Attempt<Key>>,      // writes attempted on the connection
    closing: Closing)

  datatype Step =
    | StartProc(p: ProcId)
    | HandleCall(p: ProcId, withId: bool)
    | HandleSubscribe(p: ProcId, withId: bool)
    | Create(p: ProcId, i: nat, id: string)
    | Notify(p: ProcId, i: nat, payload: string)
    | Unsubscribe(p: ProcId, id: string)
    | EndHandling(p: ProcId)
    | Take(p: ProcId)
    | EndAdding(p: ProcId)
    | Answer(p: ProcId)
    | BeginActivate(p: ProcId)
    | Send(p: ProcId, ok: bool)
    | EndActivate(p: ProcId)
    | Finish(p: ProcId)
    | BeginClose
    | EndClose(err: Error)

  function Initial(): State {
    State(map[], map[], [], Open)
  }

  predicate Exists(procs: map<ProcId, Proc>, k: Key) {
    k.proc in procs && k.index < |procs[k.proc].entries|
  }

  predicate At(s: State, p: ProcId, pc: Pc) {
    p in s.procs && s.procs[p].pc == pc
  }

  /** The goroutine is in activate of an existing notifier, with the given number of payloads sent. */
  predicate Inside(q: Proc) {
    q.pc.Activating? && q.pc.sent.Some? && q.pc.next < |q.entries|
  }

  predicate Enabled(s: State, step: Step) {
    match step
    case StartProc(p) => p !in s.procs && s.closing.Open?
    case HandleCall(p, withId) => At(s, p, Handling)
    case HandleSubscribe(p, withId) => At(s, p, Handling)
    case Create(p, i, id) =>
      Exists(s.procs, Key(p, i)) && !s.procs[p].pc.Locks(i) && CanCreate(s.procs[p].entries[i].view)
    case Notify(p, i, payload) =>
      Exists(s.procs, Key(p, i)) && !s.procs[p].pc.Locks(i) && s.procs[p].entries[i].view.sub.Some?
    case Unsubscribe(p, id) => At(s, p, Handling) && id in s.serverSubs && Exists(s.procs, s.serverSubs[id])
    case EndHandling(p) => At(s, p, Handling)
    case Take(p) => p in s.procs && s.procs[p].pc.Adding? && s.procs[p].pc.next < |s.procs[p].entries|
    case EndAdding(p) => p in s.procs && s.procs[p].pc == Adding(|s.procs[p].entries|)
    case Answer(p) => At(s, p, Answering)
    case BeginActivate(p) =>
      p in s.procs && s.procs[p].pc.Activating? && s.procs[p].pc.sent.None? && s.procs[p].pc.next < |s.procs[p].entries|
    case Send(p, ok) =>
      p in s.procs && Inside(s.procs[p]) && s.procs[p].pc.sent.value < |s.procs[p].entries[s.procs[p].pc.next].view.buffer|
    case EndActivate(p) =>
      p in s.procs && Inside(s.procs[p]) && s.procs[p].pc.sent.value == |s.procs[p].entries[s.procs[p].pc.next].view.buffer|
    case Finish(p) => p in s.procs && s.procs[p].pc == Activating(|s.procs[p].entries|, None)
    case BeginClose => s.closing.Open?
    case EndClose(err) => s.closing.Waiting? && forall p <- s.procs :: s.procs[p].pc.Done?
  }

  /** The id generator yields distinct ids. */
  ghost predicate Assumed(s: State, step: Step) {
    step.Create? ==> forall p <- s.procs, i | 0 <= i < |s.procs[p].entries| :: s.procs[p].entries[i].view.sub != Some(step.id)
  }

  function Goto(s: State, p: ProcId, pc: Pc, entries: seq<Entry>): State
    requires p in s.procs
  {
    s.(procs := s.procs[p := s.procs[p].(entries := entries, pc := pc)])
  }

  function SetEntry(s: State, p: ProcId, i: nat, e: Entry): State
    requires Exists(s.procs, Key(p, i))
  {
    s.(procs := s.procs[p := s.procs[p].(entries := s.procs[p].entries[i := e])])
  }

  function WithErr(e: Entry, registered: bool, err: Error): Entry {
    if registered then e.(err := Close(Channels.Send(e.err, err))) else e
  }

  /** cancelServerSubscriptions: the error is sent and the channel closed, for every registered subscription. */
  function Cancelled(procs: map<ProcId, Proc>, serverSubs: map<string, Key>, err: Error): map<ProcId, Proc> {
    map p | p in procs :: procs[p].(entries :=
      seq(|procs[p].entries|, i requires 0 <= i < |procs[p].entries| =>
        WithErr(procs[p].entries[i], Key(p, i) in serverSubs.Values, err)))
  }

  function Apply(s: State, step: Step): State
    requires Enabled(s, step)
  {
    match step
    case StartProc(p) => s.(procs := s.procs[p := Proc([], false, Handling)])
    case HandleCall(p, withId) => s.(procs := s.procs[p := s.procs[p].(answers := s.procs[p].answers || withId)])
    case HandleSubscribe(p, withId) =>
      var q := s.procs[p];
      s.(procs := s.procs[p := Proc(q.entries + [Entry(withId, NewNotifier(), [], Make(1))], q.answers || withId, q.pc)])
    case Create(p, i, id) =>
      var e := s.procs[p].entries[i];
      SetEntry(s, p, i, e.(view := Created(e.view, id)))
    case Notify(p, i, payload) =>
      var e := s.procs[p].entries[i];
      SetEntry(s, p, i, e.(view := Notified(e.view, payload), notified := e.notified + [payload]))
        .(attempts := if e.view.activated then s.attempts + [Note(Key(p, i), payload)] else s.attempts)
    case Unsubscribe(p, id) =>
      var k := s.serverSubs[id];
      var e := s.procs[k.proc].entries[k.index];
      SetEntry(s, k.proc, k.index, e.(err := Close(e.err))).(serverSubs := s.serverSubs - {id})
    case EndHandling(p) => Goto(s, p, Adding(0), s.procs[p].entries)
    case Take(p) =>
      var i := s.procs[p].pc.next;
      var e := s.procs[p].entries[i];
      Goto(s, p, Adding(i + 1), s.procs[p].entries[i := e.(view := e.view.(callReturned := true))])
        .(serverSubs := if e.view.sub.Some? then s.serverSubs[e.view.sub.value := Key(p, i)] else s.serverSubs)
    case EndAdding(p) => Goto(s, p, Answering, s.procs[p].entries)
    case Answer(p) =>
      Goto(s, p, Activating(0, None), s.procs[p].entries).(attempts := if s.procs[p].answers then s.attempts + [Reply(p)] else s.attempts)
    case BeginActivate(p) => Goto(s, p, Activating(s.procs[p].pc.next, Some(0)), s.procs[p].entries)
    case Send(p, ok) =>
      var pc := s.procs[p].pc;
      var payload := s.procs[p].entries[pc.next].view.buffer[pc.sent.value];
      Goto(s, p, if ok then Activating(pc.next, Some(pc.sent.value + 1)) else Activating(pc.next + 1, None), s.procs[p].entries)
        .(attempts := s.attempts + [Note(Key(p, pc.next), payload)])
    case EndActivate(p) =>
      var i := s.procs[p].pc.next;
      var e := s.procs[p].entries[i];
      Goto(s, p, Activating(i + 1, None), s.procs[p].entries[i := e.(view := e.view.(activated := true))])
    case Finish(p) => Goto(s, p, Done, s.procs[p].entries)
    case BeginClose => s.(closing := Waiting)
    case EndClose(err) => State(Cancelled(s.procs, s.serverSubs, err), map[], s.attempts, Closed)
  }

  ghost predicate Run(s: State, steps: seq<Step>)
    decreases steps
  {
    steps == [] || (Enabled(s, steps[0]) && Assumed(s, steps[0]) && Run(Apply(s, steps[0]), steps[1..]))
  }

  ghost function Final(s: State, steps: seq<Step>): State
    requires Run(s, steps)
    decreases steps
  {
    if steps == [] then s else Final(Apply(s, steps[0]), steps[1..])
  }

  ghost predicate Reachable(s: State) {
    exists steps: seq<Step> :: Run(Initial(), steps) && s == Final(Initial(), steps)
  }

  // ---------- notifications ----------

  /** The payloads whose write was attempted for one notifier, in order. */
  function Payloads(attempts: seq<Attempt<Key>>, k: Key): seq<string> {
    if attempts == [] then [] else
    var a := attempts[|attempts| - 1];
    Payloads(attempts[..|attempts| - 1], k) + if a.Note? && a.key == k then [a.payload] else []
  }

  /** How far the writes for a notifier have come, given where its goroutine is. */
  ghost predicate Progress(e: Entry, i: nat, pc: Pc, written: seq<string>) {
    && (e.view.callReturned <==> pc.Took(i))
    && (e.view.sub.None? ==> e.view.buffer == [] && e.notified == [])
    && (e.view.activated ==> pc.Passed(i) && written == e.notified)
    && (!e.view.activated ==> e.notified == e.view.buffer && written <= e.view.buffer)
    && (pc.Locks(i) ==> !e.view.activated && written == e.view.buffer[..|written|] && pc.sent.value == |written|)
    && (!pc.Locks(i) && !pc.Passed(i) ==> written == [])
  }

  ghost predicate ProcNotes(p: ProcId, q: Proc, attempts: seq<Attempt<Key>>) {
    forall i | 0 <= i < |q.entries| :: Progress(q.entries[i], i, q.pc, Payloads(attempts, Key(p, i)))
  }

  ghost predicate NoteInv(s: State) {
    forall p <- s.procs :: ProcNotes(p, s.procs[p], s.attempts)
  }

  lemma Appended(attempts: seq<Attempt<Key>>, a: Attempt<Key>, k: Key)
    ensures Payloads(attempts + [a], k) == Payloads(attempts, k) + if a.Note? && a.key == k then [a.payload] else []
  {
  }

  lemma OthersKept(s: State, p: ProcId, a: Attempt<Key>)
    requires NoteInv(s) && (a.Note? ==> a.key.proc == p)
    ensures forall r <- s.procs | r != p :: ProcNotes(r, s.procs[r], s.attempts + [a])
  {
  }

  /** No notifier of a goroutine that is not there yet was written for. */
  ghost predicate NoStray(s: State) {
    forall j | 0 <= j < |s.attempts| && s.attempts[j].Note? :: Exists(s.procs, s.attempts[j].key)
  }

  lemma {:induction false} NothingWritten(procs: map<ProcId, Proc>, attempts: seq<Attempt<Key>>, k: Key)
    requires forall j | 0 <= j < |attempts| && attempts[j].Note? :: Exists(procs, attempts[j].key)
    requires !Exists(procs, k)
    ensures Payloads(attempts, k) == []
  {
    if attempts != [] {
      NothingWritten(procs, attempts[..|attempts| - 1], k);
    }
  }

  /** One goroutine moves on and writes nothing. */
  lemma NoteReplaced(s: State, t: State, p: ProcId, q: Proc)
    requires NoteInv(s) && NoStray(s) && p in s.procs && ProcNotes(p, q, s.attempts)
    requires |q.entries| >= |s.procs[p].entries|
    requires t.procs == s.procs[p := q] && t.attempts == s.attempts
    ensures NoteInv(t) && NoStray(t)
  {
  }

  lemma NoteKeptHandling(s: State, step: Step)
    requires NoteInv(s) && NoStray(s) && Enabled(s, step)
    requires step.StartProc? || step.HandleCall? || step.HandleSubscribe?
    ensures NoteInv(Apply(s, step)) && NoStray(Apply(s, step))
  {
    if step.HandleSubscribe? {
      NothingWritten(s.procs, s.attempts, Key(step.p, |s.procs[step.p].entries|));
    }
  }

  lemma NoteKeptAdding(s: State, step: Step)
    requires NoteInv(s) && NoStray(s) && Enabled(s, step)
    requires step.EndHandling? || step.Take? || step.EndAdding?
    ensures NoteInv(Apply(s, step)) && NoStray(Apply(s, step))
  {
    assert ProcNotes(step.p, s.procs[step.p], s.attempts);
    NoteReplaced(s, Apply(s, step), step.p, Apply(s, step).procs[step.p]);
  }

  lemma NoteKeptUsing(s: State, step: Step)
    requires NoteInv(s) && NoStray(s) && Enabled(s, step)
    requires step.Create? || step.Unsubscribe?
    ensures NoteInv(Apply(s, step)) && NoStray(Apply(s, step))
  {
    var p := if step.Create? then step.p else s.serverSubs[step.id].proc;
    assert ProcNotes(p, s.procs[p], s.attempts);
    NoteReplaced(s, Apply(s, step), p, Apply(s, step).procs[p]);
  }

  lemma NoteKeptClosing(s: State, step: Step)
    requires NoteInv(s) && NoStray(s) && Enabled(s, step) && (step.BeginClose? || step.EndClose?)
    ensures NoteInv(Apply(s, step)) && NoStray(Apply(s, step))
  {
  }

  /** One goroutine moves on, and a payload of its own or its answer is written. */
  lemma NoteWritten(s: State, t: State, p: ProcId, q: Proc, a: Attempt<Key>)
    requires NoteInv(s) && NoStray(s) && p in s.procs && ProcNotes(p, q, s.attempts + [a])
    requires |q.entries| >= |s.procs[p].entries| && (a.Note? ==> a.key.proc == p && a.key.index < |q.entries|)
    requires t.procs == s.procs[p := q] && t.attempts == s.attempts + [a]
    ensures NoteInv(t) && NoStray(t)
  {
    OthersKept(s, p, a);
  }

  lemma NotedBuffered(p: ProcId, q: Proc, attempts: seq<Attempt<Key>>, i: nat, e: Entry)
    requires ProcNotes(p, q, attempts) && i < |q.entries| && !q.pc.Locks(i)
    requires Progress(e, i, q.pc, Payloads(attempts, Key(p, i)))
    ensures ProcNotes(p, q.(entries := q.entries[i := e]), attempts)
  {
  }

  lemma NotedWritten(p: ProcId, q: Proc, attempts: seq<Attempt<Key>>, i: nat, payload: string, e: Entry)
    requires ProcNotes(p, q, attempts) && i < |q.entries|
    requires Progress(e, i, q.pc, Payloads(attempts, Key(p, i)) + [payload])
    ensures ProcNotes(p, q.(entries := q.entries[i := e]), attempts + [Note(Key(p, i), payload)])
  {
    var a := Note(Key(p, i), payload);
    forall j | 0 <= j < |q.entries|
      ensures Progress(q.entries[i := e][j], j, q.pc, Payloads(attempts + [a], Key(p, j)))
    {
      Appended(attempts, a, Key(p, j));
    }
  }

  /** Notify buffers the payload, or writes it. */
  lemma Noted(e: Entry, i: nat, pc: Pc, written: seq<string>, payload: string)
    requires Progress(e, i, pc, written) && !pc.Locks(i) && e.view.sub.Some?
    ensures Progress(e.(view := Notified(e.view, payload), notified := e.notified + [payload]), i, pc,
                     if e.view.activated then written + [payload] else written)
  {
  }

  lemma NoteKeptNotify(s: State, step: Step)
    requires NoteInv(s) && NoStray(s) && Enabled(s, step) && step.Notify?
    ensures NoteInv(Apply(s, step)) && NoStray(Apply(s, step))
  {
    var t, p, q := Apply(s, step), step.p, s.procs[step.p];
    var e, f := q.entries[step.i], t.procs[p].entries[step.i];
    Noted(e, step.i, q.pc, Payloads(s.attempts, Key(p, step.i)), step.payload);
    if e.view.activated {
      NotedWritten(p, q, s.attempts, step.i, step.payload, f);
      NoteWritten(s, t, p, t.procs[p], Note(Key(p, step.i), step.payload));
    } else {
      NotedBuffered(p, q, s.attempts, step.i, f);
      NoteReplaced(s, t, p, t.procs[p]);
    }
  }

  /** The goroutine in activate wrote the next buffered payload, and goes on or gives up. */
  lemma SentProgress(e: Entry, i: nat, pc: Pc, written: seq<string>, later: Pc)
    requires Progress(e, i, pc, written) && pc.Locks(i) && pc.sent.value < |e.view.buffer|
    requires later == Activating(i, Some(pc.sent.value + 1)) || later == Activating(i + 1, None)
    ensures Progress(e, i, later, written + [e.view.buffer[pc.sent.value]])
  {
    assert written + [e.view.buffer[pc.sent.value]] == e.view.buffer[..|written| + 1];
  }

  lemma SentNext(p: ProcId, q: Proc, attempts: seq<Attempt<Key>>, ok: bool)
    requires ProcNotes(p, q, attempts) && Inside(q) && q.pc.sent.value < |q.entries[q.pc.next].view.buffer|
    ensures var pc := if ok then Activating(q.pc.next, Some(q.pc.sent.value + 1)) else Activating(q.pc.next + 1, None);
      ProcNotes(p, q.(pc := pc), attempts + [Note(Key(p, q.pc.next), q.entries[q.pc.next].view.buffer[q.pc.sent.value])])
  {
    var pc := if ok then Activating(q.pc.next, Some(q.pc.sent.value + 1)) else Activating(q.pc.next + 1, None);
    var a := Note(Key(p, q.pc.next), q.entries[q.pc.next].view.buffer[q.pc.sent.value]);
    forall i | 0 <= i < |q.entries| ensures Progress(q.entries[i], i, pc, Payloads(attempts + [a], Key(p, i))) {
      Appended(attempts, a, Key(p, i));
      if i == q.pc.next {
        SentProgress(q.entries[i], i, q.pc, Payloads(attempts, Key(p, i)), pc);
      } else {
        assert Progress(q.entries[i], i, q.pc, Payloads(attempts, Key(p, i)));
      }
    }
  }

  lemma NoteKeptSend(s: State, step: Step)
    requires NoteInv(s) && NoStray(s) && Enabled(s, step) && step.Send?
    ensures NoteInv(Apply(s, step)) && NoStray(Apply(s, step))
  {
    var t := Apply(s, step);
    SentNext(step.p, s.procs[step.p], s.attempts, step.ok);
    NoteWritten(s, t, step.p, t.procs[step.p], t.attempts[|s.attempts|]);
  }

  lemma NoteKeptActivation(s: State, step: Step)
    requires NoteInv(s) && NoStray(s) && Enabled(s, step)
    requires step.BeginActivate? || step.EndActivate? || step.Finish?
    ensures NoteInv(Apply(s, step)) && NoStray(Apply(s, step))
  {
    assert ProcNotes(step.p, s.procs[step.p], s.attempts);
    NoteReplaced(s, Apply(s, step), step.p, Apply(s, step).procs[step.p]);
  }

  lemma Replied(p: ProcId, q: Proc, attempts: seq<Attempt<Key>>)
    requires ProcNotes(p, q, attempts) && q.pc.Answering?
    ensures ProcNotes(p, q.(pc := Activating(0, None)), attempts)
    ensures ProcNotes(p, q.(pc := Activating(0, None)), attempts + [Reply(p)])
  {
    forall i | 0 <= i < |q.entries|
      ensures Payloads(attempts + [Reply(p)], Key(p, i)) == Payloads(attempts, Key(p, i))
      ensures Progress(q.entries[i], i, q.pc, Payloads(attempts, Key(p, i)))
    {
      Appended(attempts, Reply(p), Key(p, i));
    }
  }

  lemma NoteKeptAnswer(s: State, step: Step)
    requires NoteInv(s) && NoStray(s) && Enabled(s, step) && step.Answer?
    ensures NoteInv(Apply(s, step)) && NoStray(Apply(s, step))
  {
    var t := Apply(s, step);
    Replied(step.p, s.procs[step.p], s.attempts);
    if s.procs[step.p].answers {
      NoteWritten(s, t, step.p, t.procs[step.p], Reply(step.p));
    } else {
      NoteReplaced(s, t, step.p, t.procs[step.p]);
    }
  }

  lemma NoteKept(s: State, step: Step)
    requires NoteInv(s) && NoStray(s) && Enabled(s, step)
    ensures NoteInv(Apply(s, step)) && NoStray(Apply(s, step))
  {
    if step.StartProc? || step.HandleCall? || step.HandleSubscribe? { NoteKeptHandling(s, step); }
    else if step.EndHandling? || step.Take? || step.EndAdding? { NoteKeptAdding(s, step); }
    else if step.Notify? { NoteKeptNotify(s, step); }
    else if step.Send? { NoteKeptSend(s, step); }
    else if step.Answer? { NoteKeptAnswer(s, step); }
    else if step.BeginActivate? || step.EndActivate? || step.Finish? { NoteKeptActivation(s, step); }
    else if step.BeginClose? || step.EndClose? { NoteKeptClosing(s, step); }
    else { NoteKeptUsing(s, step); }
  }

  // ---------- answers before notifications ----------

  ghost predicate ReplyOk(p: ProcId, q: Proc, attempts: seq<Attempt<Key>>) {
    && (forall i | 0 <= i < |q.entries| && q.entries[i].withId :: q.answers)
    && ((q.pc.Activating? || q.pc.Done?) && q.answers ==> Reply(p) in attempts)
  }

  ghost predicate ReplyInv(s: State) {
    forall p <- s.procs :: ReplyOk(p, s.procs[p], s.attempts)
  }

  /** One goroutine moves on; attempts are only added. */
  lemma ReplyReplaced(s: State, t: State, p: ProcId, q: Proc)
    requires ReplyInv(s) && ReplyOk(p, q, t.attempts) && s.attempts <= t.attempts
    requires t.procs == s.procs[p := q]
    ensures ReplyInv(t)
  {
    assert forall a <- s.attempts :: a in t.attempts;
  }

  /** A notification for a subscribe call with an id comes after the answers of its goroutine. */
  ghost predicate Ordered(procs: map<ProcId, Proc>, attempts: seq<Attempt<Key>>) {
    forall j | 0 <= j < |attempts| && attempts[j].Note? :: var k := attempts[j].key;
      Exists(procs, k) && (procs[k.proc].entries[k.index].withId ==> Reply(k.proc) in attempts[..j])
  }

  lemma OrderedAppend(procs: map<ProcId, Proc>, attempts: seq<Attempt<Key>>, a: Attempt<Key>)
    requires Ordered(procs, attempts)
    requires a.Note? ==> Exists(procs, a.key) && (procs[a.key.proc].entries[a.key.index].withId ==> Reply(a.key.proc) in attempts)
    ensures Ordered(procs, attempts + [a])
  {
    forall j | 0 <= j <= |attempts| ensures (attempts + [a])[..j] == attempts[..j] {
    }
  }

  /** The notifiers stay, and whether their calls have ids does not change. */
  lemma OrderedFrame(procs: map<ProcId, Proc>, later: map<ProcId, Proc>, attempts: seq<Attempt<Key>>)
    requires Ordered(procs, attempts)
    requires forall p <- procs :: p in later && |procs[p].entries| <= |later[p].entries|
    requires forall p <- procs, i | 0 <= i < |procs[p].entries| :: later[p].entries[i].withId == procs[p].entries[i].withId
    ensures Ordered(later, attempts)
  {
  }

  lemma ReplyKeptHandling(s: State, step: Step)
    requires ReplyInv(s) && Enabled(s, step)
    requires step.StartProc? || step.HandleCall? || step.HandleSubscribe? || step.Create? || step.Notify? || step.Unsubscribe?
    ensures ReplyInv(Apply(s, step))
  {
  }

  lemma ReplyKept(s: State, step: Step)
    requires ReplyInv(s) && Enabled(s, step)
    ensures ReplyInv(Apply(s, step))
  {
    if step.StartProc? || step.HandleCall? || step.HandleSubscribe? || step.Create? || step.Notify? || step.Unsubscribe? {
      ReplyKeptHandling(s, step);
    } else if !step.EndClose? && !step.BeginClose? {
      assert ReplyOk(step.p, s.procs[step.p], s.attempts);
      ReplyReplaced(s, Apply(s, step), step.p, Apply(s, step).procs[step.p]);
    }
  }

  /** Notifiers stay, new ones are unused, and at most the one excepted gets a subscription. */
  ghost predicate Grown(q: Proc, r: Proc, except: Option<nat>) {
    && |q.entries| <= |r.entries|
    && (forall i | 0 <= i < |q.entries| :: r.entries[i].withId == q.entries[i].withId)
    && (forall i | 0 <= i < |q.entries| && Some(i) != except :: r.entries[i].view.sub == q.entries[i].view.sub)
    && (forall i | |q.entries| <= i < |r.entries| :: r.entries[i].view == NewNotifier() && r.entries[i].err == Make(1))
  }

  function Excepted(step: Step, p: ProcId): Option<nat> {
    if step.Create? && step.p == p then Some(step.i) else None
  }

  ghost predicate AllGrown(procs: map<ProcId, Proc>, later: map<ProcId, Proc>, step: Step) {
    && (forall p <- procs :: p in later && Grown(procs[p], later[p], Excepted(step, p)))
    && (forall p <- later :: p in procs || later[p].entries == [])
  }

  lemma SubFrameClose(s: State, step: Step)
    requires Enabled(s, step) && step.EndClose?
    ensures AllGrown(s.procs, Apply(s, step).procs, step)
  {
  }

  lemma OneGrown(procs: map<ProcId, Proc>, p: ProcId, r: Proc, step: Step)
    requires p in procs && Grown(procs[p], r, Excepted(step, p))
    ensures AllGrown(procs, procs[p := r], step)
  {
  }

  lemma SubFrameEntry(s: State, step: Step)
    requires Enabled(s, step)
    requires step.HandleSubscribe? || step.Create? || step.Notify? || step.Unsubscribe? || step.Take? || step.EndActivate?
    ensures AllGrown(s.procs, Apply(s, step).procs, step)
  {
    var p := if step.Unsubscribe? then s.serverSubs[step.id].proc else step.p;
    OneGrown(s.procs, p, Apply(s, step).procs[p], step);
  }

  lemma SubFrame(s: State, step: Step)
    requires Enabled(s, step)
    ensures AllGrown(s.procs, Apply(s, step).procs, step)
  {
    if step.EndClose? {
      SubFrameClose(s, step);
    } else if step.HandleSubscribe? || step.Create? || step.Notify? || step.Unsubscribe? || step.Take? || step.EndActivate? {
      SubFrameEntry(s, step);
    }
  }

  lemma OrderKept(s: State, step: Step)
    requires NoteInv(s) && ReplyInv(s) && Ordered(s.procs, s.attempts) && Enabled(s, step)
    ensures Ordered(Apply(s, step).procs, Apply(s, step).attempts)
  {
    var t := Apply(s, step);
    SubFrame(s, step);
    OrderedFrame(s.procs, t.procs, s.attempts);
    if step.Notify? {
      if s.procs[step.p].entries[step.i].view.activated {
        assert s.procs[step.p].pc.Passed(step.i);
        OrderedAppend(t.procs, s.attempts, Note(Key(step.p, step.i), step.payload));
      }
    } else if step.Answer? {
      OrderedAppend(t.procs, s.attempts, Reply(step.p));
    } else if step.Send? {
      OrderedAppend(t.procs, s.attempts, t.attempts[|s.attempts|]);
    }
  }

  // ---------- server subscriptions ----------

  ghost predicate Untouched(c: Chan<Error>) {
    c.buf == [] && !c.closed
  }

  predicate Listed(e: Entry, k: Key, serverSubs: map<string, Key>) {
    e.view.sub.Some? && e.view.sub.value in serverSubs && serverSubs[e.view.sub.value] == k
  }

  /** The channel of one subscription: untouched until it is cancelled, closed once it is taken and not listed. */
  ghost predicate SubOk(e: Entry, k: Key, serverSubs: map<string, Key>) {
    && e.err.cap == 1 && !e.err.faulted && |e.err.buf| <= 1
    && (e.view.sub.None? || !e.view.callReturned || Listed(e, k, serverSubs) ==> Untouched(e.err))
    && (e.view.sub.Some? && e.view.callReturned ==> e.err.closed || Listed(e, k, serverSubs))
  }

  ghost predicate ProcSubsOk(p: ProcId, q: Proc, serverSubs: map<string, Key>) {
    forall i | 0 <= i < |q.entries| :: SubOk(q.entries[i], Key(p, i), serverSubs)
  }

  /** An entry of the table names a subscription with that id that was taken. */
  ghost predicate ListingOk(procs: map<ProcId, Proc>, serverSubs: map<string, Key>) {
    forall id <- serverSubs :: var k := serverSubs[id];
      && Exists(procs, k) && procs[k.proc].entries[k.index].view.callReturned
      && procs[k.proc].entries[k.index].view.sub == Some(id)
  }

  ghost predicate SubsOk(procs: map<ProcId, Proc>, serverSubs: map<string, Key>) {
    (forall p <- procs :: ProcSubsOk(p, procs[p], serverSubs)) && ListingOk(procs, serverSubs)
  }

  ghost predicate SubInv(s: State) {
    SubsOk(s.procs, s.serverSubs)
  }

  /** No id is used for two subscriptions. */
  ghost predicate UniqueSubs(procs: map<ProcId, Proc>) {
    forall k, l | Exists(procs, k) && Exists(procs, l) && k != l ::
      procs[k.proc].entries[k.index].view.sub.Some? ==>
        procs[k.proc].entries[k.index].view.sub != procs[l.proc].entries[l.index].view.sub
  }

  ghost predicate CloseInv(s: State) {
    s.closing.Closed? ==> s.serverSubs == map[] && forall p <- s.procs :: s.procs[p].pc.Done?
  }

  lemma CloseKept(s: State, step: Step)
    requires CloseInv(s) && Enabled(s, step)
    ensures CloseInv(Apply(s, step))
  {
  }

  lemma UniqueGrown(procs: map<ProcId, Proc>, later: map<ProcId, Proc>, step: Step)
    requires UniqueSubs(procs)
    requires forall p <- procs :: p in later && Grown(procs[p], later[p], Excepted(step, p))
    requires forall p <- later :: p in procs || later[p].entries == []
    requires step.Create? ==> Exists(procs, Key(step.p, step.i)) && Exists(later, Key(step.p, step.i))
    requires step.Create? ==> later[step.p].entries[step.i].view.sub == Some(step.id)
    requires step.Create? ==> forall p <- procs, i | 0 <= i < |procs[p].entries| :: procs[p].entries[i].view.sub != Some(step.id)
    ensures UniqueSubs(later)
  {
  }

  lemma UniqueKept(s: State, step: Step)
    requires UniqueSubs(s.procs) && Enabled(s, step) && Assumed(s, step)
    ensures UniqueSubs(Apply(s, step).procs)
  {
    SubFrame(s, step);
    UniqueGrown(s.procs, Apply(s, step).procs, step);
  }

  /** The steps that leave alone subscriptions, their registration and their channels. */
  predicate Neutral(step: Step) {
    || step.StartProc? || step.HandleCall? || step.Notify? || step.EndHandling? || step.EndAdding? || step.Answer?
    || step.BeginActivate? || step.Send? || step.EndActivate? || step.Finish? || step.BeginClose?
  }

  ghost predicate SameSubs(q: Proc, r: Proc) {
    |q.entries| == |r.entries| && forall i | 0 <= i < |q.entries| ::
      && r.entries[i].view.sub == q.entries[i].view.sub && r.entries[i].view.callReturned == q.entries[i].view.callReturned
      && r.entries[i].err == q.entries[i].err
  }

  lemma NeutralFrame(s: State, step: Step)
    requires Enabled(s, step) && Neutral(step)
    ensures Apply(s, step).serverSubs == s.serverSubs
    ensures forall p <- s.procs :: p in Apply(s, step).procs && SameSubs(s.procs[p], Apply(s, step).procs[p])
    ensures forall p <- Apply(s, step).procs :: p in s.procs || Apply(s, step).procs[p].entries == []
  {
  }

  lemma SubKeptNeutral(s: State, step: Step)
    requires SubInv(s) && Enabled(s, step) && Neutral(step)
    ensures SubInv(Apply(s, step))
  {
    NeutralFrame(s, step);
  }

  /** Two tables list the same under all keys but one. */
  ghost predicate AlikeBut(serverSubs: map<string, Key>, subs: map<string, Key>, k: Key) {
    && (forall id <- serverSubs | serverSubs[id] != k :: id in subs && subs[id] == serverSubs[id])
    && (forall id <- subs | subs[id] != k :: id in serverSubs && subs[id] == serverSubs[id])
  }

  lemma ListedAlike(e: Entry, l: Key, k: Key, serverSubs: map<string, Key>, subs: map<string, Key>)
    requires l != k && SubOk(e, l, serverSubs) && AlikeBut(serverSubs, subs, k)
    ensures SubOk(e, l, subs)
  {
  }

  lemma ProcUntouched(p: ProcId, q: Proc, k: Key, serverSubs: map<string, Key>, subs: map<string, Key>)
    requires p != k.proc && ProcSubsOk(p, q, serverSubs) && AlikeBut(serverSubs, subs, k)
    ensures ProcSubsOk(p, q, subs)
  {
    forall i | 0 <= i < |q.entries| ensures SubOk(q.entries[i], Key(p, i), subs) {
      ListedAlike(q.entries[i], Key(p, i), k, serverSubs, subs);
    }
  }

  lemma ProcChanged(q: Proc, k: Key, e: Entry, serverSubs: map<string, Key>, subs: map<string, Key>)
    requires ProcSubsOk(k.proc, q, serverSubs) && AlikeBut(serverSubs, subs, k) && k.index < |q.entries| && SubOk(e, k, subs)
    ensures ProcSubsOk(k.proc, q.(entries := q.entries[k.index := e]), subs)
  {
    forall i | 0 <= i < |q.entries| && i != k.index ensures SubOk(q.entries[i], Key(k.proc, i), subs) {
      ListedAlike(q.entries[i], Key(k.proc, i), k, serverSubs, subs);
    }
  }

  lemma ListingChanged(procs: map<ProcId, Proc>, serverSubs: map<string, Key>, k: Key, e: Entry, r: Proc, subs: map<string, Key>)
    requires ListingOk(procs, serverSubs) && Exists(procs, k) && AlikeBut(serverSubs, subs, k)
    requires forall id <- subs | subs[id] == k :: e.view.callReturned && e.view.sub == Some(id)
    requires r.entries == procs[k.proc].entries[k.index := e]
    ensures ListingOk(procs[k.proc := r], subs)
  {
  }

  /** One notifier changes; the listing of the others does not. */
  lemma EntryChanged(procs: map<ProcId, Proc>, serverSubs: map<string, Key>, k: Key, e: Entry, pc: Pc, subs: map<string, Key>)
    requires SubsOk(procs, serverSubs) && Exists(procs, k) && SubOk(e, k, subs) && AlikeBut(serverSubs, subs, k)
    requires forall id <- subs | subs[id] == k :: e.view.callReturned && e.view.sub == Some(id)
    ensures SubsOk(procs[k.proc := procs[k.proc].(entries := procs[k.proc].entries[k.index := e], pc := pc)], subs)
  {
    var r := procs[k.proc].(entries := procs[k.proc].entries[k.index := e], pc := pc);
    ProcChanged(procs[k.proc], k, e, serverSubs, subs);
    assert ProcSubsOk(k.proc, r, subs);
    ListingChanged(procs, serverSubs, k, e, r, subs);
    forall p <- procs | p != k.proc ensures ProcSubsOk(p, procs[p], subs) {
      ProcUntouched(p, procs[p], k, serverSubs, subs);
    }
  }

  lemma SubKeptSubscribe(s: State, step: Step)
    requires SubInv(s) && Enabled(s, step) && step.HandleSubscribe?
    ensures SubInv(Apply(s, step))
  {
  }

  lemma SubKeptCreate(s: State, step: Step)
    requires SubInv(s) && Enabled(s, step) && step.Create?
    ensures SubInv(Apply(s, step))
  {
    var k, e := Key(step.p, step.i), s.procs[step.p].entries[step.i];
    assert SubOk(e, k, s.serverSubs);
    EntryChanged(s.procs, s.serverSubs, k, e.(view := Created(e.view, step.id)), s.procs[step.p].pc, s.serverSubs);
  }

  /** Until a subscription is taken, nothing is listed under its id. */
  lemma NotListed(s: State, k: Key)
    requires NoteInv(s) && SubInv(s) && UniqueSubs(s.procs) && Exists(s.procs, k) && !s.procs[k.proc].pc.Took(k.index)
    ensures var e := s.procs[k.proc].entries[k.index];
      && !e.view.callReturned && SubOk(e, k, s.serverSubs)
      && (e.view.sub.Some? ==> e.view.sub.value !in s.serverSubs)
    ensures forall id <- s.serverSubs :: s.serverSubs[id] != k
  {
  }

  lemma SubKeptTake(s: State, step: Step)
    requires SubInv(s) && Enabled(s, step) && step.Take?
    requires var q := s.procs[step.p]; var e := q.entries[q.pc.next];
      && !e.view.callReturned && (e.view.sub.Some? ==> e.view.sub.value !in s.serverSubs)
      && forall id <- s.serverSubs :: s.serverSubs[id] != Key(step.p, q.pc.next)
    ensures SubInv(Apply(s, step))
  {
    var q := s.procs[step.p];
    var k, e := Key(step.p, q.pc.next), q.entries[q.pc.next];
    Taken(s.procs, s.serverSubs, k, e);
    assert Apply(s, step).procs == s.procs[step.p := q.(
      entries := q.entries[k.index := e.(view := e.view.(callReturned := true))], pc := Adding(k.index + 1))];
  }

  lemma Taken(procs: map<ProcId, Proc>, serverSubs: map<string, Key>, k: Key, e: Entry)
    requires SubsOk(procs, serverSubs) && Exists(procs, k) && e == procs[k.proc].entries[k.index]
    requires !e.view.callReturned && (e.view.sub.Some? ==> e.view.sub.value !in serverSubs)
    requires forall id <- serverSubs :: serverSubs[id] != k
    ensures SubsOk(
      procs[k.proc := procs[k.proc].(entries := procs[k.proc].entries[k.index := e.(view := e.view.(callReturned := true))],
                                     pc := Adding(k.index + 1))],
      if e.view.sub.Some? then serverSubs[e.view.sub.value := k] else serverSubs)
  {
    assert SubOk(e, k, serverSubs);
    EntryChanged(procs, serverSubs, k, e.(view := e.view.(callReturned := true)), Adding(k.index + 1),
                 if e.view.sub.Some? then serverSubs[e.view.sub.value := k] else serverSubs);
  }

  lemma SubKeptUnsubscribe(s: State, step: Step)
    requires SubInv(s) && Enabled(s, step) && step.Unsubscribe?
    ensures SubInv(Apply(s, step))
  {
    var k := s.serverSubs[step.id];
    var e := s.procs[k.proc].entries[k.index];
    assert SubOk(e, k, s.serverSubs);
    EntryChanged(s.procs, s.serverSubs, k, e.(err := Close(e.err)), s.procs[k.proc].pc, s.serverSubs - {step.id});
  }

  /** Every listed subscription gets the error and is closed; its channel was untouched. */
  lemma SubKeptClose(s: State, step: Step)
    requires SubInv(s) && Enabled(s, step) && step.EndClose?
    ensures SubInv(Apply(s, step))
  {
  }

  // ---------- the results ----------

  ghost predicate Inv(s: State) {
    && NoteInv(s) && NoStray(s) && ReplyInv(s) && Ordered(s.procs, s.attempts)
    && UniqueSubs(s.procs) && SubInv(s) && CloseInv(s)
  }

  lemma InvKept(s: State, step: Step)
    requires Inv(s) && Enabled(s, step) && Assumed(s, step)
    ensures Inv(Apply(s, step))
  {
    NoteKept(s, step);
    ReplyKept(s, step);
    OrderKept(s, step);
    UniqueKept(s, step);
    CloseKept(s, step);
    if Neutral(step) { SubKeptNeutral(s, step); }
    else if step.HandleSubscribe? { SubKeptSubscribe(s, step); }
    else if step.Create? { SubKeptCreate(s, step); }
    else if step.Take? {
      NotListed(s, Key(step.p, s.procs[step.p].pc.next));
      SubKeptTake(s, step);
    }
    else if step.Unsubscribe? { SubKeptUnsubscribe(s, step); }
    else { SubKeptClose(s, step); }
  }

  lemma {:induction false} InvOfRun(s: State, steps: seq<Step>)
    requires Inv(s) && Run(s, steps)
    ensures Inv(Final(s, steps))
    decreases steps
  {
    if steps != [] {
      InvKept(s, steps[0]);
      InvOfRun(Apply(s, steps[0]), steps[1..]);
    }
  }

  lemma InvReachable(s: State)
    requires Reachable(s)
    ensures Inv(s)
  {
    var steps: seq<Step> :| Run(Initial(), steps) && s == Final(Initial(), steps);
    InvOfRun(Initial(), steps);
  }

  /**
   * For all interleavings, of every notifier: the payloads whose write was attempted are a
   * prefix of those given to Notify, in lock order; there are none before its goroutine
   * reaches its activation; once it is activated, all were attempted; and without a
   * subscription nothing is buffered.
   */
  lemma NotificationOrder(s: State, k: Key)
    requires Reachable(s) && Exists(s.procs, k)
    ensures var q := s.procs[k.proc]; var e := q.entries[k.index];
      && Payloads(s.attempts, k) <= e.notified
      && (Payloads(s.attempts, k) != [] ==> q.pc.Passed(k.index) || q.pc.Locks(k.index))
      && (e.view.activated ==> Payloads(s.attempts, k) == e.notified)
      && (e.view.sub.None? ==> e.view.buffer == [])
  {
    InvReachable(s);
    assert ProcNotes(k.proc, s.procs[k.proc], s.attempts);
  }

  /** For a subscribe call with an id, no notification is attempted before the answers of its goroutine. */
  lemma AnswerFirst(s: State, j: nat)
    requires Reachable(s) && j < |s.attempts| && s.attempts[j].Note?
    ensures var k := s.attempts[j].key;
      Exists(s.procs, k) && (s.procs[k.proc].entries[k.index].withId ==> Reply(k.proc) in s.attempts[..j])
  {
    InvReachable(s);
  }

  /**
   * For all interleavings of registering, unsubscribing and closing: the err channel of a
   * subscription is closed at most once, carries at most one value, is not used after closing,
   * and the send before closing finds room.  After the handler is closed none is left open.
   */
  lemma SubscriptionsClosed(s: State, k: Key)
    requires Reachable(s) && Exists(s.procs, k)
    ensures var e := s.procs[k.proc].entries[k.index];
      && Sound(e.err) && e.err.cap == 1
      && (s.closing.Closed? && e.view.sub.Some? ==> e.err.closed)
    ensures s.closing.Closed? ==> s.serverSubs == map[]
  {
    InvReachable(s);
    var q := s.procs[k.proc];
    var e := q.entries[k.index];
    assert SubOk(e, k, s.serverSubs);
    assert Progress(e, k.index, q.pc, Payloads(s.attempts, k));
  }
}
