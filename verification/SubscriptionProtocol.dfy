/**
 * The end of a client subscription under concurrency (simple_rpc/rpc/subscription.go).
 *
 * The actors are the forwarding goroutine, the dispatch loop when it cancels the subscription
 * and any number of goroutines that call Unsubscribe.  Each advances one operation at a time:
 * entering or leaving a sync.Once, closing or sending on a channel, one turn of the loop.
 */
module SubscriptionProtocol {
  import opened Wrappers
  import opened Channels
  import opened JsonRpc
  import opened ClientSubscriptions
  import Forwarding

  type ActorId = nat

  /** A sync.Once: a caller that finds it running waits, one that finds it done passes. */
  datatype Once = NotRun | Running(runner: ActorId) | Done

  datatype Pc =
    | Forwarding
    | AtQuitOnce(unsubscribeServer: bool, err: Option<Error>)  // calling quitWithError
    | AtCloseQuit(unsubscribeServer: bool, err: Option<Error>)
    | AtRequest(err: Option<Error>)                            // in requestUnsubscribe
    | AtSend(err: Option<Error>)
    | LeavingQuitOnce
    | AtErrOnce
    | AtCloseErr
    | LeavingErrOnce
    | Finished
  {
    predicate InQuitOnce() {
      AtCloseQuit? || AtRequest? || AtSend? || LeavingQuitOnce?
    }

    predicate InErrOnce() {
      AtCloseErr? || LeavingErrOnce?
    }
  }

  datatype Actor = Actor(unsubscriber: bool, pc: Pc)

  datatype State<V> = State(
    actors: map<ActorId, Actor>,
    started: Option<ActorId>,          // the forwarding goroutine, once started
    forwarder: Forwarding.Forwarder<V>,
    quitOnce: Once,
    errOnce: Once,
    quit: Chan<()>,
    err: Chan<Option<Error>>,
    reported: seq<Option<Error>>,      // everything sent on err
    first: Option<Option<Error>>,      // the arguments of the first quitWithError to enter quitOnce,
    asks: bool,
    closer: Option<ActorId>,               // and who called it
    asked: nat)                        // how often the server was asked to unsubscribe

  datatype Step<V> =
    | Start(a: ActorId)
    | Turn(a: ActorId, choice: Forwarding.Choice<V>)
    | Cancel(a: ActorId, err: Error)
    | CallUnsubscribe(a: ActorId)
    | EnterQuitOnce(a: ActorId)
    | PassQuitOnce(a: ActorId)
    | CloseQuit(a: ActorId)
    | EndRequest(a: ActorId)
    | SendErr(a: ActorId)
    | LeaveQuitOnce(a: ActorId)
    | EnterErrOnce(a: ActorId)
    | PassErrOnce(a: ActorId)
    | CloseErr(a: ActorId)
    | LeaveErrOnce(a: ActorId)
    | ReadErr                          // the subscriber receives from Err()

  function Initial<V>(): State<V> {
    State(map[], None, Forwarding.Started<V>(), NotRun, NotRun, Make(0), Make(1), [], None, false, None, 0)
  }

  predicate Enabled<V>(s: State<V>, step: Step<V>) {
    match step
    case Start(a) => a !in s.actors && s.started.None?
    case Turn(a, choice) =>
      && a in s.actors && s.actors[a].pc.Forwarding? && Forwarding.Offered(s.forwarder, choice)
      && (choice.Quit? ==> s.quit.closed)
    case Cancel(a, err) => a !in s.actors
    case CallUnsubscribe(a) => a !in s.actors
    case EnterQuitOnce(a) => a in s.actors && s.actors[a].pc.AtQuitOnce? && s.quitOnce.NotRun?
    case PassQuitOnce(a) => a in s.actors && s.actors[a].pc.AtQuitOnce? && s.quitOnce.Done?
    case CloseQuit(a) => a in s.actors && s.actors[a].pc.AtCloseQuit?
    case EndRequest(a) => a in s.actors && s.actors[a].pc.AtRequest?
    case SendErr(a) => a in s.actors && s.actors[a].pc.AtSend?
    case LeaveQuitOnce(a) => a in s.actors && s.actors[a].pc.LeavingQuitOnce?
    case EnterErrOnce(a) => a in s.actors && s.actors[a].pc.AtErrOnce? && s.errOnce.NotRun?
    case PassErrOnce(a) => a in s.actors && s.actors[a].pc.AtErrOnce? && s.errOnce.Done?
    case CloseErr(a) => a in s.actors && s.actors[a].pc.AtCloseErr?
    case LeaveErrOnce(a) => a in s.actors && s.actors[a].pc.LeavingErrOnce?
    case ReadErr => s.err.buf != []
  }

  function Goto<V>(s: State<V>, a: ActorId, pc: Pc): State<V>
    requires a in s.actors
  {
    s.(actors := s.actors[a := s.actors[a].(pc := pc)])
  }

  /** Unsubscribe goes on to close err; the others return. */
  function AfterQuit(actor: Actor): Pc {
    if actor.unsubscriber then AtErrOnce else Finished
  }

  /** The forwarding goroutine keeps looping, or calls quitWithError with what forward returned. */
  function AfterTurn<V>(f: Forwarding.Forwarder<V>): Pc {
    match f.exit
    case None => Forwarding
    case Some(exit) => AtQuitOnce(exit.UnsubscribeServer(), exit.Err())
  }

  function Apply<V>(s: State<V>, step: Step<V>): State<V>
    requires Enabled(s, step)
  {
    match step
    case Start(a) => s.(actors := s.actors[a := Actor(false, Forwarding)], started := Some(a))
    case Turn(a, choice) =>
      var f := Forwarding.Chosen(s.forwarder, choice);
      Goto(s, a, AfterTurn(f)).(forwarder := f)
    case Cancel(a, err) => s.(actors := s.actors[a := Actor(false, AtQuitOnce(false, Some(err)))])
    case CallUnsubscribe(a) => s.(actors := s.actors[a := Actor(true, AtQuitOnce(true, None))])
    case EnterQuitOnce(a) =>
      var pc := s.actors[a].pc;
      Goto(s, a, AtCloseQuit(pc.unsubscribeServer, pc.err)).(quitOnce := Running(a), first := Some(pc.err), asks := pc.unsubscribeServer, closer := Some(a))
    case PassQuitOnce(a) => Goto(s, a, AfterQuit(s.actors[a]))
    case CloseQuit(a) =>
      var pc := s.actors[a].pc;
      Goto(s, a, if pc.unsubscribeServer then AtRequest(pc.err) else AtSend(pc.err)).(quit := Close(s.quit))
    case EndRequest(a) => Goto(s, a, AtSend(s.actors[a].pc.err)).(asked := s.asked + 1)
    case SendErr(a) =>
      (match s.actors[a].pc.err
       case None => Goto(s, a, LeavingQuitOnce)
       case Some(e) =>
         Goto(s, a, LeavingQuitOnce).(err := Send(s.err, Reported(e)), reported := s.reported + [Reported(e)]))
    case LeaveQuitOnce(a) => Goto(s, a, AfterQuit(s.actors[a])).(quitOnce := Done)
    case EnterErrOnce(a) => Goto(s, a, AtCloseErr).(errOnce := Running(a))
    case PassErrOnce(a) => Goto(s, a, Finished)
    case CloseErr(a) => Goto(s, a, LeavingErrOnce).(err := Close(s.err))
    case LeaveErrOnce(a) => Goto(s, a, Finished).(errOnce := Done)
    case ReadErr => s.(err := Received(s.err))
  }

  ghost predicate Run<V>(s: State<V>, steps: seq<Step<V>>)
    decreases steps
  {
    steps == [] || (Enabled(s, steps[0]) && Run(Apply(s, steps[0]), steps[1..]))
  }

  ghost function Final<V>(s: State<V>, steps: seq<Step<V>>): State<V>
    requires Run(s, steps)
    decreases steps
  {
    if steps == [] then s else Final(Apply(s, steps[0]), steps[1..])
  }

  ghost predicate Reachable<V(!new)>(s: State<V>) {
    exists steps: seq<Step<V>> :: Run(Initial<V>(), steps) && s == Final(Initial<V>(), steps)
  }

  // ---------- the invariant ----------

  /** The actor inside each once is the one it is running for; channels are used only from inside. */
  ghost predicate OnceInv<V>(s: State<V>) {
    && (forall a <- s.actors :: s.actors[a].pc.InQuitOnce() <==> s.quitOnce == Running(a))
    && (forall a <- s.actors :: s.actors[a].pc.InErrOnce() <==> s.errOnce == Running(a))
    && (s.quitOnce.Running? ==> s.quitOnce.runner in s.actors)
    && (s.errOnce.Running? ==> s.errOnce.runner in s.actors)
    && (forall a <- s.actors :: s.actors[a].pc.AtErrOnce? ==> s.actors[a].unsubscriber && s.quitOnce.Done?)
    && (forall a <- s.actors :: s.actors[a].pc.InErrOnce() ==> s.actors[a].unsubscriber && s.quitOnce.Done?)
    && (s.errOnce.Done? ==> s.quitOnce.Done? && exists a <- s.actors :: s.actors[a].unsubscriber)
  }

  ghost predicate QuitInv<V>(s: State<V>) {
    && !s.quit.faulted
    && (s.quit.closed <==> s.quitOnce.Done? || (s.quitOnce.Running? && s.quitOnce.runner in s.actors
                                                && !s.actors[s.quitOnce.runner].pc.AtCloseQuit?))
  }

  /** What is to be sent on err for the argument of the first quitWithError. */
  function Owed(first: Option<Option<Error>>): seq<Option<Error>> {
    match first
    case Some(Some(e)) => [Reported(e)]
    case _ => []
  }

  ghost predicate ErrInv<V>(s: State<V>) {
    && !s.err.faulted && s.err.cap == 1 && |s.err.buf| <= |s.reported|
    && (s.first.None? <==> s.quitOnce.NotRun?)
    && (if s.quitOnce.Running? && s.quitOnce.runner in s.actors && !s.actors[s.quitOnce.runner].pc.LeavingQuitOnce?
        then s.reported == [] && (s.actors[s.quitOnce.runner].pc.InQuitOnce() ==> s.first == Some(s.actors[s.quitOnce.runner].pc.err))
        else s.reported == Owed(s.first))
    && (s.err.closed <==> s.errOnce.Done? || (s.errOnce.Running? && s.errOnce.runner in s.actors
                                              && s.actors[s.errOnce.runner].pc.LeavingErrOnce?))
  }

  ghost predicate ForwardInv<V>(s: State<V>) {
    && Forwarding.InOrder(s.forwarder)
    && (forall a <- s.actors :: s.actors[a].pc.Forwarding? ==> s.started == Some(a) && s.forwarder.exit.None?)
    && (s.started.None? ==> s.forwarder.exit.None?)
    && (forall r <- s.reported :: r != Some(CLIENT_QUIT))
  }

  /** The arguments with which an actor calls quitWithError. */
  predicate ArgsFit(unsubscriber: bool, forwards: bool, exit: Option<Forwarding.Exit>, asks: bool, err: Option<Error>) {
    if unsubscriber then asks && err == None
    else if forwards then
      (match exit
       case Some(QuitClosed) => !asks && err == None
       case Some(Undecodable(e)) => asks && err == Some(e)
       case Some(Overflow) => asks && err == Some(Forwarding.QUEUE_OVERFLOW)
       case None => false)
    else !asks && err.Some?
  }

  predicate ActorOk(actor: Actor, forwards: bool, exit: Option<Forwarding.Exit>, errDone: bool) {
    && (actor.pc.AtQuitOnce? || actor.pc.AtCloseQuit? ==>
        ArgsFit(actor.unsubscriber, forwards, exit, actor.pc.unsubscribeServer, actor.pc.err))
    && (actor.pc.Forwarding? ==> forwards && exit.None?)
    && (forwards ==> !actor.unsubscriber)
    && (actor.unsubscriber && actor.pc.Finished? ==> errDone)
  }

  ghost predicate ArgsInv<V>(s: State<V>) {
    && (forall a <- s.actors :: ActorOk(s.actors[a], s.started == Some(a), s.forwarder.exit, s.errOnce.Done?))
    && (s.started.Some? ==> s.started.value in s.actors)
    && (s.started.None? ==> s.forwarder.exit.None?)
    && (s.forwarder.exit == Some(Forwarding.QuitClosed) ==> s.quit.closed)
  }

  /** Who ran quitOnce, with which arguments, and whether the server has been asked yet. */
  ghost predicate ByInv<V>(s: State<V>) {
    && (s.quitOnce.NotRun? <==> s.closer.None?)
    && (s.quitOnce.NotRun? ==> s.asked == 0)
    && (s.quitOnce.Running? ==> s.closer == Some(s.quitOnce.runner))
    && (s.quitOnce.Done? ==> s.asked == if s.asks then 1 else 0)
    && (s.closer.Some? ==>
        && s.closer.value in s.actors && s.first.Some?
        && ArgsFit(s.actors[s.closer.value].unsubscriber, s.closer == s.started, s.forwarder.exit, s.asks, s.first.value)
        && !(s.closer == s.started && s.forwarder.exit == Some(Forwarding.QuitClosed)))
    && (s.quitOnce.Running? && s.quitOnce.runner in s.actors ==>
        (match s.actors[s.quitOnce.runner].pc
         case AtCloseQuit(asks, _) => s.asked == 0 && asks == s.asks
         case AtRequest(_) => s.asked == 0 && s.asks
         case _ => s.asked == if s.asks then 1 else 0))
  }

  ghost predicate Inv<V>(s: State<V>) {
    OnceInv(s) && QuitInv(s) && ErrInv(s) && ForwardInv(s) && ArgsInv(s) && ByInv(s)
  }

  predicate InQuit<V>(step: Step<V>) {
    step.EnterQuitOnce? || step.PassQuitOnce? || step.CloseQuit? || step.EndRequest? || step.SendErr? || step.LeaveQuitOnce?
  }

  predicate InErr<V>(step: Step<V>) {
    step.EnterErrOnce? || step.PassErrOnce? || step.CloseErr? || step.LeaveErrOnce?
  }

  lemma OnceKeptEnter<V>(s: State<V>, step: Step<V>)
    requires OnceInv(s) && Enabled(s, step) && (step.EnterQuitOnce? || step.LeaveQuitOnce?)
    ensures OnceInv(Apply(s, step))
  {
  }

  lemma OnceKeptQuit<V>(s: State<V>, step: Step<V>)
    requires OnceInv(s) && Enabled(s, step) && (step.CloseQuit? || step.EndRequest? || step.SendErr?)
    ensures OnceInv(Apply(s, step))
  {
  }

  lemma OnceKeptPass<V>(s: State<V>, step: Step<V>)
    requires OnceInv(s) && Enabled(s, step) && step.PassQuitOnce?
    ensures OnceInv(Apply(s, step))
  {
  }

  lemma OnceKeptErr<V>(s: State<V>, step: Step<V>)
    requires OnceInv(s) && Enabled(s, step) && InErr(step)
    ensures OnceInv(Apply(s, step))
  {
  }

  /** A new actor is in neither once. */
  lemma OnceKeptSpawn<V>(s: State<V>, t: State<V>, a: ActorId, actor: Actor)
    requires OnceInv(s) && a !in s.actors && (actor.pc.Forwarding? || actor.pc.AtQuitOnce?)
    requires t.actors == s.actors[a := actor] && t.quitOnce == s.quitOnce && t.errOnce == s.errOnce
    ensures OnceInv(t)
  {
    if s.errOnce.Done? {
      var b :| b in s.actors && s.actors[b].unsubscriber;
      assert b in t.actors && t.actors[b].unsubscriber;
    }
  }

  lemma OnceKeptTurn<V>(s: State<V>, step: Step<V>)
    requires OnceInv(s) && Enabled(s, step) && (step.Turn? || step.ReadErr?)
    ensures OnceInv(Apply(s, step))
  {
  }

  lemma OnceKept<V>(s: State<V>, step: Step<V>)
    requires OnceInv(s) && Enabled(s, step)
    ensures OnceInv(Apply(s, step))
  {
    if step.EnterQuitOnce? || step.LeaveQuitOnce? { OnceKeptEnter(s, step); }
    else if step.PassQuitOnce? { OnceKeptPass(s, step); }
    else if InQuit(step) { OnceKeptQuit(s, step); }
    else if InErr(step) { OnceKeptErr(s, step); }
    else if step.Turn? || step.ReadErr? { OnceKeptTurn(s, step); }
    else { OnceKeptSpawn(s, Apply(s, step), step.a, Apply(s, step).actors[step.a]); }
  }

  lemma QuitKept<V>(s: State<V>, step: Step<V>)
    requires OnceInv(s) && QuitInv(s) && Enabled(s, step)
    ensures QuitInv(Apply(s, step))
  {
  }

  lemma ErrKeptQuit<V>(s: State<V>, step: Step<V>)
    requires OnceInv(s) && ErrInv(s) && Enabled(s, step) && InQuit(step)
    ensures ErrInv(Apply(s, step))
  {
  }

  lemma ErrKeptErr<V>(s: State<V>, step: Step<V>)
    requires OnceInv(s) && ErrInv(s) && Enabled(s, step) && InErr(step)
    ensures ErrInv(Apply(s, step))
  {
  }

  lemma ErrKept<V>(s: State<V>, step: Step<V>)
    requires OnceInv(s) && ErrInv(s) && Enabled(s, step)
    ensures ErrInv(Apply(s, step))
  {
    if InQuit(step) { ErrKeptQuit(s, step); }
    else if InErr(step) { ErrKeptErr(s, step); }
  }

  lemma ForwardKept<V>(s: State<V>, step: Step<V>)
    requires OnceInv(s) && ForwardInv(s) && Enabled(s, step)
    ensures ForwardInv(Apply(s, step))
  {
    if step.Turn? {
      Forwarding.ChosenInOrder(s.forwarder, step.choice);
    }
  }

  lemma ActorKeptQuit<V>(s: State<V>, step: Step<V>, a: ActorId)
    requires ArgsInv(s) && Enabled(s, step) && a in s.actors && InQuit(step)
    ensures var t := Apply(s, step); a in t.actors && ActorOk(t.actors[a], t.started == Some(a), t.forwarder.exit, t.errOnce.Done?)
  {
    assert ActorOk(s.actors[a], s.started == Some(a), s.forwarder.exit, s.errOnce.Done?);
  }

  lemma ActorKeptErr<V>(s: State<V>, step: Step<V>, a: ActorId)
    requires ArgsInv(s) && Enabled(s, step) && a in s.actors && InErr(step)
    ensures var t := Apply(s, step); a in t.actors && ActorOk(t.actors[a], t.started == Some(a), t.forwarder.exit, t.errOnce.Done?)
  {
    assert ActorOk(s.actors[a], s.started == Some(a), s.forwarder.exit, s.errOnce.Done?);
  }

  lemma ActorKeptTurn<V>(s: State<V>, step: Step<V>, a: ActorId)
    requires ArgsInv(s) && Enabled(s, step) && a in s.actors && step.Turn?
    ensures var t := Apply(s, step); a in t.actors && ActorOk(t.actors[a], t.started == Some(a), t.forwarder.exit, t.errOnce.Done?)
  {
    assert ActorOk(s.actors[a], s.started == Some(a), s.forwarder.exit, s.errOnce.Done?);
    assert ActorOk(s.actors[step.a], s.started == Some(step.a), s.forwarder.exit, s.errOnce.Done?);
  }

  lemma ActorKeptElse<V>(s: State<V>, step: Step<V>, a: ActorId)
    requires ArgsInv(s) && Enabled(s, step) && a in Apply(s, step).actors && !InQuit(step) && !InErr(step) && !step.Turn?
    ensures var t := Apply(s, step); ActorOk(t.actors[a], t.started == Some(a), t.forwarder.exit, t.errOnce.Done?)
  {
    if a in s.actors {
      assert ActorOk(s.actors[a], s.started == Some(a), s.forwarder.exit, s.errOnce.Done?);
    }
  }

  lemma ArgsKept<V>(s: State<V>, step: Step<V>)
    requires QuitInv(s) && ArgsInv(s) && Enabled(s, step)
    ensures ArgsInv(Apply(s, step))
  {
    var t := Apply(s, step);
    forall a <- t.actors ensures ActorOk(t.actors[a], t.started == Some(a), t.forwarder.exit, t.errOnce.Done?) {
      if InQuit(step) { ActorKeptQuit(s, step, a); }
      else if InErr(step) { ActorKeptErr(s, step, a); }
      else if step.Turn? { ActorKeptTurn(s, step, a); }
      else { ActorKeptElse(s, step, a); }
    }
  }

  lemma ByKeptEnter<V>(s: State<V>, step: Step<V>)
    requires OnceInv(s) && QuitInv(s) && ArgsInv(s) && ByInv(s) && Enabled(s, step) && step.EnterQuitOnce?
    ensures ByInv(Apply(s, step))
  {
    assert ActorOk(s.actors[step.a], s.started == Some(step.a), s.forwarder.exit, s.errOnce.Done?);
  }

  lemma ByKeptQuit<V>(s: State<V>, step: Step<V>)
    requires OnceInv(s) && ByInv(s) && Enabled(s, step) && InQuit(step) && !step.EnterQuitOnce?
    ensures ByInv(Apply(s, step))
  {
  }

  lemma ByKeptTurn<V>(s: State<V>, step: Step<V>)
    requires OnceInv(s) && ArgsInv(s) && ByInv(s) && Enabled(s, step) && step.Turn?
    ensures ByInv(Apply(s, step))
  {
    assert ActorOk(s.actors[step.a], s.started == Some(step.a), s.forwarder.exit, s.errOnce.Done?);
  }

  lemma ByKeptElse<V>(s: State<V>, step: Step<V>)
    requires OnceInv(s) && ArgsInv(s) && ByInv(s) && Enabled(s, step) && !InQuit(step) && !step.Turn?
    ensures ByInv(Apply(s, step))
  {
  }

  lemma ByKept<V>(s: State<V>, step: Step<V>)
    requires OnceInv(s) && QuitInv(s) && ArgsInv(s) && ByInv(s) && Enabled(s, step)
    ensures ByInv(Apply(s, step))
  {
    if step.EnterQuitOnce? { ByKeptEnter(s, step); }
    else if InQuit(step) { ByKeptQuit(s, step); }
    else if step.Turn? { ByKeptTurn(s, step); }
    else { ByKeptElse(s, step); }
  }

  lemma {:induction false} InvOfRun<V>(s: State<V>, steps: seq<Step<V>>)
    requires Inv(s) && Run(s, steps)
    ensures Inv(Final(s, steps))
    decreases steps
  {
    if steps != [] {
      OnceKept(s, steps[0]);
      QuitKept(s, steps[0]);
      ErrKept(s, steps[0]);
      ForwardKept(s, steps[0]);
      ArgsKept(s, steps[0]);
      ByKept(s, steps[0]);
      InvOfRun(Apply(s, steps[0]), steps[1..]);
    }
  }

  // ---------- the results ----------

  /**
   * For all interleavings: quit is closed at most once; err is closed at most once, never sent
   * to after that, and never sent to while full; it carries at most one value in all, the error
   * of the first quitWithError, with that of a closed client turned into nil; that value has
   * been sent once quitOnce is done; and err is closed only if Unsubscribe was called.
   */
  lemma EndProtocol<V(!new)>(s: State<V>)
    requires Reachable(s)
    ensures !s.quit.faulted && Sound(s.err)
    ensures |s.reported| <= 1
    ensures s.reported != [] ==>
      && s.first.Some? && s.first.value.Some?
      && s.reported == [if s.first.value.value == CLIENT_QUIT then None else s.first.value]
    ensures s.quitOnce.Done? ==> s.quit.closed && s.first.Some? && (s.reported == [] <==> s.first.value.None?)
    ensures s.err.closed ==> exists a <- s.actors :: s.actors[a].unsubscriber
    ensures forall r <- s.reported :: r != Some(CLIENT_QUIT)
  {
    var steps: seq<Step<V>> :| Run(Initial<V>(), steps) && s == Final(Initial<V>(), steps);
    InvOfRun(Initial<V>(), steps);
    if s.err.closed && s.errOnce.Running? {
      assert s.actors[s.errOnce.runner].pc.InErrOnce();
    }
  }

  /**
   * Who ends the subscription decides what its receiver sees and whether the server is asked,
   * at most once, to unsubscribe: a caller of Unsubscribe reports nothing and asks; the
   * forwarding goroutine reports an undecodable value or a full buffer and asks; the dispatch
   * loop reports its error and does not ask.  Once any call of Unsubscribe is over, err is closed.
   */
  lemma WhoEnded<V(!new)>(s: State<V>)
    requires Reachable(s)
    ensures s.asked <= 1
    ensures s.quitOnce.Done? ==> s.closer.Some? && s.closer.value in s.actors
    ensures s.quitOnce.Done? && s.actors[s.closer.value].unsubscriber ==> s.reported == [] && s.asked == 1
    ensures s.quitOnce.Done? && s.closer == s.started ==>
      && s.asked == 1
      && (match s.forwarder.exit
          case Some(Undecodable(e)) => s.reported == [if e == CLIENT_QUIT then None else Some(e)]
          case Some(Overflow) => s.reported == [Some(Forwarding.QUEUE_OVERFLOW)]
          case _ => false)
    ensures s.quitOnce.Done? && !s.actors[s.closer.value].unsubscriber && s.closer != s.started ==> s.asked == 0 && |s.reported| == 1
    ensures forall a <- s.actors :: s.actors[a].unsubscriber && s.actors[a].pc.Finished? ==> s.err.closed
  {
    var steps: seq<Step<V>> :| Run(Initial<V>(), steps) && s == Final(Initial<V>(), steps);
    InvOfRun(Initial<V>(), steps);
  }

  /** For all interleavings the subscriber receives an in-order prefix of what was accepted, and the buffer is bounded. */
  lemma Delivery<V(!new)>(s: State<V>)
    requires Reachable(s)
    ensures s.forwarder.accepted == s.forwarder.sent + s.forwarder.buffer
    ensures |s.forwarder.buffer| <= Forwarding.MAX_BUFFER
  {
    var steps: seq<Step<V>> :| Run(Initial<V>(), steps) && s == Final(Initial<V>(), steps);
    InvOfRun(Initial<V>(), steps);
  }

  function View<V>(s: State<V>): SubView {
    SubView(s.quit, s.err, !s.quitOnce.NotRun?, !s.errOnce.NotRun?)
  }

  lemma Extend<V>(s: State<V>, step: Step<V>, rest: seq<Step<V>>)
    requires Enabled(s, step) && Run(Apply(s, step), rest)
    ensures Run(s, [step] + rest) && Final(s, [step] + rest) == Final(Apply(s, step), rest)
  {
  }

  /** The code of the class, run without interruption, does what the steps do. */
  lemma QuitUninterrupted<V>(s: State<V>, a: ActorId) returns (steps: seq<Step<V>>)
    requires a in s.actors && s.actors[a].pc.AtQuitOnce? && s.quitOnce.NotRun?
    ensures Run(s, steps) && View(Final(s, steps)) == Quit(View(s), s.actors[a].pc.err)
    ensures Final(s, steps).quitOnce.Done?
  {
    var pc := s.actors[a].pc;
    var s1 := Apply(s, EnterQuitOnce(a));
    var s2 := Apply(s1, CloseQuit(a));
    var s3 := if pc.unsubscribeServer then Apply(s2, EndRequest(a)) else s2;
    var s4 := Apply(s3, SendErr(a));
    steps := [];
    Extend(s4, LeaveQuitOnce(a), steps);
    steps := [LeaveQuitOnce(a)] + steps;
    Extend(s3, SendErr(a), steps);
    steps := [SendErr(a)] + steps;
    if pc.unsubscribeServer {
      Extend(s2, EndRequest(a), steps);
      steps := [EndRequest(a)] + steps;
    }
    Extend(s1, CloseQuit(a), steps);
    steps := [CloseQuit(a)] + steps;
    Extend(s, EnterQuitOnce(a), steps);
    steps := [EnterQuitOnce(a)] + steps;
  }
}
