/**
 * The connection engine of the RPC client (simple_rpc/rpc/client.go) as a state machine.
 *
 * The goroutines are the dispatch loop, one caller per operation (send, write, reconnect,
 * wait) and one reader per connection.  A step is one rendezvous, one use of a buffered
 * channel, one write or one dial; everything else a goroutine does is local to it.  Steps of
 * different goroutines interleave freely.
 *
 * Enabled is what the code and the channels allow, Assumed is what is assumed of the
 * environment, Apply is the effect of a step.
 */
module Engine {
  import opened Wrappers
  import opened Channels
  import opened JsonRpc
  import opened ClientSubscriptions
  import opened Requests
  import Decimal

  type OpId = nat
  type ConnId = nat

  const CLIENT_RECONNECTED := Error("client reconnected", None, None)
  const UINT32_RANGE := 0x1_0000_0000

  datatype Kind = Call | Batch(size: nat) | Subscribe | Notify {
    /** How many ids the operation is registered under. */
    function Ids(): nat {
      match this
      case Call => 1
      case Batch(n) => n
      case Subscribe => 1
      case Notify => 0
    }

    /** Capacity of the response channel; a notification has none, which never shows. */
    function Capacity(): nat {
      match this
      case Call => 1
      case Batch(n) => n
      case Subscribe => 0
      case Notify => 0
    }

    /** How many messages the caller receives before it returns without error. */
    function Responses(): nat {
      if Subscribe? then 1 else Ids()
    }
  }

  /** Where the goroutine that sends an operation is. */
  datatype Caller =
    | Building                             // drawing ids, then offering the operation on reqInit
    | Writing(retry: bool)                 // in write, holding the write lock
    | Dialled(codec: ConnId, retry: bool)  // in reconnect, with a new connection
    | Posting(ok: bool)                    // about to post the outcome of the write on reqSent
    | Waiting                              // in wait
    | TimingOut                            // in wait, after its context ended
    | Returned(ok: bool)
  {
    /** Between taking the write lock on reqInit and posting on reqSent. */
    predicate HoldsLock() {
      Writing? || Dialled? || Posting?
    }
  }

  /** A request: what kind of call it is for and the ids drawn for it. */
  datatype Req = Req(kind: Kind, ids: seq<string>)

  /**
   * The response side of an operation: what dispatch shares with the caller, the messages the
   * caller received, the ids whose response was handled, and how often a subscription was started.
   */
  datatype Track = Track(view: OpView, received: seq<Message>, answered: set<string>, starts: nat) {
    /** The messages sent on the channel so far, oldest first. */
    function Delivered(): seq<Message> {
      received + view.resp.buf
    }
  }

  /** What dispatch does after the close it is in the middle of. */
  datatype After = ReadError | Reconnect(codec: ConnId) | Quitting

  datatype Phase =
    | Running               // in select
    | Closing(after: After)   // in conn.close, waiting for call goroutines
    | Draining(after: After)  // in drainRead
    | Stopped

  /** The operations and the goroutines that send them. */
  datatype Calls = Calls(
    reqs: map<OpId, Req>,
    callers: map<OpId, Caller>,
    tracks: map<OpId, Track>,
    sent: set<OpId>,           // the write of the operation succeeded
    timedOut: set<OpId>,       // dispatch removed the operation on behalf of its caller
    orphaned: set<OpId>)       // in flight when a read error was handled, and not registered again since

  /** The local variables of dispatch, the tables of the current handler, and the channels of the write lock. */
  datatype Loop = Loop(
    phase: Phase,
    lastOp: Option<OpId>,
    lockFree: bool,            // reqInitLock is not nil
    reqSent: Chan<bool>,
    reading: bool,
    conn: ConnId,              // the connection of the current clientConn
    wait: map<string, OpId>,   // respWait of its handler
    clientSubs: map<string, OpId>)

  /** The connections made so far, numbered in that order. */
  datatype Net = Net(
    dials: nat,
    closes: map<ConnId, nat>,  // how often each handler was closed
    codecClosed: set<ConnId>,
    readers: set<ConnId>,      // readers that have not delivered their error yet
    writeConn: Option<ConnId>)

  datatype State = State(
    calls: Calls,
    loop: Loop,
    net: Net,
    counter: nat,              // idCounter
    drawn: nat,                // how many ids were drawn
    closing: bool,
    crashed: bool)             // dispatch or a caller dereferenced a missing operation or response
  {
    predicate WellFormed() {
      && calls.reqs.Keys == calls.callers.Keys == calls.tracks.Keys
      && (forall id <- loop.wait :: loop.wait[id] in calls.reqs)
      && (loop.lastOp.Some? ==> loop.lastOp.value in calls.reqs)
    }
  }

  datatype Step =
    | NewOp(o: OpId, kind: Kind)
    | DrawId(o: OpId)
    | Abandon(o: OpId)
    | Accept(o: OpId)
    | WriteOk(o: OpId)
    | WriteFail(o: OpId)
    | DialOk(o: OpId)
    | DialFail(o: OpId)
    | Reconnected(o: OpId)      // the previous reader has not stopped
    | ReconnectedIdle(o: OpId)  // it has
    | ReconnectLost(o: OpId)
    | PostSent(o: OpId)
    | TakeSent
    | Receive(o: OpId)
    | ReceiveClosed(o: OpId)
    | Timeout(o: OpId)
    | TakeTimeout(o: OpId)
    | TimeoutQuit(o: OpId)
    | Handle(c: ConnId, msg: Message, decoded: Result<string, Error>)  // a response to a registered id
    | HandleOther(c: ConnId, msg: Message)
    | ReadFail(c: ConnId, err: Error)
    | FinishClose
    | Drop(c: ConnId)
    | DrainReconnect(c: ConnId)
    | DrainQuit(c: ConnId)
    | CloseClient  // while reading
    | CloseIdle    // while not

  function Initial(): (s: State)
    ensures s.WellFormed()
  {
    State(
      Calls(map[], map[], map[], {}, {}, {}),
      Loop(Running, None, true, Make(1), true, 0, map[], map[]),
      Net(1, map[0 := 0], {}, {0}, Some(0)),
      0, 0, false, false)
  }

  function NextCounter(counter: nat): nat {
    (counter + 1) % UINT32_RANGE
  }

  /** nextID: the counter after the increment, in decimal. */
  function IdText(counter: nat): string {
    Decimal.Digits(counter)
  }

  predicate At(s: State, o: OpId, c: Caller) {
    o in s.calls.callers && s.calls.callers[o] == c
  }

  predicate AtWriting(s: State, o: OpId) {
    o in s.calls.callers && s.calls.callers[o].Writing?
  }

  predicate AtDialled(s: State, o: OpId) {
    o in s.calls.callers && s.calls.callers[o].Dialled?
  }

  /** The message is a response to an id in respWait. */
  predicate Awaited(s: State, msg: Message) {
    msg.IsResponse() && msg.id.value in s.loop.wait
  }

  predicate Enabled(s: State, step: Step)
    requires s.WellFormed()
  {
    match step
    case NewOp(o, kind) => o !in s.calls.reqs
    case DrawId(o) =>
      At(s, o, Building) && (|s.calls.reqs[o].ids| < s.calls.reqs[o].kind.Ids() || s.calls.reqs[o].kind.Notify?)
    case Abandon(o) => At(s, o, Building)
    case Accept(o) =>
      && At(s, o, Building) && |s.calls.reqs[o].ids| == s.calls.reqs[o].kind.Ids()
      && s.loop.phase.Running? && s.loop.lockFree
    case WriteOk(o) => AtWriting(s, o) && s.net.writeConn.Some?
    case WriteFail(o) => AtWriting(s, o) && s.net.writeConn.Some?
    case DialOk(o) => AtWriting(s, o) && s.net.writeConn.None?
    case DialFail(o) => AtWriting(s, o) && s.net.writeConn.None?
    case Reconnected(o) => AtDialled(s, o) && s.loop.phase.Running? && s.loop.reading
    case ReconnectedIdle(o) => AtDialled(s, o) && s.loop.phase.Running? && !s.loop.reading
    case ReconnectLost(o) => AtDialled(s, o) && s.loop.phase.Stopped?
    case PostSent(o) => o in s.calls.callers && s.calls.callers[o].Posting?
    case TakeSent => s.loop.phase.Running? && s.loop.reqSent.buf != []
    case Receive(o) => At(s, o, Waiting) && s.calls.tracks[o].view.resp.buf != []
    case ReceiveClosed(o) =>
      At(s, o, Waiting) && s.calls.tracks[o].view.resp.buf == [] && s.calls.tracks[o].view.resp.closed
    case Timeout(o) => At(s, o, Waiting)
    case TakeTimeout(o) => At(s, o, TimingOut) && s.loop.phase.Running?
    case TimeoutQuit(o) => At(s, o, TimingOut) && s.closing
    case Handle(c, msg, decoded) => s.loop.phase.Running? && c in s.net.readers && Awaited(s, msg)
    case HandleOther(c, msg) => s.loop.phase.Running? && c in s.net.readers && !Awaited(s, msg)
    case ReadFail(c, err) => s.loop.phase.Running? && c in s.net.readers
    case FinishClose => s.loop.phase.Closing?
    case Drop(c) => s.loop.phase.Draining? && c in s.net.readers
    case DrainReconnect(c) => s.loop.phase.Draining? && c in s.net.readers && s.loop.phase.after.Reconnect?
    case DrainQuit(c) => s.loop.phase.Draining? && c in s.net.readers && s.loop.phase.after.Quitting?
    case CloseClient => s.loop.phase.Running? && s.loop.reading
    case CloseIdle => s.loop.phase.Running? && !s.loop.reading
  }

  /**
   * What is assumed of the environment: fewer than 2^32 ids are drawn; a write on a closed
   * connection fails; and a connection on which the write of a request failed did not answer
   * that request, so that nothing was answered when the request is registered again.
   */
  predicate Assumed(s: State, step: Step)
    requires s.WellFormed()
  {
    match step
    case DrawId(o) => s.drawn + 1 < UINT32_RANGE
    case WriteOk(o) => s.net.writeConn.Some? ==> s.net.writeConn.value !in s.net.codecClosed
    case Reconnected(o) => s.loop.lastOp.Some? ==> s.calls.tracks[s.loop.lastOp.value].answered == {}
    case ReconnectedIdle(o) => s.loop.lastOp.Some? ==> s.calls.tracks[s.loop.lastOp.value].answered == {}
    case _ => true
  }

  function SetCaller(calls: Calls, o: OpId, c: Caller): Calls {
    calls.(callers := calls.callers[o := c])
  }

  /** What cancelAllRequests does to the operations. */
  function CancelTracks(tracks: map<OpId, Track>, wait: map<string, OpId>, err: Error, inflight: Option<OpId>)
    : (r: map<OpId, Track>)
    ensures r.Keys == tracks.Keys
  {
    map o | o in tracks ::
      if o in wait.Values && Some(o) != inflight then tracks[o].(view := Cancelled(tracks[o].view, err)) else tracks[o]
  }

  /** A new clientConn becomes current, with the operation in flight registered on it, and its reader is spawned. */
  function InstallLoop(loop: Loop, reqs: map<OpId, Req>, codec: ConnId): Loop {
    loop.(phase := Running, reading := true, conn := codec, clientSubs := map[],
          wait := if loop.lastOp.Some? && loop.lastOp.value in reqs
                  then Registered(map[], reqs[loop.lastOp.value].ids, loop.lastOp.value) else map[])
  }

  function InstallNet(net: Net, codec: ConnId): Net {
    net.(closes := net.closes[codec := 0], readers := net.readers + {codec})
  }

  function NotOrphaned(calls: Calls, o: Option<OpId>): Calls {
    calls.(orphaned := if o.Some? then calls.orphaned - {o.value} else calls.orphaned)
  }

  /** The caller after wait returned a message: wait also looks at op.err. */
  function AfterMessage(kind: Kind, k: Track): Caller {
    if k.view.err.Some? then Returned(false)
    else if |k.received| < kind.Responses() then Waiting
    else Returned(true)
  }

  function NewTrack(kind: Kind): Track {
    Track(OpView(kind.Subscribe?, Make(kind.Capacity()), None), [], {}, 0)
  }

  function DoNewOp(s: State, o: OpId, kind: Kind): (t: State)
    requires s.WellFormed() && Enabled(s, NewOp(o, kind))
    ensures t.WellFormed()
  {
    s.(calls := Calls(
         s.calls.reqs[o := Req(kind, [])],
         s.calls.callers[o := Building],
         s.calls.tracks[o := NewTrack(kind)],
         s.calls.sent - {o}, s.calls.timedOut - {o}, s.calls.orphaned - {o}))
  }

  function DoDrawId(s: State, o: OpId): (t: State)
    requires s.WellFormed() && Enabled(s, DrawId(o))
    ensures t.WellFormed()
  {
    var c := NextCounter(s.counter);
    var q := s.calls.reqs[o];
    var ids := if q.kind.Notify? then q.ids else q.ids + [IdText(c)];
    s.(calls := s.calls.(reqs := s.calls.reqs[o := Req(q.kind, ids)]), counter := c, drawn := s.drawn + 1)
  }

  function DoAccept(s: State, o: OpId): (t: State)
    requires s.WellFormed() && Enabled(s, Accept(o))
    ensures t.WellFormed()
  {
    s.(calls := SetCaller(s.calls, o, Writing(false)),
       loop := s.loop.(lockFree := false, lastOp := Some(o),
                       wait := Registered(s.loop.wait, s.calls.reqs[o].ids, o)))
  }

  function DoWriteOk(s: State, o: OpId): (t: State)
    requires s.WellFormed() && Enabled(s, WriteOk(o))
    ensures t.WellFormed()
  {
    s.(calls := SetCaller(s.calls, o, Posting(true)).(sent := s.calls.sent + {o}))
  }

  function DoWriteFail(s: State, o: OpId): (t: State)
    requires s.WellFormed() && Enabled(s, WriteFail(o))
    ensures t.WellFormed()
  {
    s.(calls := SetCaller(s.calls, o, if s.calls.callers[o].retry then Posting(false) else Writing(true)),
       net := s.net.(writeConn := None))
  }

  function DoDialOk(s: State, o: OpId): (t: State)
    requires s.WellFormed() && Enabled(s, DialOk(o))
    ensures t.WellFormed()
  {
    s.(calls := SetCaller(s.calls, o, Dialled(s.net.dials, s.calls.callers[o].retry)),
       net := s.net.(dials := s.net.dials + 1))
  }

  /** The loop takes a new connection while the old reader lives: it closes the old connection, then drains it. */
  function DoReconnected(s: State, o: OpId): (t: State)
    requires s.WellFormed() && Enabled(s, Reconnected(o))
    ensures t.WellFormed()
  {
    var codec := s.calls.callers[o].codec;
    s.(calls := SetCaller(s.calls, o, Writing(s.calls.callers[o].retry))
         .(tracks := CancelTracks(s.calls.tracks, s.loop.wait, CLIENT_RECONNECTED, s.loop.lastOp)),
       loop := s.loop.(phase := Closing(Reconnect(codec)), wait := map[], clientSubs := map[]),
       net := s.net.(writeConn := Some(codec)))
  }

  function DoReconnectedIdle(s: State, o: OpId): (t: State)
    requires s.WellFormed() && Enabled(s, ReconnectedIdle(o))
    ensures t.WellFormed()
  {
    var codec := s.calls.callers[o].codec;
    s.(calls := NotOrphaned(SetCaller(s.calls, o, Writing(s.calls.callers[o].retry)), s.loop.lastOp),
       loop := InstallLoop(s.loop, s.calls.reqs, codec),
       net := InstallNet(s.net.(writeConn := Some(codec)), codec),
       crashed := s.crashed || s.loop.lastOp.None?)
  }

  function DoReconnectLost(s: State, o: OpId): (t: State)
    requires s.WellFormed() && Enabled(s, ReconnectLost(o))
    ensures t.WellFormed()
  {
    s.(calls := SetCaller(s.calls, o, Posting(false)),
       net := s.net.(codecClosed := s.net.codecClosed + {s.calls.callers[o].codec}))
  }

  function DoPostSent(s: State, o: OpId): (t: State)
    requires s.WellFormed() && Enabled(s, PostSent(o))
    ensures t.WellFormed()
  {
    var ok := s.calls.callers[o].ok;
    s.(calls := SetCaller(s.calls, o, if ok && s.calls.reqs[o].kind.Responses() > 0 then Waiting else Returned(ok)),
       loop := s.loop.(reqSent := Send(s.loop.reqSent, ok)))
  }

  function DoTakeSent(s: State): (t: State)
    requires s.WellFormed() && Enabled(s, TakeSent)
    ensures t.WellFormed()
  {
    var ok := s.loop.reqSent.buf[0];
    var last := s.loop.lastOp;
    s.(loop := s.loop.(reqSent := Received(s.loop.reqSent), lockFree := true, lastOp := None,
                       wait := if !ok && last.Some? then Deregistered(s.loop.wait, s.calls.reqs[last.value].ids)
                               else s.loop.wait),
       crashed := s.crashed || (!ok && last.None?))
  }

  function DoReceive(s: State, o: OpId): (t: State)
    requires s.WellFormed() && Enabled(s, Receive(o))
    ensures t.WellFormed()
  {
    var k := s.calls.tracks[o];
    var l := k.(view := k.view.(resp := Received(k.view.resp)), received := k.received + [k.view.resp.buf[0]]);
    s.(calls := SetCaller(s.calls, o, AfterMessage(s.calls.reqs[o].kind, l)).(tracks := s.calls.tracks[o := l]))
  }

  function DoReceiveClosed(s: State, o: OpId): (t: State)
    requires s.WellFormed() && Enabled(s, ReceiveClosed(o))
    ensures t.WellFormed()
  {
    var err := s.calls.tracks[o].view.err;
    s.(calls := SetCaller(s.calls, o, Returned(err.None?)),
       crashed := s.crashed || (err.None? && !s.calls.reqs[o].kind.Subscribe?))
  }

  function DoTakeTimeout(s: State, o: OpId): (t: State)
    requires s.WellFormed() && Enabled(s, TakeTimeout(o))
    ensures t.WellFormed()
  {
    s.(calls := SetCaller(s.calls, o, Returned(false)).(timedOut := s.calls.timedOut + {o}),
       loop := s.loop.(wait := Deregistered(s.loop.wait, s.calls.reqs[o].ids)))
  }

  /** handleResponse on the current handler, for an id it knows. */
  function DoHandle(s: State, c: ConnId, msg: Message, decoded: Result<string, Error>): (t: State)
    requires s.WellFormed() && Enabled(s, Handle(c, msg, decoded))
    ensures t.WellFormed()
  {
    var id := msg.id.value;
    var o := s.loop.wait[id];
    var k := s.calls.tracks[o];
    var starts := Starts(k.view, msg, decoded);
    var l := Track(Responded(k.view, msg, decoded), k.received, k.answered + {id}, k.starts + if starts then 1 else 0);
    s.(calls := s.calls.(tracks := s.calls.tracks[o := l]),
       loop := s.loop.(wait := s.loop.wait - {id},
                       clientSubs := if starts then s.loop.clientSubs[decoded.value := o] else s.loop.clientSubs))
  }

  function DoReadFail(s: State, c: ConnId, err: Error): (t: State)
    requires s.WellFormed() && Enabled(s, ReadFail(c, err))
    ensures t.WellFormed()
  {
    var last := s.loop.lastOp;
    s.(calls := s.calls.(tracks := CancelTracks(s.calls.tracks, s.loop.wait, err, last),
                         orphaned := if last.Some? then s.calls.orphaned + {last.value} else s.calls.orphaned),
       loop := s.loop.(phase := Closing(ReadError), wait := map[], clientSubs := map[]),
       net := s.net.(readers := s.net.readers - {c}))
  }

  /** The rest of conn.close, once the call goroutines have ended. */
  function DoFinishClose(s: State): (t: State)
    requires s.WellFormed() && Enabled(s, FinishClose)
    ensures t.WellFormed()
  {
    var conn := s.loop.conn;
    var after := s.loop.phase.after;
    var count := if conn in s.net.closes then s.net.closes[conn] else 0;
    s.(loop := s.loop.(reading := s.loop.reading && !after.ReadError?,
                       phase := if after.ReadError? then Running else Draining(after)),
       net := s.net.(closes := s.net.closes[conn := count + 1], codecClosed := s.net.codecClosed + {conn}))
  }

  function DoDrainReconnect(s: State, c: ConnId): (t: State)
    requires s.WellFormed() && Enabled(s, DrainReconnect(c))
    ensures t.WellFormed()
  {
    var codec := s.loop.phase.after.codec;
    s.(calls := NotOrphaned(s.calls, s.loop.lastOp),
       loop := InstallLoop(s.loop, s.calls.reqs, codec),
       net := InstallNet(s.net.(readers := s.net.readers - {c}), codec),
       crashed := s.crashed || s.loop.lastOp.None?)
  }

  function DoCloseClient(s: State): (t: State)
    requires s.WellFormed() && Enabled(s, CloseClient)
    ensures t.WellFormed()
  {
    s.(calls := s.calls.(tracks := CancelTracks(s.calls.tracks, s.loop.wait, CLIENT_QUIT, None)),
       loop := s.loop.(phase := Closing(Quitting), wait := map[], clientSubs := map[]),
       closing := true)
  }

  function Apply(s: State, step: Step): (t: State)
    requires s.WellFormed() && Enabled(s, step)
    ensures t.WellFormed()
  {
    match step
    case NewOp(o, kind) => DoNewOp(s, o, kind)
    case DrawId(o) => DoDrawId(s, o)
    case Abandon(o) => s.(calls := SetCaller(s.calls, o, Returned(false)))
    case Accept(o) => DoAccept(s, o)
    case WriteOk(o) => DoWriteOk(s, o)
    case WriteFail(o) => DoWriteFail(s, o)
    case DialOk(o) => DoDialOk(s, o)
    case DialFail(o) => s.(calls := SetCaller(s.calls, o, Posting(false)))
    case Reconnected(o) => DoReconnected(s, o)
    case ReconnectedIdle(o) => DoReconnectedIdle(s, o)
    case ReconnectLost(o) => DoReconnectLost(s, o)
    case PostSent(o) => DoPostSent(s, o)
    case TakeSent => DoTakeSent(s)
    case Receive(o) => DoReceive(s, o)
    case ReceiveClosed(o) => DoReceiveClosed(s, o)
    case Timeout(o) => s.(calls := SetCaller(s.calls, o, TimingOut))
    case TakeTimeout(o) => DoTakeTimeout(s, o)
    case TimeoutQuit(o) => s.(calls := SetCaller(s.calls, o, Returned(false)))
    case Handle(c, msg, decoded) => DoHandle(s, c, msg, decoded)
    case HandleOther(c, msg) => s
    case ReadFail(c, err) => DoReadFail(s, c, err)
    case FinishClose => DoFinishClose(s)
    case Drop(c) => s
    case DrainReconnect(c) => DoDrainReconnect(s, c)
    case DrainQuit(c) =>
      s.(loop := s.loop.(phase := Stopped), net := s.net.(readers := s.net.readers - {c}))
    case CloseClient => DoCloseClient(s)
    case CloseIdle => s.(loop := s.loop.(phase := Stopped), closing := true)
  }

  /** A run: every step is enabled in the state the steps before it lead to. */
  ghost predicate Possible(s: State, steps: seq<Step>)
    requires s.WellFormed()
    decreases steps
  {
    steps == [] || (Enabled(s, steps[0]) && Possible(Apply(s, steps[0]), steps[1..]))
  }

  /** A run of which every step meets the assumptions on the environment. */
  ghost predicate Run(s: State, steps: seq<Step>)
    requires s.WellFormed()
    ensures Run(s, steps) ==> Possible(s, steps)
    decreases steps
  {
    steps == [] || (Enabled(s, steps[0]) && Assumed(s, steps[0]) && Run(Apply(s, steps[0]), steps[1..]))
  }

  ghost function Final(s: State, steps: seq<Step>): (t: State)
    requires s.WellFormed() && Possible(s, steps)
    ensures t.WellFormed()
    decreases steps
  {
    if steps == [] then s else Final(Apply(s, steps[0]), steps[1..])
  }

  /** The states the engine can reach. */
  ghost predicate Reachable(s: State) {
    exists steps: seq<Step> :: Run(Initial(), steps) && s == Final(Initial(), steps)
  }
}
