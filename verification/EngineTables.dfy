/** Invariants of the response channels and of the table of outstanding requests. */
module EngineTables {
  import opened Wrappers
  import opened Channels
  import opened JsonRpc
  import opened ClientSubscriptions
  import opened Requests
  import opened Engine
  import opened EngineInvariant

  // ---------- one operation ----------

  /** The messages are responses to exactly the given ids, one each. */
  ghost predicate Answers(msgs: seq<Message>, answered: set<string>) {
    && |msgs| == |answered|
    && (forall i :: 0 <= i < |msgs| ==> msgs[i].IsResponse() && msgs[i].id.value in answered)
    && (forall i, j :: 0 <= i < j < |msgs| ==> msgs[i].id != msgs[j].id)
  }

  function IdSet(q: Req): set<string> {
    set id | id in q.ids
  }

  ghost predicate TrackOk(q: Req, k: Track) {
    && k.view.sub == q.kind.Subscribe? && k.view.resp.cap == q.kind.Capacity() && !k.view.resp.faulted
    && |q.ids| <= q.kind.Ids() && k.answered <= IdSet(q) && (k.view.err.Some? ==> k.view.resp.closed)
    && (if k.view.sub
        then k.Delivered() == [] && (if k.view.resp.closed then k.starts == (if k.view.err.None? then 1 else 0)
                                     else k.answered == {} && k.starts == 0)
        else k.starts == 0 && Answers(k.Delivered(), k.answered) && (k.view.resp.closed ==> k.view.err.Some?))
  }

  /** A set drawn from a sequence has at most as many elements. */
  lemma {:induction false} IdSetSize(ids: seq<string>)
    ensures |set id | id in ids| <= |ids|
  {
    if ids == [] {
      assert (set id | id in ids) == {};
    } else {
      IdSetSize(ids[1..]);
      assert (set id | id in ids) == {ids[0]} + set id | id in ids[1..];
    }
  }

  /** A response to an unanswered id finds room in the channel, or closes the channel of a subscribe request. */
  lemma RespondedOk(q: Req, k: Track, msg: Message, decoded: Result<string, Error>)
    requires TrackOk(q, k) && msg.IsResponse() && !k.view.resp.closed
    requires msg.id.value in q.ids && msg.id.value !in k.answered
    ensures TrackOk(q, Track(Responded(k.view, msg, decoded), k.received, k.answered + {msg.id.value},
                             k.starts + if Starts(k.view, msg, decoded) then 1 else 0))
  {
    var id := msg.id.value;
    if !k.view.sub {
      IdSetSize(q.ids);
      SubsetSize(k.answered + {id}, IdSet(q));
      assert k.received + (k.view.resp.buf + [msg]) == k.Delivered() + [msg];
    }
  }

  lemma SubsetSize<T>(a: set<T>, b: set<T>)
    requires a <= b
    ensures |a| <= |b|
  {
    assert b == a + (b - a);
  }

  lemma ReceivedOk(q: Req, k: Track)
    requires TrackOk(q, k) && k.view.resp.buf != []
    ensures TrackOk(q, k.(view := k.view.(resp := Received(k.view.resp)), received := k.received + [k.view.resp.buf[0]]))
  {
    assert k.received + [k.view.resp.buf[0]] + k.view.resp.buf[1..] == k.Delivered();
  }

  // ---------- all operations ----------

  ghost predicate TracksOk(reqs: map<OpId, Req>, tracks: map<OpId, Track>) {
    && reqs.Keys == tracks.Keys
    && forall o <- reqs :: TrackOk(reqs[o], tracks[o])
  }

  /** An entry of respWait names an operation that waits for a response to that id and has an open channel. */
  ghost predicate WaitOk(reqs: map<OpId, Req>, tracks: map<OpId, Track>, wait: map<string, OpId>) {
    forall id <- wait :: var o := wait[id];
      && o in reqs && o in tracks
      && id in reqs[o].ids && id !in tracks[o].answered && !tracks[o].view.resp.closed
  }

  ghost predicate Untouched(k: Track) {
    k.answered == {} && !k.view.resp.closed
  }

  /** The phase ends with the operation in flight being registered on a new connection. */
  predicate Moving(phase: Phase) {
    (phase.Closing? || phase.Draining?) && phase.after.Reconnect?
  }

  ghost predicate PhaseInv(s: State) {
    && (s.closing <==> s.loop.phase.Stopped? || ((s.loop.phase.Closing? || s.loop.phase.Draining?) && s.loop.phase.after.Quitting?))
    && (s.loop.phase.Draining? ==> !s.loop.phase.after.ReadError?)
    && (s.loop.phase.Closing? || s.loop.phase.Draining? ==> s.loop.wait == map[])
  }

  lemma PhaseKeptLooping(s: State, step: Step)
    requires s.WellFormed() && PhaseInv(s) && Enabled(s, step) && Looping(step)
    ensures PhaseInv(Apply(s, step))
  {
  }

  lemma PhaseKept(s: State, step: Step)
    requires s.WellFormed() && PhaseInv(s) && Enabled(s, step)
    ensures PhaseInv(Apply(s, step))
  {
    if Starting(step) { StartFrame(s, step); }
    else if Sending(step) { SendFrame(s, step); }
    else if Receiving(step) { var o := ReceiveFrame(s, step); }
    else if Looping(step) { PhaseKeptLooping(s, step); }
  }

  ghost predicate BuildingOk(callers: map<OpId, Caller>, tracks: map<OpId, Track>, wait: map<string, OpId>) {
    forall o <- callers :: callers[o].Building? ==> o in tracks && Untouched(tracks[o]) && o !in wait.Values
  }

  /** The operation in flight is untouched while it moves; before that its channel can only be closed by its response. */
  ghost predicate LastOk(loop: Loop, closing: bool, tracks: map<OpId, Track>) {
    && (Moving(loop.phase) ==> loop.lastOp.Some? && loop.lastOp.value in tracks && Untouched(tracks[loop.lastOp.value]))
    && (!closing && loop.lastOp.Some? && loop.lastOp.value in tracks && tracks[loop.lastOp.value].view.resp.closed ==>
        tracks[loop.lastOp.value].answered != {})
  }

  ghost predicate TableInv(s: State) {
    && WaitOk(s.calls.reqs, s.calls.tracks, s.loop.wait)
    && BuildingOk(s.calls.callers, s.calls.tracks, s.loop.wait)
    && LastOk(s.loop, s.closing, s.calls.tracks)
  }

  /** Before its send is over an operation has received nothing, and once it is sent it has all its ids. */
  ghost predicate FlightOk(c: Caller, q: Req, k: Track) {
    && (c.Building? || c.HoldsLock() ==> k.received == [])
    && (c.HoldsLock() ==> |q.ids| == q.kind.Ids())
  }

  ghost predicate FlightInv(s: State)
    requires s.WellFormed()
  {
    forall o <- s.calls.callers :: FlightOk(s.calls.callers[o], s.calls.reqs[o], s.calls.tracks[o])
  }

  lemma FlightKeptStarting(s: State, step: Step)
    requires s.WellFormed() && FlightInv(s) && Enabled(s, step) && Starting(step)
    ensures FlightInv(Apply(s, step))
  {
  }

  lemma FlightKeptSending(s: State, step: Step)
    requires s.WellFormed() && FlightInv(s) && Enabled(s, step) && Sending(step)
    ensures FlightInv(Apply(s, step))
  {
    SendFrame(s, step);
  }

  lemma FlightKeptReconnecting(s: State, step: Step)
    requires s.WellFormed() && FlightInv(s) && Enabled(s, step) && Reconnecting(step)
    ensures FlightInv(Apply(s, step))
  {
    ReconnectFrame(s, step);
  }

  lemma FlightKeptReceive(s: State, o: OpId)
    requires s.WellFormed() && FlightInv(s) && Enabled(s, Receive(o))
    ensures FlightInv(DoReceive(s, o))
  {
  }

  lemma FlightKeptReceiving(s: State, step: Step)
    requires s.WellFormed() && FlightInv(s) && Enabled(s, step) && Receiving(step)
    ensures FlightInv(Apply(s, step))
  {
    if step.Receive? {
      FlightKeptReceive(s, step.o);
    } else {
      var o := ReceiveFrame(s, step);
      TracksFrame(s, step);
    }
  }

  lemma FlightKeptLooping(s: State, step: Step)
    requires s.WellFormed() && FlightInv(s) && Enabled(s, step) && Looping(step)
    ensures FlightInv(Apply(s, step))
  {
    LoopFrame(s, step);
  }

  lemma FlightKept(s: State, step: Step)
    requires s.WellFormed() && FlightInv(s) && Enabled(s, step)
    ensures FlightInv(Apply(s, step))
  {
    if Starting(step) { FlightKeptStarting(s, step); }
    else if Sending(step) { FlightKeptSending(s, step); }
    else if Reconnecting(step) { FlightKeptReconnecting(s, step); }
    else if Receiving(step) { FlightKeptReceiving(s, step); }
    else { FlightKeptLooping(s, step); }
  }

  // ---------- the tracks ----------

  lemma CancelKept(reqs: map<OpId, Req>, tracks: map<OpId, Track>, wait: map<string, OpId>, err: Error, inflight: Option<OpId>)
    requires TracksOk(reqs, tracks) && WaitOk(reqs, tracks, wait)
    ensures TracksOk(reqs, CancelTracks(tracks, wait, err, inflight))
  {
  }

  /** The steps that leave every track as it is. */
  lemma TracksFrame(s: State, step: Step)
    requires s.WellFormed() && Enabled(s, step)
    requires !step.NewOp? && !step.DrawId? && !step.Reconnected? && !step.Receive?
    requires !step.Handle? && !step.ReadFail? && !step.CloseClient?
    ensures Apply(s, step).calls.tracks == s.calls.tracks
  {
    if Starting(step) { StartFrame(s, step); }
    else if Sending(step) { SendFrame(s, step); }
  }

  /** One track changes, to one that is in order for its request. */
  lemma TrackChanged(reqs: map<OpId, Req>, tracks: map<OpId, Track>, o: OpId, q: Req, k: Track)
    requires TracksOk(reqs, tracks) && TrackOk(q, k)
    ensures TracksOk(reqs[o := q], tracks[o := k])
    ensures o in reqs && reqs[o] == q ==> reqs[o := q] == reqs
    ensures o in tracks && tracks[o] == k ==> tracks[o := k] == tracks
  {
  }

  lemma TracksKeptStarting(s: State, step: Step)
    requires s.WellFormed() && TracksOk(s.calls.reqs, s.calls.tracks) && Enabled(s, step) && IdInv(Apply(s, step))
    requires step.NewOp? || step.DrawId?
    ensures TracksOk(Apply(s, step).calls.reqs, Apply(s, step).calls.tracks)
  {
  }

  lemma TracksKeptReceive(s: State, step: Step)
    requires s.WellFormed() && TracksOk(s.calls.reqs, s.calls.tracks) && Enabled(s, step) && step.Receive?
    ensures TracksOk(Apply(s, step).calls.reqs, Apply(s, step).calls.tracks)
  {
    var q, k := s.calls.reqs[step.o], s.calls.tracks[step.o];
    ReceivedOk(q, k);
    TrackChanged(s.calls.reqs, s.calls.tracks, step.o, q, Apply(s, step).calls.tracks[step.o]);
  }

  lemma TracksKeptHandle(s: State, c: ConnId, msg: Message, decoded: Result<string, Error>)
    requires s.WellFormed() && TracksOk(s.calls.reqs, s.calls.tracks) && Enabled(s, Handle(c, msg, decoded))
    requires WaitOk(s.calls.reqs, s.calls.tracks, s.loop.wait)
    ensures TracksOk(DoHandle(s, c, msg, decoded).calls.reqs, DoHandle(s, c, msg, decoded).calls.tracks)
  {
    var o := s.loop.wait[msg.id.value];
    var q, k := s.calls.reqs[o], s.calls.tracks[o];
    RespondedOk(q, k, msg, decoded);
    TrackChanged(s.calls.reqs, s.calls.tracks, o, q, DoHandle(s, c, msg, decoded).calls.tracks[o]);
  }

  lemma TracksKeptReconnected(s: State, step: Step)
    requires s.WellFormed() && TracksOk(s.calls.reqs, s.calls.tracks) && Enabled(s, step)
    requires WaitOk(s.calls.reqs, s.calls.tracks, s.loop.wait) && step.Reconnected?
    ensures TracksOk(Apply(s, step).calls.reqs, Apply(s, step).calls.tracks)
  {
    CancelKept(s.calls.reqs, s.calls.tracks, s.loop.wait, CLIENT_RECONNECTED, s.loop.lastOp);
  }

  lemma TracksKeptCancelling(s: State, step: Step)
    requires s.WellFormed() && TracksOk(s.calls.reqs, s.calls.tracks) && Enabled(s, step)
    requires WaitOk(s.calls.reqs, s.calls.tracks, s.loop.wait)
    requires step.ReadFail? || step.CloseClient?
    ensures TracksOk(Apply(s, step).calls.reqs, Apply(s, step).calls.tracks)
  {
    if step.ReadFail? {
      CancelKept(s.calls.reqs, s.calls.tracks, s.loop.wait, step.err, s.loop.lastOp);
    } else {
      CancelKept(s.calls.reqs, s.calls.tracks, s.loop.wait, CLIENT_QUIT, None);
    }
  }

  lemma TracksKeptElse(s: State, step: Step)
    requires s.WellFormed() && TracksOk(s.calls.reqs, s.calls.tracks) && Enabled(s, step)
    requires !step.NewOp? && !step.DrawId? && !step.Reconnected? && !step.Receive?
    requires !step.Handle? && !step.ReadFail? && !step.CloseClient?
    ensures TracksOk(Apply(s, step).calls.reqs, Apply(s, step).calls.tracks)
  {
    ReqsFrame(s, step);
    TracksFrame(s, step);
  }

  lemma TracksKept(s: State, step: Step)
    requires s.WellFormed() && TracksOk(s.calls.reqs, s.calls.tracks) && Enabled(s, step)
    requires WaitOk(s.calls.reqs, s.calls.tracks, s.loop.wait) && IdInv(Apply(s, step))
    ensures TracksOk(Apply(s, step).calls.reqs, Apply(s, step).calls.tracks)
  {
    if step.NewOp? || step.DrawId? {
      TracksKeptStarting(s, step);
    } else if step.Receive? {
      TracksKeptReceive(s, step);
    } else if step.Handle? {
      TracksKeptHandle(s, step.c, step.msg, step.decoded);
    } else if step.Reconnected? {
      TracksKeptReconnected(s, step);
    } else if step.ReadFail? || step.CloseClient? {
      TracksKeptCancelling(s, step);
    } else {
      TracksKeptElse(s, step);
    }
  }

  // ---------- the table ----------

  /** Entries may leave the table, and callers may move on. */
  lemma TableShrinks(s: State, t: State)
    requires TableInv(s)
    requires t.calls.reqs == s.calls.reqs && t.calls.tracks == s.calls.tracks && t.closing == s.closing
    requires forall o <- t.calls.callers :: o in s.calls.callers && (t.calls.callers[o].Building? ==> s.calls.callers[o].Building?)
    requires forall id <- t.loop.wait :: id in s.loop.wait && t.loop.wait[id] == s.loop.wait[id]
    requires t.loop.lastOp == s.loop.lastOp || t.loop.lastOp.None?
    requires Moving(t.loop.phase) ==> Moving(s.loop.phase) && t.loop.lastOp == s.loop.lastOp
    ensures TableInv(t)
  {
  }

  lemma TableKeptNewOp(s: State, o: OpId, kind: Kind)
    requires s.WellFormed() && LockInv(s) && TableInv(s) && Enabled(s, NewOp(o, kind))
    ensures TableInv(DoNewOp(s, o, kind))
  {
  }

  lemma TableKeptDrawId(s: State, o: OpId)
    requires s.WellFormed() && LockInv(s) && TableInv(s) && Enabled(s, DrawId(o))
    ensures TableInv(DoDrawId(s, o))
  {
  }

  lemma TableKeptAccept(s: State, o: OpId)
    requires s.WellFormed() && LockInv(s) && TableInv(s) && Enabled(s, Accept(o)) && IdInv(s)
    ensures TableInv(DoAccept(s, o))
  {
  }

  lemma TableKeptStarting(s: State, step: Step)
    requires s.WellFormed() && IdInv(s) && LockInv(s) && TableInv(s) && Enabled(s, step) && Starting(step)
    ensures TableInv(Apply(s, step))
  {
    if step.NewOp? { TableKeptNewOp(s, step.o, step.kind); }
    else if step.DrawId? { TableKeptDrawId(s, step.o); }
    else if step.Accept? { TableKeptAccept(s, step.o); }
    else { TableShrinks(s, s.(calls := SetCaller(s.calls, step.o, Returned(false)))); }
  }

  lemma TableKeptSending(s: State, step: Step)
    requires s.WellFormed() && LockInv(s) && PhaseInv(s) && TableInv(s) && Enabled(s, step)
    requires Sending(step)
    ensures TableInv(Apply(s, step))
  {
  }

  lemma TableKeptReconnecting(s: State, step: Step)
    requires s.WellFormed() && LockInv(s) && PhaseInv(s) && TableInv(s) && Enabled(s, step) && Assumed(s, step)
    requires Reconnecting(step)
    ensures TableInv(Apply(s, step))
  {
  }

  lemma TableKeptReceive(s: State, o: OpId)
    requires s.WellFormed() && TableInv(s) && Enabled(s, Receive(o))
    ensures TableInv(DoReceive(s, o))
  {
  }

  lemma TableKeptTimeout(s: State, o: OpId)
    requires s.WellFormed() && TableInv(s) && Enabled(s, TakeTimeout(o))
    ensures TableInv(DoTakeTimeout(s, o))
  {
    TableShrinks(s, DoTakeTimeout(s, o));
  }

  lemma TableKeptReceiving(s: State, step: Step)
    requires s.WellFormed() && TableInv(s) && Enabled(s, step) && Receiving(step)
    ensures TableInv(Apply(s, step))
  {
    if step.Receive? { TableKeptReceive(s, step.o); }
    else if step.TakeTimeout? { TableKeptTimeout(s, step.o); }
    else { TableShrinks(s, Apply(s, step)); }
  }

  /** An answered id leaves the table; if that closes the channel, the operation has no other entry. */
  lemma WaitAnswered(reqs: map<OpId, Req>, tracks: map<OpId, Track>, wait: map<string, OpId>, id: string, l: Track)
    requires WaitOk(reqs, tracks, wait) && id in wait
    requires l.answered == tracks[wait[id]].answered + {id}
    requires l.view.resp.closed ==> |reqs[wait[id]].ids| == 1
    ensures WaitOk(reqs, tracks[wait[id] := l], wait - {id})
  {
  }

  lemma TableKeptHandle(s: State, c: ConnId, msg: Message, decoded: Result<string, Error>)
    requires s.WellFormed() && TableInv(s) && Enabled(s, Handle(c, msg, decoded))
    requires TracksOk(s.calls.reqs, s.calls.tracks)
    ensures TableInv(DoHandle(s, c, msg, decoded))
  {
    var t := DoHandle(s, c, msg, decoded);
    var id := msg.id.value;
    var o := s.loop.wait[id];
    assert TrackOk(s.calls.reqs[o], s.calls.tracks[o]);
    assert t.calls.tracks == s.calls.tracks[o := t.calls.tracks[o]];
    WaitAnswered(s.calls.reqs, s.calls.tracks, s.loop.wait, id, t.calls.tracks[o]);
    assert BuildingOk(t.calls.callers, t.calls.tracks, t.loop.wait);
  }

  lemma TableKeptReadFail(s: State, c: ConnId, err: Error)
    requires s.WellFormed() && LockInv(s) && TableInv(s) && Enabled(s, ReadFail(c, err))
    ensures TableInv(DoReadFail(s, c, err))
  {
  }

  lemma TableKeptDrained(s: State, c: ConnId)
    requires s.WellFormed() && LockInv(s) && TableInv(s) && Enabled(s, DrainReconnect(c))
    ensures TableInv(DoDrainReconnect(s, c))
  {
  }

  lemma TableKeptClose(s: State)
    requires s.WellFormed() && LockInv(s) && TableInv(s) && Enabled(s, CloseClient)
    ensures TableInv(DoCloseClient(s))
  {
  }

  lemma TableKeptLooping(s: State, step: Step)
    requires s.WellFormed() && LockInv(s) && PhaseInv(s) && TableInv(s) && Enabled(s, step)
    requires Looping(step) && !step.Handle?
    ensures TableInv(Apply(s, step))
  {
    if step.ReadFail? { TableKeptReadFail(s, step.c, step.err); }
    else if step.DrainReconnect? { TableKeptDrained(s, step.c); }
    else if step.CloseClient? { TableKeptClose(s); }
    else if !step.CloseIdle? { TableShrinks(s, Apply(s, step)); }
  }
}
