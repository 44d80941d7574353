/**
 * Outgoing requests of one connection: the request operation, the table of outstanding
 * requests and the client subscriptions of a handler (simple_rpc/rpc/handler.go).
 *
 * The first half states what each operation does to the values involved, for operations
 * named by an arbitrary key; the connection engine uses the same functions.  The second half
 * is the mutable code, proved against them.
 */
module Requests {
  import opened Wrappers
  import opened Channels
  import opened JsonRpc
  import opened ClientSubscriptions

  /** What dispatch shares with the sender of a request: whether it subscribes, its channel and its error. */
  datatype OpView = OpView(sub: bool, resp: Chan<Message>, err: Option<Error>)

  function Registered<K>(wait: map<string, K>, ids: seq<string>, op: K): map<string, K> {
    wait + (map id | id in ids :: op)
  }

  function Deregistered<K>(wait: map<string, K>, ids: seq<string>): map<string, K> {
    wait - (set id | id in ids)
  }

  lemma RegisteredMore<K>(wait: map<string, K>, ids: seq<string>, id: string, op: K)
    ensures Registered(wait, ids + [id], op) == Registered(wait, ids, op)[id := op]
  {
  }

  /** The operation after its request was cancelled. */
  function Cancelled(v: OpView, err: Error): OpView {
    v.(err := Some(err), resp := Close(v.resp))
  }

  /** A response subscribes when it answers a subscribe request, carries no error and has a decodable id. */
  predicate Starts(v: OpView, msg: Message, decoded: Result<string, Error>) {
    v.sub && msg.error.None? && decoded.Success?
  }

  function AsError(err: JsonError): Error {
    Error(err.message, Some(err.code), err.data)
  }

  /** The operation after its response arrived; decoded is the subscription id in the result. */
  function Responded(v: OpView, msg: Message, decoded: Result<string, Error>): OpView {
    if !v.sub then
      v.(resp := Send(v.resp, msg))
    else if msg.error.Some? then
      v.(err := Some(AsError(msg.error.value)), resp := Close(v.resp))
    else
      v.(err := (if decoded.Success? then None else Some(decoded.error)), resp := Close(v.resp))
  }

  class RequestOp {
    const ids: seq<string>
    const sub: ClientSubscription?
    var resp: Chan<Message>
    var err: Option<Error>

    constructor (ids: seq<string>, capacity: nat, sub: ClientSubscription?)
      ensures View() == OpView(sub != null, Make(capacity), None)
      ensures this.ids == ids && this.sub == sub
    {
      this.ids, this.sub := ids, sub;
      resp, err := Make(capacity), None;
    }

    ghost function View(): OpView
      reads this
    {
      OpView(sub != null, resp, err)
    }
  }

  class Handler {
    var respWait: map<string, RequestOp>
    var clientSubs: map<string, ClientSubscription>

    constructor ()
      ensures respWait == map[] && clientSubs == map[]
    {
      respWait, clientSubs := map[], map[];
    }

    method AddRequestOp(op: RequestOp)
      modifies this`respWait
      ensures respWait == Registered(old(respWait), op.ids, op)
    {
      for i := 0 to |op.ids|
        invariant respWait == Registered(old(respWait), op.ids[..i], op)
      {
        RegisteredMore(old(respWait), op.ids[..i], op.ids[i], op);
        assert op.ids[..i + 1] == op.ids[..i] + [op.ids[i]];
        respWait := respWait[op.ids[i] := op];
      }
      assert op.ids[..|op.ids|] == op.ids;
    }

    method RemoveRequestOp(op: RequestOp)
      modifies this`respWait
      ensures respWait == Deregistered(old(respWait), op.ids)
    {
      for i := 0 to |op.ids|
        invariant respWait == Deregistered(old(respWait), op.ids[..i])
      {
        respWait := respWait - {op.ids[i]};
      }
      assert op.ids[..|op.ids|] == op.ids;
    }

    /**
     * The table is walked in an arbitrary order.  However many ids an operation is registered
     * under, its channel is closed once, and the operation in flight keeps its channel.
     */
    method CancelRequests(err: Error, inflight: RequestOp?)
      modifies this`respWait, respWait.Values
      ensures respWait == map[]
      ensures forall op <- old(respWait.Values) | op != inflight ::
        op.err == Some(err) && (old(!op.resp.closed) ==> op.resp == old(op.resp).(closed := true))
      ensures forall op <- old(respWait.Values) ::
        op.View() == if op == inflight then old(op.View()) else Cancelled(old(op.View()), err)
    {
      ghost var table := respWait;
      var didClose: set<RequestOp> := if inflight != null then {inflight} else {};
      var ids := respWait.Keys;
      while ids != {}
        invariant ids == respWait.Keys && ids <= table.Keys
        invariant forall id <- ids :: respWait[id] == table[id]
        invariant forall id <- table.Keys - ids :: table[id] in didClose
        invariant inflight != null ==> inflight in didClose
        invariant forall op <- table.Values :: op in didClose && op != inflight ==>
          op.err == Some(err) && op.resp == Close(old(op.resp))
        invariant forall op <- table.Values :: !(op in didClose && op != inflight) ==>
          op.err == old(op.err) && op.resp == old(op.resp)
      {
        var id :| id in ids;
        ids := ids - {id};
        var op := respWait[id];
        assert op in table.Values;
        respWait := respWait - {id};
        if op !in didClose {
          op.err := Some(err);
          op.resp := Close(op.resp);
          didClose := didClose + {op};
        }
      }
    }

    /** Every active client subscription is quit with the error, and the table is emptied. */
    method CancelClientSubscriptions(err: Error)
      modifies this`clientSubs, clientSubs.Values
      ensures clientSubs == map[]
      ensures forall sub <- old(clientSubs.Values) :: sub.View() == Quit(old(sub.View()), Some(err)) && sub.asked == old(sub.asked)
    {
      ghost var table := clientSubs;
      ghost var done: set<ClientSubscription> := {};
      var ids := clientSubs.Keys;
      while ids != {}
        invariant ids == clientSubs.Keys && ids <= table.Keys
        invariant forall id <- ids :: clientSubs[id] == table[id]
        invariant forall id <- table.Keys - ids :: table[id] in done
        invariant forall sub <- table.Values ::
          && sub.View() == (if sub in done then Quit(old(sub.View()), Some(err)) else old(sub.View()))
          && sub.asked == old(sub.asked)
      {
        var id :| id in ids;
        ids := ids - {id};
        var sub := clientSubs[id];
        assert sub in table.Values;
        clientSubs := clientSubs - {id};
        sub.QuitWithError(false, Some(err));
        done := done + {sub};
      }
    }

    method CancelAllRequests(err: Error, inflight: RequestOp?)
      modifies this`respWait, this`clientSubs, respWait.Values, clientSubs.Values
      ensures respWait == map[] && clientSubs == map[]
      ensures forall op <- old(respWait.Values) ::
        op.View() == if op == inflight then old(op.View()) else Cancelled(old(op.View()), err)
      ensures forall sub <- old(clientSubs.Values) :: sub.View() == Quit(old(sub.View()), Some(err)) && sub.asked == old(sub.asked)
    {
      CancelRequests(err, inflight);
      CancelClientSubscriptions(err);
    }

    /** decoded is what unmarshalling the result as a subscription id yields. */
    method HandleResponse(msg: Message, decoded: Result<string, Error>)
      requires msg.IsResponse()
      modifies this`respWait, this`clientSubs, respWait.Values, clientSubs.Values
      modifies set op <- respWait.Values | op.sub != null :: op.sub
      ensures msg.id.value !in old(respWait) ==> respWait == old(respWait) && clientSubs == old(clientSubs)
      ensures old(msg.id.value in respWait) ==>
        var op := old(respWait[msg.id.value]);
        if op.sub == null then
          && (old(!op.resp.closed && |op.resp.buf| < op.resp.cap) ==> op.resp == old(op.resp).(buf := old(op.resp.buf) + [msg]))
          && op.err == old(op.err)
        else
          && (old(!op.resp.closed) ==> op.resp == old(op.resp).(closed := true))
          && match msg.error
             case Some(e) => op.err == Some(Error(e.message, Some(e.code), e.data))
             case None => op.err == if decoded.Failure? then Some(decoded.error) else None
      ensures forall op <- old(respWait.Values) ::
        op.View() == if msg.id.value in old(respWait) && op == old(respWait)[msg.id.value]
          then Responded(old(op.View()), msg, decoded) else old(op.View())
      ensures msg.id.value in old(respWait) ==>
        var op := old(respWait)[msg.id.value];
        && respWait == old(respWait) - {msg.id.value}
        && (if Starts(old(op.View()), msg, decoded)
            then clientSubs == old(clientSubs)[decoded.value := op.sub]
            else clientSubs == old(clientSubs))
      ensures forall op <- old(respWait.Values) | op.sub != null ::
        && op.sub.View() == old(op.sub.View())
        && (if old(msg.id.value in respWait && op.sub == respWait[msg.id.value].sub
                   && Starts(respWait[msg.id.value].View(), msg, decoded))
            then op.sub.starts == old(op.sub.starts) + 1 && op.sub.subid == decoded.value
            else op.sub.starts == old(op.sub.starts) && op.sub.subid == old(op.sub.subid))
    {
      var id := msg.id.value;
      if id !in respWait {
        return;
      }
      var op := respWait[id];
      respWait := respWait - {id};
      if op.sub == null {
        op.resp := Send(op.resp, msg);
        return;
      }
      if msg.error.Some? {
        op.err := Some(AsError(msg.error.value));
      } else {
        op.err := if decoded.Success? then None else Some(decoded.error);
        if decoded.Success? {
          op.sub.subid := decoded.value;
          op.sub.starts := op.sub.starts + 1;
          clientSubs := clientSubs[decoded.value := op.sub];
        }
      }
      op.resp := Close(op.resp);
    }
  }
}
