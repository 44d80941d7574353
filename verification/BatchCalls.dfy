/** Collecting the responses of a batch call (BatchCallContext in simple_rpc/rpc/client.go). */
module BatchCalls {
  import opened Wrappers
  import opened JsonRpc
  import opened Requests
  import opened Engine
  import opened EngineInvariant
  import opened EngineTables
  import opened EngineTheorems

  const NO_RESULT := Error("no result in JSON-RPC response", None, None)

  /** An element of a batch, reduced to what the caller reads back: the value Result points to and Error. */
  datatype BatchElem<V> = BatchElem(result: V, error: Option<Error>)

  /** What wait returns: a response, or an error. */
  datatype WaitResult = Got(msg: Message) | Ended(err: Error)

  /** json.Unmarshal of a text into a value: the value afterwards, and the error. */
  type Decoder<!V> = (string, V) -> (V, Option<Error>)

  /** The element after its response was stored in it. */
  function Filled<V>(e: BatchElem<V>, msg: Message, decode: Decoder<V>): BatchElem<V> {
    if msg.error.Some? then e.(error := Some(AsError(msg.error.value)))
    else if msg.result.None? || msg.result.value == "" then e.(error := Some(NO_RESULT))
    else var (v, err) := decode(msg.result.value, e.result); BatchElem(v, err)
  }

  /** The element with the given id after the messages arrived in order. */
  function FilledBy<V>(e: BatchElem<V>, id: string, msgs: seq<Message>, decode: Decoder<V>): BatchElem<V> {
    if msgs == [] then e else
    var before := FilledBy(e, id, msgs[..|msgs| - 1], decode);
    var msg := msgs[|msgs| - 1];
    if msg.id == Some(id) then Filled(before, msg, decode) else before
  }

  /** The messages received before the first error, at most n. */
  function Arrived(waits: seq<WaitResult>, n: nat): (msgs: seq<Message>)
    requires n <= |waits|
    ensures |msgs| <= n
    ensures forall i :: 0 <= i < |msgs| ==> waits[i] == Got(msgs[i])
    ensures |msgs| < n ==> waits[|msgs|].Ended?
  {
    if n == 0 then [] else
    var msgs := Arrived(waits, n - 1);
    if |msgs| == n - 1 && waits[n - 1].Got? then msgs + [waits[n - 1].msg] else msgs
  }

  /** Every message that wait returns answers one of the ids; dispatch only sends such messages. */
  ghost predicate Addressed(waits: seq<WaitResult>, ids: seq<string>) {
    forall i :: 0 <= i < |waits| && waits[i].Got? ==> waits[i].msg.id.Some? && waits[i].msg.id.value in ids
  }

  /** What an element holds after the message was stored in it. */
  predicate Holds<V(==)>(before: BatchElem<V>, after: BatchElem<V>, msg: Message, decode: Decoder<V>) {
    match msg.error
    case Some(e) => after.error == Some(Error(e.message, Some(e.code), e.data)) && after.result == before.result
    case None =>
      if msg.result == None || msg.result == Some("") then
        after.error == Some(Error("no result in JSON-RPC response", None, None)) && after.result == before.result
      else
        (after.result, after.error) == decode(msg.result.value, before.result)
  }

  lemma FilledHolds<V>(e: BatchElem<V>, msg: Message, decode: Decoder<V>)
    ensures Holds(e, Filled(e, msg, decode), msg, decode)
  {
  }

  /** The element was filled from the one response with its own id. */
  ghost predicate FilledFromOwn<V>(before: BatchElem<V>, after: BatchElem<V>, id: string, msgs: seq<Message>, decode: Decoder<V>) {
    exists j :: 0 <= j < |msgs| && msgs[j].id == Some(id) && Holds(before, after, msgs[j], decode)
      && forall k :: 0 <= k < |msgs| && k != j ==> msgs[k].id != Some(id)
  }

  /** With one response for each id, every element was filled from its own. */
  ghost predicate OwnResponses<V>(before: seq<BatchElem<V>>, after: seq<BatchElem<V>>, ids: seq<string>, msgs: seq<Message>, decode: Decoder<V>)
    requires |before| == |after| == |ids|
  {
    OneEach(ids, msgs) ==> forall i :: 0 <= i < |ids| ==> FilledFromOwn(before[i], after[i], ids[i], msgs, decode)
  }

  lemma ArrivedMore(waits: seq<WaitResult>, n: nat)
    requires n < |waits| && |Arrived(waits, n)| == n && waits[n].Got?
    ensures Arrived(waits, n + 1) == Arrived(waits, n) + [waits[n].msg]
  {
  }

  lemma FilledMore<V>(e: BatchElem<V>, id: string, msgs: seq<Message>, msg: Message, decode: Decoder<V>)
    ensures FilledBy(e, id, msgs + [msg], decode) ==
            var before := FilledBy(e, id, msgs, decode);
            if msg.id == Some(id) then Filled(before, msg, decode) else before
  {
  }

  /** The element that a response belongs to. */
  method Position(ids: seq<string>, id: string) returns (i: nat)
    requires id in ids
    ensures i < |ids| && ids[i] == id && id !in ids[..i]
  {
    i := 0;
    while ids[i] != id
      invariant 0 <= i < |ids|
      invariant id !in ids[..i]
      decreases |ids| - i
    {
      i := i + 1;
    }
  }

  /**
   * The elements are filled in place, each from the arrived messages that carry its own id,
   * and the call fails exactly if sending failed or wait returned an error.
   */
  method FillElements<V>(b: array<BatchElem<V>>, ids: seq<string>, sendErr: Option<Error>, waits: seq<WaitResult>, decode: Decoder<V>)
    returns (err: Option<Error>)
    requires |ids| == b.Length <= |waits| && Distinct(ids) && Addressed(waits, ids)
    modifies b
    ensures sendErr.Some? ==> err == sendErr && b[..] == old(b[..])
    ensures sendErr.None? ==>
      var msgs := Arrived(waits, b.Length);
      && (forall i :: 0 <= i < b.Length ==> b[i] == FilledBy(old(b[i]), ids[i], msgs, decode))
      && err == if |msgs| == b.Length then None else Some(waits[|msgs|].err)
  {
    err := sendErr;
    var n := 0;
    while n < b.Length && err.None?
      invariant n <= b.Length
      invariant sendErr.Some? ==> err == sendErr && n == 0 && b[..] == old(b[..])
      invariant sendErr.None? && err.None? ==> |Arrived(waits, n)| == n
      invariant sendErr.None? && err.Some? ==> n < b.Length && |Arrived(waits, n)| == n && waits[n] == Ended(err.value)
      invariant forall i :: 0 <= i < b.Length && sendErr.None? ==> b[i] == FilledBy(old(b[i]), ids[i], Arrived(waits, n), decode)
      decreases b.Length - n, err.None?
    {
      match waits[n]
      case Ended(e) =>
        err := Some(e);
      case Got(resp) =>
        var i := Position(ids, resp.id.value);
        ArrivedMore(waits, n);
        forall k | 0 <= k < b.Length {
          FilledMore(old(b[k]), ids[k], Arrived(waits, n), resp, decode);
        }
        b[i] := Filled(b[i], resp, decode);
        n := n + 1;
    }
    if err.Some? && sendErr.None? {
      ArrivedUpTo(waits, n, b.Length);
    }
  }

  /** The same, and with one response for each id every element holds what its own response says. */
  method Collect<V>(b: array<BatchElem<V>>, ids: seq<string>, sendErr: Option<Error>, waits: seq<WaitResult>, decode: Decoder<V>)
    returns (err: Option<Error>)
    requires |ids| == b.Length <= |waits| && Distinct(ids) && Addressed(waits, ids)
    modifies b
    ensures sendErr.Some? ==> err == sendErr && b[..] == old(b[..])
    ensures sendErr.None? ==>
      var msgs := Arrived(waits, b.Length);
      && (forall i :: 0 <= i < b.Length ==> b[i] == FilledBy(old(b[i]), ids[i], msgs, decode))
      && err == if |msgs| == b.Length then None else Some(waits[|msgs|].err)
    ensures sendErr.None? ==> OwnResponses(old(b[..]), b[..], ids, Arrived(waits, b.Length), decode)
  {
    err := FillElements(b, ids, sendErr, waits, decode);
    if sendErr.None? {
      FilledFromOwnResponses(old(b[..]), b[..], ids, Arrived(waits, b.Length), decode);
    }
  }

  /** Nothing arrives after an error. */
  lemma {:induction false} ArrivedUpTo(waits: seq<WaitResult>, n: nat, m: nat)
    requires n < m <= |waits| && |Arrived(waits, n)| == n && waits[n].Ended?
    ensures Arrived(waits, m) == Arrived(waits, n)
  {
  }

  /** One response for each id, in any order. */
  ghost predicate OneEach(ids: seq<string>, msgs: seq<Message>) {
    && |msgs| == |ids|
    && (forall j :: 0 <= j < |msgs| ==> msgs[j].id.Some? && msgs[j].id.value in ids)
    && (forall j, k :: 0 <= j < k < |msgs| ==> msgs[j].id != msgs[k].id)
  }

  ghost function IdsOf(msgs: seq<Message>): (r: set<string>)
    ensures forall id :: id in r <==> exists k :: 0 <= k < |msgs| && msgs[k].id == Some(id)
  {
    if msgs == [] then {} else
    var last := msgs[|msgs| - 1];
    IdsOf(msgs[..|msgs| - 1]) + if last.id.Some? then {last.id.value} else {}
  }

  lemma {:induction false} MessageIds(msgs: seq<Message>)
    requires forall j :: 0 <= j < |msgs| ==> msgs[j].id.Some?
    requires forall j, k :: 0 <= j < k < |msgs| ==> msgs[j].id != msgs[k].id
    ensures |IdsOf(msgs)| == |msgs|
  {
    if msgs != [] {
      var front, last := msgs[..|msgs| - 1], msgs[|msgs| - 1];
      MessageIds(front);
      assert last.id.value !in IdsOf(front);
    }
  }

  /** The position of the response to an id. */
  lemma ResponseFor(ids: seq<string>, msgs: seq<Message>, i: nat) returns (j: nat)
    requires Distinct(ids) && OneEach(ids, msgs) && i < |ids|
    ensures j < |msgs| && msgs[j].id == Some(ids[i])
  {
    var all := set id | id in ids;
    MessageIds(msgs);
    IdSetSize(ids);
    if ids[i] !in IdsOf(msgs) {
      SubsetSize(IdsOf(msgs), all - {ids[i]});
    }
    j :| 0 <= j < |msgs| && msgs[j].id == Some(ids[i]);
  }

  /** Among messages with distinct ids, only the one with the element's id fills it. */
  lemma {:induction false} FilledOnce<V>(e: BatchElem<V>, id: string, msgs: seq<Message>, j: nat, decode: Decoder<V>)
    requires j < |msgs| && msgs[j].id == Some(id)
    requires forall k :: 0 <= k < |msgs| && k != j ==> msgs[k].id != Some(id)
    ensures FilledBy(e, id, msgs, decode) == Filled(e, msgs[j], decode)
  {
    var front := msgs[..|msgs| - 1];
    if j == |msgs| - 1 {
      NotFilled(e, id, front, decode);
    } else {
      FilledOnce(e, id, front, j, decode);
    }
  }

  lemma {:induction false} NotFilled<V>(e: BatchElem<V>, id: string, msgs: seq<Message>, decode: Decoder<V>)
    requires forall k :: 0 <= k < |msgs| ==> msgs[k].id != Some(id)
    ensures FilledBy(e, id, msgs, decode) == e
  {
    if msgs != [] {
      NotFilled(e, id, msgs[..|msgs| - 1], decode);
    }
  }

  /** With one response for each id, every element is filled exactly once, from the response with its own id. */
  lemma FilledById<V>(e: BatchElem<V>, ids: seq<string>, msgs: seq<Message>, i: nat, decode: Decoder<V>) returns (j: nat)
    requires Distinct(ids) && OneEach(ids, msgs) && i < |ids|
    ensures j < |msgs| && msgs[j].id == Some(ids[i])
    ensures forall k :: 0 <= k < |msgs| && k != j ==> msgs[k].id != Some(ids[i])
    ensures FilledBy(e, ids[i], msgs, decode) == Filled(e, msgs[j], decode)
  {
    j := ResponseFor(ids, msgs, i);
    FilledOnce(e, ids[i], msgs, j, decode);
  }

  /** The order in which the responses arrive does not matter. */
  lemma ArrivalOrder<V>(e: BatchElem<V>, ids: seq<string>, msgs: seq<Message>, other: seq<Message>, i: nat, decode: Decoder<V>)
    requires Distinct(ids) && OneEach(ids, msgs) && OneEach(ids, other) && i < |ids|
    requires multiset(msgs) == multiset(other)
    ensures FilledBy(e, ids[i], msgs, decode) == FilledBy(e, ids[i], other, decode)
  {
    var j := FilledById(e, ids, msgs, i, decode);
    var k := FilledById(e, ids, other, i, decode);
    assert other[k] in multiset(msgs);
    var l :| 0 <= l < |msgs| && msgs[l] == other[k];
  }

  lemma FilledFromOwnResponses<V>(before: seq<BatchElem<V>>, after: seq<BatchElem<V>>, ids: seq<string>, msgs: seq<Message>, decode: Decoder<V>)
    requires Distinct(ids) && |before| == |after| == |ids|
    requires forall i :: 0 <= i < |ids| ==> after[i] == FilledBy(before[i], ids[i], msgs, decode)
    ensures OwnResponses(before, after, ids, msgs, decode)
  {
    forall i | 0 <= i < |ids| && OneEach(ids, msgs) ensures FilledFromOwn(before[i], after[i], ids[i], msgs, decode) {
      var j := FilledById(before[i], ids, msgs, i, decode);
      FilledHolds(before[i], msgs[j], decode);
    }
  }

  /**
   * In every run of the connection engine: if the sender of a batch returns without error,
   * the messages it received fill each element exactly once, from the response that carries
   * the element's own id.
   */
  lemma BatchCompleteness<V>(s: State, o: OpId, e: BatchElem<V>, i: nat, decode: Decoder<V>) returns (j: nat)
    requires Reachable(s) && o in s.calls.reqs && s.calls.reqs[o].kind.Batch? && s.calls.callers[o] == Returned(true)
    requires i < |s.calls.reqs[o].ids|
    ensures var ids, msgs := s.calls.reqs[o].ids, s.calls.tracks[o].received;
      && |ids| == s.calls.reqs[o].kind.size
      && j < |msgs| && msgs[j].id == Some(ids[i])
      && (forall k :: 0 <= k < |msgs| && k != j ==> msgs[k].id != Some(ids[i]))
      && Holds(e, FilledBy(e, ids[i], msgs, decode), msgs[j], decode)
  {
    InvReachable(s);
    ReturnedCalls(s, o);
    j := FilledById(e, s.calls.reqs[o].ids, s.calls.tracks[o].received, i, decode);
    FilledHolds(e, s.calls.tracks[o].received[j], decode);
  }
}
