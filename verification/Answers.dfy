/**
 * What a handler answers to incoming messages (handleBatch, handleMsg, handleCallMsg and
 * handleImmediate in simple_rpc/rpc/handler.go).  User methods are arbitrary: the outcome of
 * a call is a parameter.
 */
module Answers {
  import opened Wrappers
  import opened JsonRpc

  /** What is written on the connection: one message, or an array of them. */
  datatype Written = Single(msg: Message) | Array(msgs: seq<Message>)

  /** A call yields an encoded result or an error, among them an unknown method and bad parameters. */
  type Outcome = Result<string, Error>

  /** Subscription notifications and responses are handled at once; the rest goes to a call goroutine. */
  predicate Immediate(msg: Message) {
    (msg.IsNotification() && HasSuffix(msg.methodName, NOTIFICATION_SUFFIX)) || msg.IsResponse()
  }

  function HandleCallMsg(msg: Message, outcome: Outcome): Option<Message> {
    if msg.IsNotification() then None
    else if msg.IsCall() then Some(Response(msg, outcome))
    else if msg.HasValidId() then Some(ErrorResponse(msg, InvalidRequest("invalid request")))
    else Some(ErrorMessage(InvalidRequest("invalid request")))
  }

  // ---------- what the answers have to be ----------

  /** Every message but notifications and responses is owed an answer (sections 4.1, 5 and 6 of JSON-RPC 2.0). */
  predicate Owed(msg: Message) {
    !msg.IsNotification() && !msg.IsResponse()
  }

  /** An answer carries the id of its request, and null if that has none that is valid. */
  function AnswerId(msg: Message): Option<string> {
    if msg.HasValidId() then msg.id else Some(NULL)
  }

  /** The positions of the messages that are owed an answer, in order. */
  function OwedIn(msgs: seq<Message>): (r: seq<nat>)
    ensures forall j :: 0 <= j < |r| ==> r[j] < |msgs| && Owed(msgs[r[j]])
    ensures forall j, k :: 0 <= j < k < |r| ==> r[j] < r[k]
    ensures forall i :: 0 <= i < |msgs| && Owed(msgs[i]) ==> i in r
  {
    if msgs == [] then [] else
    var r := OwedIn(msgs[..|msgs| - 1]);
    if Owed(msgs[|msgs| - 1]) then r + [|msgs| - 1] else r
  }

  /** The message answers the request with the outcome of its call, or says why it is invalid. */
  predicate Answers(answer: Message, msg: Message, outcome: Outcome) {
    && answer.version == "2.0" && answer.id == AnswerId(msg) && answer.methodName == "" && answer.params == None
    && if msg.IsCall() then
         match outcome
         case Success(text) => answer.result == Some(text) && answer.error == None
         case Failure(e) =>
           && answer.result == None
           && answer.error == Some(JsonError(if e.code.Some? then e.code.value else -32000, e.text, e.data))
       else
         answer.result == None && answer.error == Some(JsonError(-32600, "invalid request", None))
  }

  /** The answers are, in order, one for each message that is owed one. */
  ghost predicate AnswerAll(answers: seq<Message>, msgs: seq<Message>, outcomes: seq<Outcome>)
    requires |msgs| == |outcomes|
  {
    var r := OwedIn(msgs);
    && |answers| == |r|
    && (forall j :: 0 <= j < |r| ==> Answers(answers[j], msgs[r[j]], outcomes[r[j]]))
    && (forall j :: 0 <= j < |r| ==> Some(answers[j]) == HandleCallMsg(msgs[r[j]], outcomes[r[j]]))
  }

  lemma Answered(msg: Message, outcome: Outcome)
    requires !Immediate(msg)
    ensures Owed(msg) <==> HandleCallMsg(msg, outcome).Some?
    ensures Owed(msg) ==> Answers(HandleCallMsg(msg, outcome).value, msg, outcome)
  {
  }

  // ---------- the code ----------

  /** The first loop handles what is immediate and keeps the positions of the calls. */
  method HandleImmediates(msgs: seq<Message>) returns (calls: seq<nat>, immediate: seq<Message>)
    ensures immediate == Kept(msgs)
    ensures forall j :: 0 <= j < |calls| ==> calls[j] < |msgs| && !Immediate(msgs[calls[j]])
    ensures forall j, k :: 0 <= j < k < |calls| ==> calls[j] < calls[k]
    ensures forall k :: 0 <= k < |msgs| && !Immediate(msgs[k]) ==> k in calls
  {
    calls, immediate := [], [];
    for i := 0 to |msgs|
      invariant immediate == Kept(msgs[..i])
      invariant forall j :: 0 <= j < |calls| ==> calls[j] < i && !Immediate(msgs[calls[j]])
      invariant forall j, k :: 0 <= j < k < |calls| ==> calls[j] < calls[k]
      invariant forall k :: 0 <= k < i && !Immediate(msgs[k]) ==> k in calls
    {
      assert msgs[..i + 1][..i] == msgs[..i];
      if Immediate(msgs[i]) {
        immediate := immediate + [msgs[i]];
      } else {
        calls := calls + [i];
      }
    }
    assert msgs[..|msgs|] == msgs;
  }

  /** The second loop runs the calls.  The immediate messages are returned in the order they were handled. */
  method HandleBatch(msgs: seq<Message>, outcomes: seq<Outcome>) returns (written: seq<Written>, immediate: seq<Message>)
    requires |msgs| == |outcomes|
    ensures msgs == [] ==>
      written == [Single(Message("2.0", Some("null"), "", None, Some(JsonError(-32600, "empty batch", None)), None))]
    ensures msgs != [] && OwedIn(msgs) == [] ==> written == []
    ensures msgs != [] && OwedIn(msgs) != [] ==>
      |written| == 1 && written[0].Array? && AnswerAll(written[0].msgs, msgs, outcomes)
    ensures |immediate| == |ImmediateIn(msgs)|
    ensures forall j :: 0 <= j < |immediate| ==> immediate[j] == msgs[ImmediateIn(msgs)[j]]
    ensures immediate == Kept(msgs)
  {
    KeptAre(msgs);
    if |msgs| == 0 {
      return [Single(ErrorMessage(InvalidRequest("empty batch")))], [];
    }
    var calls;
    calls, immediate := HandleImmediates(msgs);
    if |calls| == 0 {
      NoneOwed(msgs);
      return [], immediate;
    }
    var answers := RunCalls(msgs, outcomes, calls);
    written := if |answers| > 0 then [Array(answers)] else [];
  }

  /** The immediate messages of a batch, in order. */
  function Kept(msgs: seq<Message>): seq<Message> {
    if msgs == [] then [] else
    Kept(msgs[..|msgs| - 1]) + if Immediate(msgs[|msgs| - 1]) then [msgs[|msgs| - 1]] else []
  }

  /** The positions of the messages that are handled at once, in order. */
  function ImmediateIn(msgs: seq<Message>): (r: seq<nat>)
    ensures forall j :: 0 <= j < |r| ==> r[j] < |msgs| && Immediate(msgs[r[j]])
    ensures forall j, k :: 0 <= j < k < |r| ==> r[j] < r[k]
    ensures forall i :: 0 <= i < |msgs| && Immediate(msgs[i]) ==> i in r
  {
    if msgs == [] then [] else
    var r := ImmediateIn(msgs[..|msgs| - 1]);
    if Immediate(msgs[|msgs| - 1]) then r + [|msgs| - 1] else r
  }

  lemma {:induction false} KeptAre(msgs: seq<Message>)
    ensures |Kept(msgs)| == |ImmediateIn(msgs)|
    ensures forall j :: 0 <= j < |Kept(msgs)| ==> Kept(msgs)[j] == msgs[ImmediateIn(msgs)[j]]
  {
    if msgs != [] {
      KeptAre(msgs[..|msgs| - 1]);
    }
  }

  /** What is handled at once: responses, and messages without an id whose method ends in _subscription. */
  lemma ImmediateExactly(msg: Message)
    ensures Immediate(msg) <==>
      || (msg.HasValidId() && msg.methodName == "" && msg.params == None && !(msg.result == None && msg.error == None))
      || (msg.id == None && exists prefix: string :: msg.methodName == prefix + "_subscription")
  {
    if msg.IsNotification() && HasSuffix(msg.methodName, "_subscription") {
      var prefix := msg.methodName[..|msg.methodName| - |"_subscription"|];
      assert msg.methodName == prefix + "_subscription";
    }
    if prefix: string :| msg.methodName == prefix + "_subscription" {
      assert msg.methodName[|prefix|..] == "_subscription";
    }
  }

  lemma NoneOwed(msgs: seq<Message>)
    requires forall k :: 0 <= k < |msgs| ==> Immediate(msgs[k])
    ensures OwedIn(msgs) == []
  {
  }

  method RunCalls(msgs: seq<Message>, outcomes: seq<Outcome>, calls: seq<nat>) returns (answers: seq<Message>)
    requires |msgs| == |outcomes|
    requires forall j :: 0 <= j < |calls| ==> calls[j] < |msgs| && !Immediate(msgs[calls[j]])
    requires forall j, k :: 0 <= j < k < |calls| ==> calls[j] < calls[k]
    requires forall k :: 0 <= k < |msgs| && !Immediate(msgs[k]) ==> k in calls
    ensures AnswerAll(answers, msgs, outcomes)
  {
    answers := [];
    ghost var owed: seq<nat> := [];
    for c := 0 to |calls|
      invariant |answers| == |owed| <= c
      invariant forall j :: 0 <= j < |owed| ==> owed[j] < |msgs| && Owed(msgs[owed[j]])
      invariant forall j, d :: 0 <= j < |owed| && c <= d < |calls| ==> owed[j] < calls[d]
      invariant forall j, k :: 0 <= j < k < |owed| ==> owed[j] < owed[k]
      invariant forall j :: 0 <= j < c && Owed(msgs[calls[j]]) ==> calls[j] in owed
      invariant forall j :: 0 <= j < |owed| ==> Some(answers[j]) == HandleCallMsg(msgs[owed[j]], outcomes[owed[j]])
    {
      var answer := HandleCallMsg(msgs[calls[c]], outcomes[calls[c]]);
      assert answer.Some? <==> Owed(msgs[calls[c]]);
      if answer.Some? {
        answers := answers + [answer.value];
        owed := owed + [calls[c]];
      }
    }
    forall i | 0 <= i < |msgs| && Owed(msgs[i]) ensures i in owed {
      assert i in calls;
    }
    AnsweredInOrder(owed, answers, msgs, outcomes);
  }

  lemma AnsweredInOrder(owed: seq<nat>, answers: seq<Message>, msgs: seq<Message>, outcomes: seq<Outcome>)
    requires |msgs| == |outcomes| && |answers| == |owed|
    requires forall j :: 0 <= j < |owed| ==> owed[j] < |msgs| && Owed(msgs[owed[j]])
    requires forall j, k :: 0 <= j < k < |owed| ==> owed[j] < owed[k]
    requires forall i :: 0 <= i < |msgs| && Owed(msgs[i]) ==> i in owed
    requires forall j :: 0 <= j < |owed| ==> Some(answers[j]) == HandleCallMsg(msgs[owed[j]], outcomes[owed[j]])
    ensures AnswerAll(answers, msgs, outcomes)
  {
    SameIncreasing(owed, OwedIn(msgs));
    forall j | 0 <= j < |owed| ensures Answers(answers[j], msgs[owed[j]], outcomes[owed[j]]) {
      Answered(msgs[owed[j]], outcomes[owed[j]]);
    }
  }

  /** Increasing sequences with the same elements are equal. */
  lemma {:induction false} SameIncreasing(a: seq<nat>, b: seq<nat>)
    requires forall j, k :: 0 <= j < k < |a| ==> a[j] < a[k]
    requires forall j, k :: 0 <= j < k < |b| ==> b[j] < b[k]
    requires forall x :: x in a <==> x in b
    ensures a == b
    decreases |a| + |b|, |a| < |b|
  {
    if |a| < |b| {
      SameIncreasing(b, a);
    } else if a != [] {
      assert a[0] in b && b[0] in a;
      forall x ensures x in a[1..] <==> x in b[1..] {
        assert x in a[1..] <==> x in a && x != a[0];
        assert x in b[1..] <==> x in b && x != b[0];
      }
      SameIncreasing(a[1..], b[1..]);
    }
  }

  method HandleMsg(msg: Message, outcome: Outcome) returns (written: seq<Written>, immediate: seq<Message>)
    ensures Owed(msg) ==> |written| == 1 && written[0].Single? && Answers(written[0].msg, msg, outcome)
    ensures Owed(msg) ==> Some(written[0].msg) == HandleCallMsg(msg, outcome)
    ensures !Owed(msg) ==> written == []
    ensures immediate == Kept([msg])
  {
    assert Kept([msg]) == if Immediate(msg) then [msg] else [] by {
      assert [msg][..0] == [];
    }
    if Immediate(msg) {
      return [], [msg];
    }
    Answered(msg, outcome);
    var answer := HandleCallMsg(msg, outcome);
    return if answer.Some? then [Single(answer.value)] else [], [];
  }

  // ---------- consequences ----------

  /** A batch of one is answered like the message alone, but for the array around the answer. */
  method OneElementBatch(msg: Message, outcome: Outcome) returns (batch: seq<Written>, single: seq<Written>)
    ensures !Owed(msg) ==> batch == single == []
    ensures Owed(msg) ==> exists answer :: batch == [Array([answer])] && single == [Single(answer)]
  {
    var handled, same;
    batch, handled := HandleBatch([msg], [outcome]);
    single, same := HandleMsg(msg, outcome);
    assert handled == same;
    assert OwedIn([msg]) == if Owed(msg) then [0] else [] by {
      assert [msg][..0] == [];
    }
    if Owed(msg) {
      var answer := single[0].msg;
      assert batch[0].msgs == [answer];
      assert batch == [Array([answer])] && single == [Single(answer)];
    }
  }

  /** The peer takes every answer for a response, never for a request of its own. */
  lemma AnswersAreResponses(msg: Message, outcome: Outcome)
    requires !Immediate(msg) && Owed(msg)
    ensures HandleCallMsg(msg, outcome).value.IsResponse()
    ensures HandleCallMsg(msg, outcome).value.id == AnswerId(msg)
  {
  }
}
