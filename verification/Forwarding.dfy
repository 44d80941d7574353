/**
 * The loop that hands notifications to a subscriber (forward in simple_rpc/rpc/subscription.go).
 * Which case of its select is taken is arbitrary; the loop is followed along any such choice.
 */
module Forwarding {
  import opened Wrappers
  import opened JsonRpc

  const MAX_BUFFER := 20000
  const QUEUE_OVERFLOW := Error("subscription queue overflow", None, None)

  /** A case of the select: quit was closed, a notification came in, or the first buffered value went out. */
  datatype Choice<V> = Quit | In(value: Result<V, Error>) | Out

  /** Why the loop ended. */
  datatype Exit = QuitClosed | Undecodable(err: Error) | Overflow {
    function UnsubscribeServer(): bool {
      !QuitClosed?
    }

    function Err(): Option<Error> {
      match this
      case QuitClosed => None
      case Undecodable(e) => Some(e)
      case Overflow => Some(QUEUE_OVERFLOW)
    }
  }

  /** The values accepted into the buffer, the values sent to the subscriber, the buffer, and the exit. */
  datatype Forwarder<V> = Forwarder(accepted: seq<V>, sent: seq<V>, buffer: seq<V>, exit: Option<Exit>)

  function Started<V>(): Forwarder<V> {
    Forwarder([], [], [], None)
  }

  /** The send case is only part of the select while the buffer is not empty. */
  predicate Offered<V>(f: Forwarder<V>, c: Choice<V>) {
    c.Out? ==> f.buffer != []
  }

  function Chosen<V>(f: Forwarder<V>, c: Choice<V>): Forwarder<V>
    requires Offered(f, c)
  {
    match c
    case Quit => f.(exit := Some(QuitClosed))
    case In(Failure(err)) => f.(exit := Some(Undecodable(err)))
    case In(Success(v)) =>
      if |f.buffer| == MAX_BUFFER then f.(exit := Some(Overflow))
      else f.(accepted := f.accepted + [v], buffer := f.buffer + [v])
    case Out => f.(sent := f.sent + [f.buffer[0]], buffer := f.buffer[1..])
  }

  /** Nothing is lost, duplicated or reordered, and the buffer is bounded. */
  ghost predicate InOrder<V>(f: Forwarder<V>) {
    f.accepted == f.sent + f.buffer && |f.buffer| <= MAX_BUFFER
  }

  lemma ChosenInOrder<V>(f: Forwarder<V>, c: Choice<V>)
    requires InOrder(f) && Offered(f, c)
    ensures InOrder(Chosen(f, c))
  {
  }

  /** The choices, as far as the loop makes them. */
  ghost predicate Possible<V>(f: Forwarder<V>, choices: seq<Choice<V>>)
    decreases choices
  {
    choices == [] || f.exit.Some? || (Offered(f, choices[0]) && Possible(Chosen(f, choices[0]), choices[1..]))
  }

  ghost function Followed<V>(f: Forwarder<V>, choices: seq<Choice<V>>): Forwarder<V>
    requires Possible(f, choices)
    decreases choices
  {
    if choices == [] || f.exit.Some? then f else Followed(Chosen(f, choices[0]), choices[1..])
  }

  /** The loop with its list buffer, along the given choices. */
  method Forward<V>(choices: seq<Choice<V>>) returns (ghost accepted: seq<V>, sent: seq<V>, buffer: seq<V>, exit: Option<Exit>)
    requires Possible(Started<V>(), choices)
    ensures var f := Followed(Started<V>(), choices);
      accepted == f.accepted && sent == f.sent && buffer == f.buffer && exit == f.exit
    ensures |buffer| <= MAX_BUFFER && accepted == sent + buffer
  {
    accepted, sent, buffer, exit := [], [], [], None;
    var n := 0;
    while n < |choices| && exit.None?
      invariant n <= |choices|
      invariant InOrder(Forwarder(accepted, sent, buffer, exit))
      invariant Possible(Forwarder(accepted, sent, buffer, exit), choices[n..])
      invariant Followed(Forwarder(accepted, sent, buffer, exit), choices[n..]) == Followed(Started<V>(), choices)
      decreases |choices| - n
    {
      ChosenInOrder(Forwarder(accepted, sent, buffer, exit), choices[n]);
      assert choices[n..][1..] == choices[n + 1..];
      match choices[n] {
        case Quit =>
          exit := Some(QuitClosed);
        case In(Failure(err)) =>
          exit := Some(Undecodable(err));
        case In(Success(v)) =>
          if |buffer| == MAX_BUFFER {
            exit := Some(Overflow);
          } else {
            accepted := accepted + [v];
            buffer := buffer + [v];
          }
        case Out =>
          sent := sent + [buffer[0]];
          buffer := buffer[1..];
      }
      n := n + 1;
    }
  }

  /** The value a choice brings in, if it is one that decodes. */
  function Taken<V>(c: Choice<V>): seq<V> {
    if c.In? && c.value.Success? then [c.value.value] else []
  }

  /** The decodable values among the choices, in order. */
  function Values<V>(choices: seq<Choice<V>>): seq<V> {
    if choices == [] then [] else Taken(choices[0]) + Values(choices[1..])
  }

  function Sends<V>(choices: seq<Choice<V>>): nat {
    if choices == [] then 0 else (if choices[0].Out? then 1 else 0) + Sends(choices[1..])
  }

  lemma ChosenMoves<V>(f: Forwarder<V>, c: Choice<V>)
    requires f.exit.None? && Offered(f, c)
    ensures Chosen(f, c).accepted == f.accepted + if Chosen(f, c).exit.None? then Taken(c) else []
    ensures |Chosen(f, c).sent| == |f.sent| + if c.Out? then 1 else 0
  {
  }

  lemma Associative<V>(a: seq<V>, b: seq<V>, c: seq<V>)
    ensures a + b + c == a + (b + c)
  {
  }

  lemma SentIsPrefix<V>(f: Forwarder<V>)
    requires InOrder(f)
    ensures f.sent <= f.accepted
  {
  }

  /**
   * The subscriber has received the first of the accepted values, and these are the first of
   * the values that came in.  While the loop runs, all that came in were accepted, and as many
   * were received as there were sends.
   */
  lemma {:induction false} SubscriberSeesPrefix<V>(f: Forwarder<V>, choices: seq<Choice<V>>)
    requires InOrder(f) && f.exit.None? && Possible(f, choices)
    ensures var g := Followed(f, choices);
      && InOrder(g)
      && g.sent <= g.accepted <= f.accepted + Values(choices)
      && (g.exit.None? ==> g.accepted == f.accepted + Values(choices) && |g.sent| == |f.sent| + Sends(choices))
    decreases choices
  {
    if choices == [] {
      SentIsPrefix(f);
    } else {
      var h := Chosen(f, choices[0]);
      ChosenInOrder(f, choices[0]);
      ChosenMoves(f, choices[0]);
      if h.exit.None? {
        SubscriberSeesPrefix(h, choices[1..]);
        Associative(f.accepted, Taken(choices[0]), Values(choices[1..]));
      } else {
        SentIsPrefix(h);
      }
    }
  }

  /** The choice ends the loop in this way; full says whether the buffer is. */
  predicate Ends<V(==)>(c: Choice<V>, full: bool, exit: Exit) {
    match exit
    case QuitClosed => c.Quit?
    case Undecodable(e) => c == In(Failure(e))
    case Overflow => Taken(c) != [] && full
  }

  /** The loop still runs after n choices, and the next one ends it in this way. */
  ghost predicate EndsAt<V>(f: Forwarder<V>, choices: seq<Choice<V>>, n: nat, exit: Exit) {
    && n < |choices|
    && Possible(f, choices[..n]) && Followed(f, choices[..n]).exit.None?
    && Ends(choices[n], |f.accepted| + |Values(choices[..n])| - |f.sent| - Sends(choices[..n]) == MAX_BUFFER, exit)
  }

  lemma FirstEnd<V>(f: Forwarder<V>, choices: seq<Choice<V>>, exit: Exit)
    requires InOrder(f) && f.exit.None? && choices != [] && Offered(f, choices[0])
    ensures EndsAt(f, choices, 0, exit) <==> Chosen(f, choices[0]).exit == Some(exit)
  {
    assert choices[..0] == [];
    assert |f.accepted| == |f.sent| + |f.buffer|;
  }

  lemma LaterEnd<V>(f: Forwarder<V>, choices: seq<Choice<V>>, n: nat, exit: Exit)
    requires InOrder(f) && f.exit.None? && n < |choices| - 1 && Offered(f, choices[0])
    ensures EndsAt(f, choices, n + 1, exit) <==>
      Chosen(f, choices[0]).exit.None? && EndsAt(Chosen(f, choices[0]), choices[1..], n, exit)
  {
    var c, rest, some := choices[0], choices[1..], choices[..n + 1];
    var h := Chosen(f, c);
    assert some[0] == c && some[1..] == rest[..n] && rest[n] == choices[n + 1];
    assert Possible(f, some) == Possible(h, rest[..n]);
    if Possible(f, some) {
      assert Followed(f, some) == Followed(h, rest[..n]);
    }
    if h.exit.None? {
      ChosenMoves(f, c);
      assert |Values(some)| == |Taken(c)| + |Values(rest[..n])|;
    }
  }

  lemma {:induction false} EndOfRun<V>(f: Forwarder<V>, choices: seq<Choice<V>>, exit: Exit)
    requires InOrder(f) && f.exit.None? && Possible(f, choices)
    ensures Followed(f, choices).exit == Some(exit) <==> exists n: nat :: EndsAt(f, choices, n, exit)
    decreases choices
  {
    if choices != [] {
      var h := Chosen(f, choices[0]);
      FirstEnd(f, choices, exit);
      if n: nat :| EndsAt(f, choices, n, exit) {
        if n > 0 {
          LaterEnd(f, choices, n - 1, exit);
        }
      }
      if h.exit.None? {
        ChosenInOrder(f, choices[0]);
        EndOfRun(h, choices[1..], exit);
        if n: nat :| EndsAt(h, choices[1..], n, exit) {
          LaterEnd(f, choices, n, exit);
        }
      }
    }
  }

  /**
   * The loop ends exactly if at some point, while it runs, quit was closed, a value arrives
   * that does not decode, or the values that came in outnumber those sent by the size of a
   * full buffer and another decodable value arrives; and it ends in that way.
   */
  lemma ExitExactly<V>(choices: seq<Choice<V>>, exit: Exit)
    requires Possible(Started<V>(), choices)
    ensures Followed(Started<V>(), choices).exit == Some(exit) <==> exists n: nat :: EndsAt(Started<V>(), choices, n, exit)
    ensures forall n: nat :: EndsAt(Started<V>(), choices, n, exit) <==>
      && n < |choices| && Possible(Started<V>(), choices[..n]) && Followed(Started<V>(), choices[..n]).exit.None?
      && match exit
         case QuitClosed => choices[n] == Quit
         case Undecodable(e) => choices[n] == In(Failure(e))
         case Overflow =>
           choices[n].In? && choices[n].value.Success? && |Values(choices[..n])| - Sends(choices[..n]) == MAX_BUFFER
  {
    EndOfRun(Started<V>(), choices, exit);
  }
}
