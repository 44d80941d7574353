/**
 * The server side of a subscription (Notifier and Subscription in simple_rpc/rpc/subscription.go).
 * Every method runs under the notifier's mutex.
 */
module Notifiers {
  import opened Wrappers
  import opened Channels
  import opened JsonRpc

  /** What is written on the connection: the answer of a call goroutine, or a notification. */
  datatype Attempt<K> = Reply(proc: nat) | Note(key: K, payload: string)

  datatype NotifierView = NotifierView(sub: Option<string>, buffer: seq<string>, callReturned: bool, activated: bool)

  function NewNotifier(): NotifierView {
    NotifierView(None, [], false, false)
  }

  /** CreateSubscription panics otherwise. */
  predicate CanCreate(v: NotifierView) {
    v.sub.None? && !v.callReturned
  }

  function Created(v: NotifierView, id: string): NotifierView {
    v.(sub := Some(id))
  }

  /** Before activation a notification is kept; afterwards it is written at once. */
  function Notified(v: NotifierView, payload: string): NotifierView {
    if v.activated then v else v.(buffer := v.buffer + [payload])
  }

  function Notes<K>(key: K, payloads: seq<string>): (r: seq<Attempt<K>>)
    ensures |r| == |payloads| && forall i :: 0 <= i < |r| ==> r[i].Note? && r[i].key == key && r[i].payload == payloads[i]
  {
    seq(|payloads|, i requires 0 <= i < |payloads| => Note(key, payloads[i]))
  }

  /** How many writes activate attempts: all buffered payloads, or those up to the first failure. */
  function Attempts(size: nat, outcomes: seq<bool>): (n: nat)
    requires size <= |outcomes|
    ensures n <= size && forall i :: 0 <= i < n - 1 ==> outcomes[i]
    ensures if n < size then n > 0 && !outcomes[n - 1] else true
    ensures size > 0 ==> n > 0
  {
    if size == 0 then 0
    else var before := Attempts(size - 1, outcomes);
         if AllSent(size - 1, outcomes) then size else before
  }

  predicate AllSent(size: nat, outcomes: seq<bool>)
    requires size <= |outcomes|
  {
    forall i :: 0 <= i < size ==> outcomes[i]
  }

  /** The connection, reduced to the writes attempted on it. */
  class Connection {
    var attempts: seq<Attempt<string>>

    constructor ()
      ensures attempts == []
    {
      attempts := [];
    }

    /** ok is the outcome of the write. */
    method WriteJson(a: Attempt<string>, ok: bool) returns (r: bool)
      modifies this
      ensures attempts == old(attempts) + [a] && r == ok
    {
      attempts := attempts + [a];
      r := ok;
    }
  }

  class Subscription {
    const id: string
    var err: Chan<Error>

    constructor (id: string)
      ensures this.id == id && err == Make(1)
    {
      this.id := id;
      err := Make(1);
    }
  }

  datatype NotifyResult = Panicked | Buffered | Written(ok: bool)

  class Notifier {
    const conn: Connection
    var sub: Subscription?
    var buffer: seq<string>
    var callReturned: bool
    var activated: bool

    constructor (conn: Connection)
      ensures View() == NewNotifier() && this.conn == conn
    {
      this.conn := conn;
      sub, buffer, callReturned, activated := null, [], false, false;
    }

    ghost function View(): NotifierView
      reads this
    {
      NotifierView(if sub == null then None else Some(sub.id), buffer, callReturned, activated)
    }

    /** id is what the id generator yields; null stands for the panic. */
    method CreateSubscription(id: string) returns (s: Subscription?)
      modifies this`sub
      ensures s != null <==> old(sub == null && !callReturned)
      ensures s != null ==> s.id == id && sub == s
      ensures s != null ==> fresh(s) && sub == s && s.err == Make(1) && View() == Created(old(View()), id)
      ensures s == null ==> sub == old(sub)
    {
      if sub != null || callReturned {
        return null;
      }
      sub := new Subscription(id);
      return sub;
    }

    method Notify(id: string, payload: string, ok: bool) returns (r: NotifyResult)
      modifies this`buffer, conn
      ensures r.Panicked? <==> old(View()).sub != Some(id)
      ensures r.Panicked? ==> View() == old(View()) && conn.attempts == old(conn.attempts)
      ensures r.Panicked? <==> sub == null || sub.id != id
      ensures buffer == old(buffer) + if r.Buffered? then [payload] else []
      ensures !r.Panicked? ==> (r.Buffered? <==> !activated)
      ensures !r.Panicked? ==>
        && View() == Notified(old(View()), payload)
        && conn.attempts == old(conn.attempts) + (if activated then [Note(id, payload)] else [])
        && r == if activated then Written(ok) else Buffered
    {
      if sub == null || sub.id != id {
        return Panicked;
      }
      if activated {
        var sent := conn.WriteJson(Note(id, payload), ok);
        return Written(sent);
      }
      buffer := buffer + [payload];
      return Buffered;
    }

    method TakeSubscription() returns (s: Subscription?)
      modifies this`callReturned
      ensures s == sub && View() == old(View()).(callReturned := true)
    {
      callReturned := true;
      return sub;
    }

    /** The buffered payloads are written in order up to the first failure; the buffer is kept. */
    method Activate(outcomes: seq<bool>) returns (ok: bool)
      requires |buffer| <= |outcomes| && (sub == null ==> buffer == [])
      modifies this`activated, conn
      ensures ok <==> forall i :: 0 <= i < |buffer| ==> outcomes[i]
      ensures ok == AllSent(|buffer|, outcomes)
      ensures View() == old(View()).(activated := old(activated) || ok)
      ensures conn.attempts == old(conn.attempts) +
        if sub == null then [] else Notes(sub.id, buffer[..Attempts(|buffer|, outcomes)])
    {
      var i := 0;
      while i < |buffer|
        invariant i <= |buffer|
        invariant AllSent(i, outcomes) && Attempts(i, outcomes) == i
        invariant conn.attempts == old(conn.attempts) + if sub == null then [] else Notes(sub.id, buffer[..i])
        invariant activated == old(activated)
      {
        var sent := conn.WriteJson(Note(sub.id, buffer[i]), outcomes[i]);
        assert Notes(sub.id, buffer[..i + 1]) == Notes(sub.id, buffer[..i]) + [Note(sub.id, buffer[i])];
        if !sent {
          AttemptsUpTo(i + 1, |buffer|, outcomes);
          return false;
        }
        i := i + 1;
      }
      activated := true;
      return true;
    }
  }

  lemma {:induction false} AttemptsUpTo(i: nat, size: nat, outcomes: seq<bool>)
    requires 0 < i <= size <= |outcomes| && Attempts(i, outcomes) == i && !outcomes[i - 1]
    ensures Attempts(size, outcomes) == i && !AllSent(size, outcomes)
  {
    if i < size {
      AttemptsUpTo(i, size - 1, outcomes);
    }
  }

  /** The table after the subscriptions that the notifiers created were added, in order. */
  function Added(table: map<string, Subscription>, subs: seq<Subscription?>): map<string, Subscription> {
    if subs == [] then table else
    var sub := subs[|subs| - 1];
    var before := Added(table, subs[..|subs| - 1]);
    if sub == null then before else before[sub.id := sub]
  }

  /** The subscription at i is the last one with the id. */
  predicate LastSub(subs: seq<Subscription?>, i: nat, id: string) {
    && i < |subs| && subs[i] != null && subs[i].id == id
    && forall j :: i < j < |subs| && subs[j] != null ==> subs[j].id != id
  }

  lemma LastSubFront(subs: seq<Subscription?>, i: nat, id: string)
    requires subs != []
    ensures var n := |subs| - 1; var ends := subs[n] != null && subs[n].id == id;
      LastSub(subs, i, id) <==> if i == n then ends else !ends && LastSub(subs[..n], i, id)
  {
    var n := |subs| - 1;
    if LastSub(subs, i, id) && i < n {
      assert forall j :: i < j < n ==> subs[..n][j] == subs[j];
    }
  }

  /** An id is listed with the last subscription that has it, and else as before. */
  lemma {:induction false} AddedMeaning(table: map<string, Subscription>, subs: seq<Subscription?>, id: string)
    ensures id in Added(table, subs) <==> id in table || exists i :: LastSub(subs, i, id)
    ensures forall i: nat | LastSub(subs, i, id) :: id in Added(table, subs) && Added(table, subs)[id] == subs[i]
    ensures id in table && (forall i :: !LastSub(subs, i, id)) ==> Added(table, subs)[id] == table[id]
  {
    if subs != [] {
      var n := |subs| - 1;
      AddedMeaning(table, subs[..n], id);
      forall i: nat ensures LastSub(subs, i, id) <==>
        if i == n then subs[n] != null && subs[n].id == id else !(subs[n] != null && subs[n].id == id) && LastSub(subs[..n], i, id)
      {
        LastSubFront(subs, i, id);
      }
      if subs[n] != null && subs[n].id == id {
        assert LastSub(subs, n, id);
      } else if i: nat :| LastSub(subs[..n], i, id) {
        assert LastSub(subs, i, id);
      }
    }
  }

  /** The later table lists the last of the subscriptions with each id, and else what the earlier one lists. */
  ghost predicate ListsLast(table: map<string, Subscription>, subs: seq<Subscription?>, later: map<string, Subscription>) {
    && (forall id :: id in later <==> id in table || exists i :: LastSub(subs, i, id))
    && (forall id, i: nat | LastSub(subs, i, id) :: id in later && later[id] == subs[i])
    && (forall id <- table | (forall i :: !LastSub(subs, i, id)) :: id in later && later[id] == table[id])
  }

  lemma AddedListsLast(table: map<string, Subscription>, subs: seq<Subscription?>)
    ensures ListsLast(table, subs, Added(table, subs))
  {
    forall id {
      AddedMeaning(table, subs, id);
    }
  }

  ghost function Subs(nn: seq<Notifier>): seq<Subscription?>
    reads nn
  {
    seq(|nn|, i requires 0 <= i < |nn| reads nn => nn[i].sub)
  }

  /** The registered server subscriptions of a handler, under subLock. */
  class SubscriptionTable {
    var serverSubs: map<string, Subscription>

    ghost predicate Valid()
      reads this
    {
      forall id <- serverSubs :: serverSubs[id].id == id
    }

    constructor ()
      ensures Valid() && serverSubs == map[]
    {
      serverSubs := map[];
    }

    method AddSubscriptions(nn: seq<Notifier>)
      requires Valid()
      modifies this, nn
      ensures Valid() && serverSubs == Added(old(serverSubs), old(Subs(nn)))
      ensures ListsLast(old(serverSubs), old(Subs(nn)), serverSubs)
      ensures forall n <- nn :: n.View() == old(n.View()).(callReturned := true)
    {
      ghost var subs := Subs(nn);
      for i := 0 to |nn|
        invariant Valid() && serverSubs == Added(old(serverSubs), subs[..i])
        invariant forall n <- nn :: n.sub == old(n.sub) && n.buffer == old(n.buffer) && n.activated == old(n.activated)
        invariant forall j :: 0 <= j < i ==> nn[j].callReturned
      {
        var sub := nn[i].TakeSubscription();
        assert subs[..i + 1] == subs[..i] + [sub];
        if sub != null {
          serverSubs := serverSubs[sub.id := sub];
        }
      }
      assert subs[..|nn|] == subs;
      AddedListsLast(old(serverSubs), subs);
    }

    method Unsubscribe(id: string) returns (found: bool)
      requires Valid()
      modifies this, serverSubs.Values
      ensures Valid() && found == (id in old(serverSubs)) && serverSubs == old(serverSubs) - {id}
      ensures forall s <- old(serverSubs.Values) :: s.err == if s.id == id then Close(old(s.err)) else old(s.err)
    {
      if id !in serverSubs {
        return false;
      }
      serverSubs[id].err := Close(serverSubs[id].err);
      serverSubs := serverSubs - {id};
      return true;
    }

    /** In whatever order the table is walked, each subscription gets the error once and is closed once. */
    method CancelServerSubscriptions(err: Error)
      requires Valid()
      modifies this, serverSubs.Values
      ensures Valid() && serverSubs == map[]
      ensures forall s <- old(serverSubs.Values) :: s.err == Close(Send(old(s.err), err))
    {
      ghost var table := serverSubs;
      var ids := serverSubs.Keys;
      while ids != {}
        invariant ids == serverSubs.Keys && ids <= table.Keys
        invariant forall id <- ids :: serverSubs[id] == table[id]
        invariant forall id <- ids :: table[id].err == old(table[id].err)
        invariant forall id <- table.Keys - ids :: table[id].err == Close(Send(old(table[id].err), err))
      {
        var id :| id in ids;
        ids := ids - {id};
        var s := serverSubs[id];
        s.err := Send(s.err, err);
        s.err := Close(s.err);
        serverSubs := serverSubs - {id};
      }
    }
  }
}
