/**
 * The cache of decoded public keys (bls/herumi/public_key.go).
 *
 * Keys are mutable objects.  The cache may lose entries at any time, and need not keep what
 * is set; what it returns for a key is the last object set for it.  Decoding and addition of
 * curve points are arbitrary functions.
 */
module PublicKeys {
  import opened Wrappers

  type Bytes = seq<bv8>

  const KEY_LENGTH := 48

  /** What the cache does at a lookup: the entries it has lost by then, and whether it keeps what is set. */
  datatype Whim = Whim(lost: set<Bytes>, keep: bool)

  datatype KeyError = BadLength | Undecodable | Infinite

  /** A point of the foreign library; Add changes it in place. */
  class Point<G> {
    var v: G

    constructor (v: G)
      ensures this.v == v
    {
      this.v := v;
    }
  }

  /** p is null in the result of an empty aggregation only. */
  class PublicKey<G> {
    var p: Point?<G>

    constructor (p: Point?<G>)
      ensures this.p == p
    {
      this.p := p;
    }

    method Copy() returns (c: PublicKey<G>)
      requires p != null
      ensures fresh(c) && c.p != null && fresh(c.p) && c.p.v == p.v
    {
      var np := new Point(p.v);
      c := new PublicKey(np);
    }

    method Aggregate(p2: PublicKey<G>, add: (G, G) -> G)
      requires p != null && p2.p != null
      modifies p
      ensures p.v == add(old(p.v), old(p2.p.v))
    {
      p.v := add(p.v, p2.p.v);
    }
  }

  class KeyCache<G(==)> {
    const decode: Bytes -> Option<G>
    const add: (G, G) -> G
    const zero: G
    var entries: map<Bytes, PublicKey<G>>
    ghost var Repr: set<object>

    constructor (decode: Bytes -> Option<G>, add: (G, G) -> G, zero: G)
      ensures Valid() && Repr == {}
      ensures this.decode == decode && this.add == add && this.zero == zero
    {
      this.decode, this.add, this.zero := decode, add, zero;
      entries, Repr := map[], {};
    }

    /** Every cached object still is the decoding of its key, is not infinite, and belongs to the cache. */
    ghost predicate Valid()
      reads this, Repr
    {
      && this !in Repr
      && forall k <- entries :: var e := entries[k];
        && e in Repr && e.p != null && e.p in Repr
        && |k| == KEY_LENGTH && decode(k) == Some(e.p.v) && e.p.v != zero
    }

    /** What a lookup without the cache yields. */
    ghost function Uncached(key: Bytes): Result<G, KeyError> {
      if |key| != KEY_LENGTH then Failure(BadLength)
      else if decode(key).None? then Failure(Undecodable)
      else if decode(key).value == zero then Failure(Infinite)
      else Success(decode(key).value)
    }

    /** The sum of the decodings from left to right, or the first error. */
    ghost function Sum(pubs: seq<Bytes>): Result<G, KeyError>
      requires pubs != []
    {
      if |pubs| == 1 then Uncached(pubs[0]) else
      match Sum(pubs[..|pubs| - 1])
      case Failure(e) => Failure(e)
      case Success(g) =>
        match Uncached(pubs[|pubs| - 1])
        case Failure(e) => Failure(e)
        case Success(h) => Success(add(g, h))
    }

    /** Why a key is rejected. */
    ghost predicate Rejects(key: Bytes, e: KeyError) {
      match e
      case BadLength => |key| != KEY_LENGTH
      case Undecodable => |key| == KEY_LENGTH && decode(key) == None
      case Infinite => |key| == KEY_LENGTH && decode(key) == Some(zero)
    }

    ghost predicate Usable(key: Bytes) {
      |key| == KEY_LENGTH && decode(key).Some? && decode(key).value != zero
    }

    /** The key at i is the first that is rejected, for this reason. */
    ghost predicate FirstRejected(pubs: seq<Bytes>, i: nat, e: KeyError) {
      i < |pubs| && Rejects(pubs[i], e) && forall j :: 0 <= j < i ==> Usable(pubs[j])
    }

    /** The points of the keys added up from left to right; a key that does not decode counts as zero. */
    ghost function Total(pubs: seq<Bytes>): G
      requires pubs != []
    {
      var last := decode(pubs[|pubs| - 1]);
      var g := if last.Some? then last.value else zero;
      if |pubs| == 1 then g else add(Total(pubs[..|pubs| - 1]), g)
    }

    /** The sum exists exactly if no key is rejected, and else is the error of the first that is. */
    lemma {:induction false} SumMeaning(pubs: seq<Bytes>)
      requires pubs != []
      ensures Sum(pubs).Success? <==> forall i :: 0 <= i < |pubs| ==> Usable(pubs[i])
      ensures Sum(pubs).Success? ==> Sum(pubs).value == Total(pubs)
      ensures Sum(pubs).Failure? ==> exists i: nat :: FirstRejected(pubs, i, Sum(pubs).error)
    {
      var n := |pubs| - 1;
      var front := pubs[..n];
      if n == 0 {
        assert Sum(pubs).Failure? ==> FirstRejected(pubs, 0, Sum(pubs).error);
      } else {
        SumMeaning(front);
        if Sum(front).Failure? {
          var i: nat :| FirstRejected(front, i, Sum(front).error);
          assert FirstRejected(pubs, i, Sum(pubs).error);
        } else {
          assert forall j :: 0 <= j < n ==> Usable(front[j]) && Usable(pubs[j]);
          assert Sum(pubs).Failure? ==> FirstRejected(pubs, n, Sum(pubs).error);
        }
      }
    }

    /** A result with the expected value, made of objects that are not the cache's. */
    ghost predicate Yields(key: PublicKey?<G>, err: Option<KeyError>, expected: Result<G, KeyError>)
      reads this, key, if key != null then {key.p} else {}
    {
      match expected
      case Failure(e) => key == null && err == Some(e)
      case Success(g) => key != null && err == None && key.p != null && key.p.v == g && key !in Repr && key.p !in Repr
    }

    /** Entries leave the cache on its own account. */
    method Lose(keys: set<Bytes>)
      requires Valid()
      modifies this`entries
      ensures Valid() && entries == old(entries) - keys
    {
      entries := entries - keys;
    }

    /** The cache keeps a key that is not shared with anyone. */
    method Keep(pubKey: Bytes, copy: PublicKey<G>)
      requires Valid() && copy.p != null
      requires |pubKey| == KEY_LENGTH && decode(pubKey) == Some(copy.p.v) && copy.p.v != zero
      modifies this`entries, this`Repr
      ensures Valid() && entries == old(entries)[pubKey := copy] && Repr == old(Repr) + {copy, copy.p}
    {
      entries := entries[pubKey := copy];
      Repr := Repr + {copy, copy.p};
    }

    method PublicKeyFromBytes(pubKey: Bytes, whim: Whim) returns (key: PublicKey?<G>, err: Option<KeyError>)
      requires Valid()
      modifies this`entries, this`Repr
      ensures Valid() && fresh(Repr - old(Repr)) && old(Repr) <= Repr
      ensures Yields(key, err, Uncached(pubKey))
      ensures key != null ==> fresh(key) && fresh(key.p)
      ensures key != null <==> err == None
      ensures key != null ==> |pubKey| == KEY_LENGTH && decode(pubKey) == Some(key.p.v) && key.p.v != zero
      ensures err == Some(BadLength) <==> |pubKey| != KEY_LENGTH
      ensures err == Some(Undecodable) <==> |pubKey| == KEY_LENGTH && decode(pubKey) == None
      ensures err == Some(Infinite) <==> |pubKey| == KEY_LENGTH && decode(pubKey) == Some(zero)
    {
      Lose(whim.lost);
      if |pubKey| != KEY_LENGTH {
        return null, Some(BadLength);
      }
      if pubKey in entries {
        key := entries[pubKey].Copy();
        return key, None;
      }
      var v := decode(pubKey);
      if v.None? {
        return null, Some(Undecodable);
      }
      var p := new Point(v.value);
      key := new PublicKey(p);
      if key.p.v == zero {
        return null, Some(Infinite);
      }
      var copy := key.Copy();
      if whim.keep {
        Keep(pubKey, copy);
      }
      return key, None;
    }

    /** One turn of the loop in AggregatePublicKeys: the next key is looked up and added in place. */
    method AddNext(key: PublicKey<G>, pubKey: Bytes, whim: Whim) returns (err: Option<KeyError>)
      requires Valid() && key !in Repr && key.p != null && key.p !in Repr
      modifies this`entries, this`Repr, key.p
      ensures Valid() && fresh(Repr - old(Repr)) && old(Repr) <= Repr
      ensures key.p != null && key !in Repr && key.p !in Repr
      ensures match Uncached(pubKey)
              case Failure(e) => err == Some(e)
              case Success(g) => err == None && key.p.v == add(old(key.p.v), g)
    {
      var k, e := PublicKeyFromBytes(pubKey, whim);
      if e.Some? {
        return e;
      }
      key.Aggregate(k, add);
      return None;
    }

    /** The first key is looked up and the others are added to it, until one is rejected. */
    method AddUp(pubs: seq<Bytes>, whims: seq<Whim>) returns (key: PublicKey?<G>, err: Option<KeyError>)
      requires Valid() && |whims| == |pubs| && pubs != []
      modifies this`entries, this`Repr
      ensures Valid() && fresh(Repr - old(Repr)) && old(Repr) <= Repr
      ensures Yields(key, err, Sum(pubs))
      ensures key != null ==> fresh(key) && (key.p != null ==> fresh(key.p))
    {
      key, err := PublicKeyFromBytes(pubs[0], whims[0]);
      if err.Some? {
        SumFails(pubs, 1);
        return null, err;
      }
      var i := 1;
      while i < |pubs|
        invariant 1 <= i <= |pubs|
        invariant Valid() && fresh(Repr - old(Repr)) && old(Repr) <= Repr
        invariant Yields(key, None, Sum(pubs[..i])) && key != null && fresh(key) && fresh(key.p)
      {
        err := AddNext(key, pubs[i], whims[i]);
        SumMore(pubs, i);
        if err.Some? {
          SumFails(pubs, i + 1);
          return null, err;
        }
        i := i + 1;
      }
      assert pubs[..|pubs|] == pubs;
      err := None;
    }

    method AggregatePublicKeys(pubs: seq<Bytes>, whims: seq<Whim>) returns (key: PublicKey?<G>, err: Option<KeyError>)
      requires Valid() && |whims| == |pubs|
      modifies this`entries, this`Repr
      ensures Valid() && fresh(Repr - old(Repr)) && old(Repr) <= Repr
      ensures pubs == [] ==> key != null && key.p == null && err == None && key !in Repr
      ensures pubs != [] ==> Yields(key, err, Sum(pubs))
      ensures key != null ==> fresh(key) && (key.p != null ==> fresh(key.p))
      ensures key != null <==> err == None
      ensures key != null <==> forall i :: 0 <= i < |pubs| ==> Usable(pubs[i])
      ensures key != null && pubs != [] ==> key.p != null && key.p.v == Total(pubs)
      ensures err.Some? ==> exists i: nat :: FirstRejected(pubs, i, err.value)
    {
      if |pubs| == 0 {
        key := new PublicKey(null);
        return key, None;
      }
      SumMeaning(pubs);
      key, err := AddUp(pubs, whims);
    }

    lemma SumMore(pubs: seq<Bytes>, i: nat)
      requires 0 < i < |pubs|
      ensures Sum(pubs[..i + 1]) ==
              if Sum(pubs[..i]).Failure? then Sum(pubs[..i])
              else if Uncached(pubs[i]).Failure? then Uncached(pubs[i])
              else Success(add(Sum(pubs[..i]).value, Uncached(pubs[i]).value))
    {
      assert pubs[..i + 1][..i] == pubs[..i];
    }

    /** Nothing is added after the first error. */
    lemma {:induction false} SumFails(pubs: seq<Bytes>, n: nat)
      requires 0 < n <= |pubs| && Sum(pubs[..n]).Failure?
      ensures Sum(pubs) == Sum(pubs[..n])
      decreases |pubs| - n
    {
      if n < |pubs| {
        SumMore(pubs, n);
        SumFails(pubs, n + 1);
      } else {
        assert pubs[..n] == pubs;
      }
    }
  }

  // ---------- whole runs ----------

  /** What a client does; i and j index the keys it holds. */
  datatype Action =
    | Lookup(key: Bytes, whim: Whim)
    | AggregateAll(pubs: seq<Bytes>, whims: seq<Whim>)
    | Lose(keys: set<Bytes>)
    | Accumulate(i: nat, j: nat)

  datatype Outcome<G> = Key(g: G) | NoPoint | Rejected(err: KeyError)

  ghost function AsOutcome<G>(r: Result<G, KeyError>): Outcome<G> {
    match r
    case Success(g) => Key(g)
    case Failure(e) => Rejected(e)
  }

  /** The outcome of an action without a cache, if it has one. */
  ghost function OutcomesOf<G>(cache: KeyCache<G>, action: Action): seq<Outcome<G>> {
    match action
    case Lookup(key, _) => [AsOutcome(cache.Uncached(key))]
    case AggregateAll(pubs, _) => [if pubs == [] then NoPoint else AsOutcome(cache.Sum(pubs))]
    case _ => []
  }

  /** The outcomes without a cache, of the actions that have one. */
  ghost function Expected<G>(cache: KeyCache<G>, actions: seq<Action>): seq<Outcome<G>> {
    if actions == [] then [] else
    Expected(cache, actions[..|actions| - 1]) + OutcomesOf(cache, actions[|actions| - 1])
  }

  /** The key and its point are not objects of the cache. */
  ghost predicate Apart<G>(cache: KeyCache<G>, key: PublicKey<G>)
    reads cache, key
  {
    key !in cache.Repr && (key.p != null ==> key.p !in cache.Repr)
  }

  /**
   * One action: its outcome if it has one, and the key it gives if it succeeds.  Accumulating
   * adds one of the keys that are held to another in place, if both have a point.
   */
  method Act<G(==)>(cache: KeyCache<G>, action: Action, held: seq<PublicKey<G>>)
    returns (key: PublicKey?<G>, outcomes: seq<Outcome<G>>)
    requires cache.Valid() && (action.AggregateAll? ==> |action.whims| == |action.pubs|)
    requires forall k :: 0 <= k < |held| ==> Apart(cache, held[k])
    modifies cache`entries, cache`Repr
    modifies if action.Accumulate? && action.i < |held| && held[action.i].p != null then {held[action.i].p} else {}
    ensures cache.Valid() && fresh(cache.Repr - old(cache.Repr)) && old(cache.Repr) <= cache.Repr
    ensures outcomes == OutcomesOf(cache, action)
    ensures key != null ==> fresh(key) && Apart(cache, key) && (key.p != null ==> fresh(key.p))
    ensures forall k :: 0 <= k < |held| ==> held[k].p == old(held[k].p) && Apart(cache, held[k])
  {
    var err := None;
    key, outcomes := null, [];
    match action
    case Lookup(pubKey, whim) =>
      key, err := cache.PublicKeyFromBytes(pubKey, whim);
      outcomes := [if key == null then Rejected(err.value) else Key(key.p.v)];
    case AggregateAll(pubs, whims) =>
      key, err := cache.AggregatePublicKeys(pubs, whims);
      outcomes := [if key == null then Rejected(err.value) else if key.p == null then NoPoint else Key(key.p.v)];
    case Lose(keys) =>
      cache.Lose(keys);
    case Accumulate(i, j) =>
      if i < |held| && j < |held| && held[i].p != null && held[j].p != null {
        held[i].Aggregate(held[j], cache.add);
      }
  }

  /**
   * A client that looks up keys, aggregates them, changes the keys it was given in place, and
   * sees entries evicted, in any order, gets the outcomes it would get without the cache.
   */
  method Session<G(==)>(cache: KeyCache<G>, actions: seq<Action>) returns (outcomes: seq<Outcome<G>>)
    requires cache.Valid()
    requires forall a <- actions :: a.AggregateAll? ==> |a.whims| == |a.pubs|
    modifies cache`entries, cache`Repr
    ensures cache.Valid() && outcomes == Expected(cache, actions)
  {
    outcomes := [];
    var held: seq<PublicKey<G>> := [];
    for n := 0 to |actions|
      invariant cache.Valid() && fresh(cache.Repr - old(cache.Repr)) && old(cache.Repr) <= cache.Repr
      invariant outcomes == Expected(cache, actions[..n])
      invariant forall i :: 0 <= i < |held| ==> fresh(held[i]) && Apart(cache, held[i])
      invariant forall i :: 0 <= i < |held| && held[i].p != null ==> fresh(held[i].p)
    {
      assert actions[..n + 1][..n] == actions[..n];
      var key, some := Act(cache, actions[n], held);
      outcomes := outcomes + some;
      if key != null {
        held := held + [key];
      }
    }
    assert actions[..|actions|] == actions;
  }
}
