/**
 * The proposer tables that follow the chain from epoch to epoch (epoch-extractor/main.go).
 * The answers of the beacon node are parameters; None stands for an error.
 */
module Epochs {
  import opened Wrappers
  import SubscriptionIds

  const U64_RANGE := 0x1_0000_0000_0000_0000

  type U64 = n: nat | n < U64_RANGE

  type Bytes = seq<SubscriptionIds.Byte>

  datatype Assignment = Assignment(validatorIndex: U64, publicKey: Bytes, proposerSlots: seq<U64>)

  /** Public keys by validator index, in hex, and validator indices by slot. */
  datatype Tables = Tables(keys: map<U64, string>, slots: map<U64, U64>)

  const EMPTY_TABLES := Tables(map[], map[])

  // ---------- the tables of an epoch ----------

  function WithSlots(slots: map<U64, U64>, listed: seq<U64>, index: U64): map<U64, U64> {
    slots + (map slot | slot in listed :: index)
  }

  function WithAssignment(t: Tables, a: Assignment): Tables {
    Tables(
      if a.proposerSlots == [] then t.keys else t.keys[a.validatorIndex := SubscriptionIds.Hex(a.publicKey)],
      WithSlots(t.slots, a.proposerSlots, a.validatorIndex))
  }

  function TablesOf(assignments: seq<Assignment>): Tables {
    if assignments == [] then EMPTY_TABLES
    else WithAssignment(TablesOf(assignments[..|assignments| - 1]), assignments[|assignments| - 1])
  }

  lemma OneMoreSlot(slots: map<U64, U64>, listed: seq<U64>, slot: U64, index: U64)
    ensures WithSlots(slots, listed + [slot], index) == WithSlots(slots, listed, index)[slot := index]
  {
  }

  /** The inner loop. */
  method ProcessSlots(slots: map<U64, U64>, a: Assignment) returns (r: map<U64, U64>)
    ensures r == WithSlots(slots, a.proposerSlots, a.validatorIndex)
  {
    r := slots;
    for j := 0 to |a.proposerSlots|
      invariant r == WithSlots(slots, a.proposerSlots[..j], a.validatorIndex)
    {
      OneMoreSlot(slots, a.proposerSlots[..j], a.proposerSlots[j], a.validatorIndex);
      assert a.proposerSlots[..j + 1] == a.proposerSlots[..j] + [a.proposerSlots[j]];
      r := r[a.proposerSlots[j] := a.validatorIndex];
    }
    assert a.proposerSlots[..|a.proposerSlots|] == a.proposerSlots;
  }

  method ProcessAssignments(assignments: seq<Assignment>) returns (keys: map<U64, string>, slots: map<U64, U64>)
    ensures Tables(keys, slots) == TablesOf(assignments)
  {
    keys, slots := map[], map[];
    for i := 0 to |assignments|
      invariant Tables(keys, slots) == TablesOf(assignments[..i])
    {
      var a := assignments[i];
      slots := ProcessSlots(slots, a);
      if |a.proposerSlots| > 0 {
        keys := keys[a.validatorIndex := SubscriptionIds.Hex(a.publicKey)];
      }
      assert assignments[..i + 1][..i] == assignments[..i];
    }
    assert assignments[..|assignments|] == assignments;
  }

  /** Every proposer in the slot table has a key. */
  ghost predicate Paired(t: Tables) {
    forall slot <- t.slots :: t.slots[slot] in t.keys
  }

  /** The assignment at i is the last one that lists the slot. */
  predicate LastFor(assignments: seq<Assignment>, slot: U64, i: nat) {
    && i < |assignments| && slot in assignments[i].proposerSlots
    && forall j | i < j < |assignments| :: slot !in assignments[j].proposerSlots
  }

  lemma LastForFront(assignments: seq<Assignment>, slot: U64, i: nat)
    requires assignments != []
    ensures var n := |assignments| - 1;
      LastFor(assignments, slot, i) <==>
      if i == n then slot in assignments[n].proposerSlots
      else slot !in assignments[n].proposerSlots && LastFor(assignments[..n], slot, i)
  {
    var n := |assignments| - 1;
    if LastFor(assignments, slot, i) && i < n {
      assert slot !in assignments[n].proposerSlots;
      assert forall j | i < j < n :: assignments[..n][j] == assignments[j];
    }
  }

  lemma {:induction false} SlotMeaning(assignments: seq<Assignment>, slot: U64)
    ensures slot in TablesOf(assignments).slots <==> exists i :: LastFor(assignments, slot, i)
    ensures forall i: nat | LastFor(assignments, slot, i) ::
      slot in TablesOf(assignments).slots && TablesOf(assignments).slots[slot] == assignments[i].validatorIndex
  {
    if assignments != [] {
      var n := |assignments| - 1;
      var front := assignments[..n];
      SlotMeaning(front, slot);
      forall i: nat ensures LastFor(assignments, slot, i) <==>
        if i == n then slot in assignments[n].proposerSlots
        else slot !in assignments[n].proposerSlots && LastFor(front, slot, i)
      {
        LastForFront(assignments, slot, i);
      }
      if slot in assignments[n].proposerSlots {
        assert LastFor(assignments, slot, n);
      } else if slot in TablesOf(front).slots {
        var i :| LastFor(front, slot, i);
        assert LastFor(assignments, slot, i);
      }
    }
  }

  lemma {:induction false} TablesArePaired(assignments: seq<Assignment>)
    ensures Paired(TablesOf(assignments))
  {
    if assignments != [] {
      TablesArePaired(assignments[..|assignments| - 1]);
    }
  }

  /** A slot belongs to the validator of the last assignment that lists it, and every proposer has a key. */
  lemma TablesMeaning(assignments: seq<Assignment>)
    ensures Paired(TablesOf(assignments))
    ensures forall slot: U64 :: slot in TablesOf(assignments).slots <==> exists i :: LastFor(assignments, slot, i)
    ensures forall slot: U64, i: nat | LastFor(assignments, slot, i) ::
      slot in TablesOf(assignments).slots && TablesOf(assignments).slots[slot] == assignments[i].validatorIndex
  {
    TablesArePaired(assignments);
    forall slot: U64 {
      SlotMeaning(assignments, slot);
    }
  }

  predicate Proposes(a: Assignment, v: U64) {
    a.validatorIndex == v && a.proposerSlots != []
  }

  /** The assignment at i is the last one by which the validator proposes. */
  predicate LastProposal(assignments: seq<Assignment>, v: U64, i: nat) {
    && i < |assignments| && Proposes(assignments[i], v)
    && forall j | i < j < |assignments| :: !Proposes(assignments[j], v)
  }

  lemma LastProposalFront(assignments: seq<Assignment>, v: U64, i: nat)
    requires assignments != []
    ensures var n := |assignments| - 1;
      LastProposal(assignments, v, i) <==>
      if i == n then Proposes(assignments[n], v)
      else !Proposes(assignments[n], v) && LastProposal(assignments[..n], v, i)
  {
    var n := |assignments| - 1;
    if LastProposal(assignments, v, i) && i < n {
      assert !Proposes(assignments[n], v);
      assert forall j | i < j < n :: assignments[..n][j] == assignments[j];
    }
  }

  lemma {:induction false} KeyMeaning(assignments: seq<Assignment>, v: U64)
    ensures v in TablesOf(assignments).keys <==> exists i :: LastProposal(assignments, v, i)
    ensures forall i: nat | LastProposal(assignments, v, i) ::
      v in TablesOf(assignments).keys && TablesOf(assignments).keys[v] == SubscriptionIds.Hex(assignments[i].publicKey)
  {
    if assignments != [] {
      var n := |assignments| - 1;
      var front := assignments[..n];
      KeyMeaning(front, v);
      forall i: nat ensures LastProposal(assignments, v, i) <==>
        if i == n then Proposes(assignments[n], v) else !Proposes(assignments[n], v) && LastProposal(front, v, i)
      {
        LastProposalFront(assignments, v, i);
      }
      if Proposes(assignments[n], v) {
        assert LastProposal(assignments, v, n);
      } else if v in TablesOf(front).keys {
        var i :| LastProposal(front, v, i);
        assert LastProposal(assignments, v, i);
      }
    }
  }

  /** Exactly the validators that propose have a key, that of the last assignment by which they do. */
  lemma KeysMeaning(assignments: seq<Assignment>)
    ensures forall v: U64 :: v in TablesOf(assignments).keys <==> exists i :: LastProposal(assignments, v, i)
    ensures forall v: U64, i: nat | LastProposal(assignments, v, i) ::
      v in TablesOf(assignments).keys && TablesOf(assignments).keys[v] == SubscriptionIds.Hex(assignments[i].publicKey)
  {
    forall v: U64 {
      KeyMeaning(assignments, v);
    }
  }

  // ---------- one tick ----------

  /** What the node answers during a tick. */
  datatype Input = Input(head: Option<U64>, next: Option<seq<Assignment>>, current: Option<seq<Assignment>>)

  datatype State = State(
    slotsPerEpoch: U64,
    curSlot: U64,
    curEpoch: U64,
    prevEpoch: U64,
    firstTime: bool,
    next: Tables,
    current: Tables,
    running: bool)

  function Initial(slotsPerEpoch: U64): State {
    State(slotsPerEpoch, 0, 0, 0, true, EMPTY_TABLES, EMPTY_TABLES, true)
  }

  function DivSlot(slot: U64, slotsPerEpoch: U64): (epoch: U64)
    requires slotsPerEpoch > 0
    ensures epoch * slotsPerEpoch <= slot < (epoch + 1) * slotsPerEpoch
  {
    slot / slotsPerEpoch
  }

  function EpochOf(s: State, slot: U64): U64
    requires s.slotsPerEpoch > 0
  {
    DivSlot(slot, s.slotsPerEpoch)
  }

  /** Adding one to an epoch, in 64 bits. */
  function Increment(epoch: U64): U64 {
    (epoch + 1) % U64_RANGE
  }

  /** The tick fetches new tables. */
  predicate Fires(s: State, input: Input)
    requires s.slotsPerEpoch > 0
  {
    input.head.Some? && (s.firstTime || EpochOf(s, input.head.value) >= Increment(s.prevEpoch))
  }

  function Ticked(s: State, input: Input): (t: State)
    requires s.slotsPerEpoch > 0
    ensures t.slotsPerEpoch == s.slotsPerEpoch
  {
    if !s.running || input.head.None? then s else
    var epoch := EpochOf(s, input.head.value);
    var t := s.(curSlot := input.head.value, curEpoch := epoch);
    if !Fires(s, input) then t
    else if input.next.None? then t.(prevEpoch := epoch, running := false)
    else
      var u := t.(prevEpoch := epoch, current := s.next, next := TablesOf(input.next.value));
      if input.current.None? then u.(running := false)
      else if s.firstTime then u.(firstTime := false, current := TablesOf(input.current.value))
      else u
  }

  /** A tick fetches tables on the first head it gets, on every later epoch, and on any at the largest epoch. */
  lemma FiresExactly(s: State, input: Input)
    requires s.slotsPerEpoch > 0
    ensures Fires(s, input) <==>
      && input.head.Some?
      && (s.firstTime || s.prevEpoch == U64_RANGE - 1 || DivSlot(input.head.value, s.slotsPerEpoch) > s.prevEpoch)
  {
  }

  /**
   * What a tick does to a runner that goes on: without a head nothing; without a fire it notes
   * the head; a fire takes over what the node answers, as far as it does, and the first time
   * the current tables as well.  An error of the node after that ends the runner.
   */
  lemma TickOutcome(s: State, input: Input)
    requires s.slotsPerEpoch > 0 && s.running
    ensures var t := Ticked(s, input);
      && (input.head == None ==> t == s)
      && (input.head.Some? ==> t.curSlot == input.head.value && t.curEpoch == DivSlot(input.head.value, s.slotsPerEpoch))
      && (input.head.Some? && !Fires(s, input) ==> t == s.(curSlot := t.curSlot, curEpoch := t.curEpoch))
      && (Fires(s, input) ==>
          && t.prevEpoch == t.curEpoch
          && (t.running <==> input.next.Some? && input.current.Some?)
          && t.next == (if input.next.Some? then TablesOf(input.next.value) else s.next)
          && t.current == (if input.next == None then s.current
                           else if s.firstTime && input.current.Some? then TablesOf(input.current.value)
                           else s.next)
          && (t.firstTime <==> s.firstTime && !t.running))
  {
  }

  class Client {
    const slotsPerEpoch: U64
    var curSlot: U64
    var curEpoch: U64
    var prevEpoch: U64
    var nextProposerIndexToPubKey: map<U64, string>
    var nextSlotToProposerIndex: map<U64, U64>
    var curProposerIndexToPubKey: map<U64, string>
    var curSlotToProposerIndex: map<U64, U64>
    var firstTime: bool
    var running: bool

    constructor (slotsPerEpoch: U64)
      ensures View() == Initial(slotsPerEpoch)
    {
      this.slotsPerEpoch := slotsPerEpoch;
      curSlot, curEpoch, prevEpoch, firstTime, running := 0, 0, 0, true, true;
      nextProposerIndexToPubKey, nextSlotToProposerIndex := map[], map[];
      curProposerIndexToPubKey, curSlotToProposerIndex := map[], map[];
    }

    ghost function View(): State
      reads this
    {
      State(slotsPerEpoch, curSlot, curEpoch, prevEpoch, firstTime,
            Tables(nextProposerIndexToPubKey, nextSlotToProposerIndex),
            Tables(curProposerIndexToPubKey, curSlotToProposerIndex), running)
    }

    /** The body of the loop for one tick; the loop ends when running is false. */
    method Tick(input: Input)
      requires slotsPerEpoch > 0 && running
      modifies this
      ensures View() == Ticked(old(View()), input)
    {
      if input.head.None? {
        return;
      }
      curSlot := input.head.value;
      curEpoch := DivSlot(curSlot, slotsPerEpoch);
      if firstTime || curEpoch >= Increment(prevEpoch) {
        prevEpoch := curEpoch;
        if input.next.None? {
          running := false;
          return;
        }
        var keys, slots := ProcessAssignments(input.next.value);
        curProposerIndexToPubKey := nextProposerIndexToPubKey;
        curSlotToProposerIndex := nextSlotToProposerIndex;
        nextProposerIndexToPubKey := keys;
        nextSlotToProposerIndex := slots;
        if input.current.None? {
          running := false;
          return;
        }
        if firstTime {
          firstTime := false;
          curProposerIndexToPubKey, curSlotToProposerIndex := ProcessAssignments(input.current.value);
        }
      }
    }
  }

  // ---------- runs ----------

  function Run(s: State, inputs: seq<Input>): (t: State)
    requires s.slotsPerEpoch > 0
    ensures t.slotsPerEpoch == s.slotsPerEpoch
  {
    if inputs == [] then s else Ticked(Run(s, inputs[..|inputs| - 1]), inputs[|inputs| - 1])
  }

  /** In every run both slot tables only name proposers whose key is in the table beside them. */
  lemma {:induction false} TablesPaired(slotsPerEpoch: U64, inputs: seq<Input>)
    requires slotsPerEpoch > 0
    ensures Paired(Run(Initial(slotsPerEpoch), inputs).next) && Paired(Run(Initial(slotsPerEpoch), inputs).current)
  {
    if inputs != [] {
      TablesPaired(slotsPerEpoch, inputs[..|inputs| - 1]);
      var last := inputs[|inputs| - 1];
      if last.next.Some? { TablesMeaning(last.next.value); }
      if last.current.Some? { TablesMeaning(last.current.value); }
    }
  }

  /**
   * After the first time, a tick that fires raises prevEpoch, except when prevEpoch is the
   * largest epoch there is: then adding one wraps, and every tick fires.
   */
  lemma FireRaisesEpoch(s: State, input: Input)
    requires s.slotsPerEpoch > 0 && s.running && !s.firstTime && Fires(s, input)
    ensures Ticked(s, input).prevEpoch > s.prevEpoch <==> s.prevEpoch != U64_RANGE - 1
  {
  }

  /** That epoch can be reached, with one slot to an epoch; from there prevEpoch falls. */
  lemma EpochCanFall()
    ensures exists inputs: seq<Input> ::
              |inputs| == 2 && Run(Initial(1), inputs[..1]).prevEpoch > Run(Initial(1), inputs).prevEpoch
  {
    var high := Input(Some(U64_RANGE - 1), Some([]), Some([]));
    var low := Input(Some(0), Some([]), Some([]));
    var inputs := [high, low];
    assert inputs[..1] == [high] && [high][..0] == [];
    assert Run(Initial(1), [high]) == Ticked(Initial(1), high);
    assert Run(Initial(1), inputs) == Ticked(Run(Initial(1), [high]), low);
  }

  /** The highest epoch of the heads seen. */
  function HighestSeen(slotsPerEpoch: U64, inputs: seq<Input>): (e: U64)
    requires slotsPerEpoch > 0
  {
    if inputs == [] then 0 else
    var before := HighestSeen(slotsPerEpoch, inputs[..|inputs| - 1]);
    var head := inputs[|inputs| - 1].head;
    if head.Some? && DivSlot(head.value, slotsPerEpoch) > before then DivSlot(head.value, slotsPerEpoch) else before
  }

  /** While the runner goes on and the largest epoch is not seen, prevEpoch is the highest epoch seen. */
  lemma {:induction false} PrevEpochIsHighestSeen(slotsPerEpoch: U64, inputs: seq<Input>)
    requires slotsPerEpoch > 0
    requires forall i <- inputs :: i.head.Some? ==> DivSlot(i.head.value, slotsPerEpoch) < U64_RANGE - 1
    requires Run(Initial(slotsPerEpoch), inputs).running
    ensures Run(Initial(slotsPerEpoch), inputs).prevEpoch == HighestSeen(slotsPerEpoch, inputs) < U64_RANGE - 1
    ensures Run(Initial(slotsPerEpoch), inputs).firstTime ==> HighestSeen(slotsPerEpoch, inputs) == 0
  {
    if inputs != [] {
      var front := inputs[..|inputs| - 1];
      assert inputs[|inputs| - 1] in inputs;
      assert forall i <- front :: i in inputs;
      PrevEpochIsHighestSeen(slotsPerEpoch, front);
    }
  }

  /** No tick of the sequence fires, starting from the state. */
  ghost predicate Quiet(s: State, inputs: seq<Input>)
    requires s.slotsPerEpoch > 0
  {
    inputs == [] || (Quiet(s, inputs[..|inputs| - 1]) && !Fires(Run(s, inputs[..|inputs| - 1]), inputs[|inputs| - 1]))
  }

  lemma {:induction false} QuietKeepsTables(s: State, inputs: seq<Input>)
    requires s.slotsPerEpoch > 0 && Quiet(s, inputs)
    ensures var t := Run(s, inputs);
      t.next == s.next && t.prevEpoch == s.prevEpoch && t.firstTime == s.firstTime && t.running == s.running
  {
    if inputs != [] {
      QuietKeepsTables(s, inputs[..|inputs| - 1]);
    }
  }

  /**
   * Between two fires that complete, with any number of quiet ticks in between: the current
   * tables after the second are the next tables of the first, that is the tables made from
   * the assignments the node predicted at the first.  If the second fires one epoch later,
   * they are the tables predicted for its own epoch.
   */
  lemma {:induction false} CurrentIsPredicted(s: State, fire: Input, quiet: seq<Input>, again: Input, predict: nat -> seq<Assignment>)
    requires s.slotsPerEpoch > 0 && s.running && Fires(s, fire) && Ticked(s, fire).running
    requires Quiet(Ticked(s, fire), quiet)
    requires Fires(Run(Ticked(s, fire), quiet), again)
    requires Ticked(Run(Ticked(s, fire), quiet), again).running
    ensures var t := Ticked(Run(Ticked(s, fire), quiet), again);
      && t.current == Ticked(s, fire).next == TablesOf(fire.next.value)
      && Ticked(s, fire).prevEpoch == EpochOf(s, fire.head.value) && t.prevEpoch == EpochOf(s, again.head.value)
      && (fire.next.value == predict(Ticked(s, fire).prevEpoch + 1) && t.prevEpoch == Ticked(s, fire).prevEpoch + 1 ==>
          t.current == TablesOf(predict(t.prevEpoch)))
  {
    QuietKeepsTables(Ticked(s, fire), quiet);
  }
}
