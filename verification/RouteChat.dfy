/**
 * The chat log of the route guide server (route_guide/server/server.go): streams that
 * interleave freely over one map of notes under a mutex.
 */
module RouteChat {
  import opened Wrappers
  import Decimal

  type Int32 = n: int | -0x8000_0000 <= n < 0x8000_0000

  datatype Point = Point(latitude: Int32, longitude: Int32)

  /** A client may leave the location out. */
  datatype Note = Note(location: Option<Point>, message: string)

  // ---------- keys ----------

  function Serialize(p: Point): string {
    Decimal.Signed(p.latitude) + " " + Decimal.Signed(p.longitude)
  }

  /** The first blank of a key ends the latitude, so the key determines the point, signs included. */
  lemma SerializeInjective(p: Point, q: Point)
    ensures Serialize(p) == Serialize(q) <==> p == q
  {
    if Serialize(p) == Serialize(q) {
      var a, b := Decimal.Signed(p.latitude), Decimal.Signed(q.latitude);
      assert Serialize(p)[|a|] == ' ' && Serialize(q)[|b|] == ' ';
      assert |a| == |b|;
      assert a == Serialize(p)[..|a|] == Serialize(q)[..|b|] == b;
      assert Decimal.Signed(p.longitude) == Serialize(p)[|a| + 1..] == Decimal.Signed(q.longitude);
      Decimal.SignedValue(p.latitude);
      Decimal.SignedValue(q.latitude);
      Decimal.SignedValue(p.longitude);
      Decimal.SignedValue(q.longitude);
    }
  }

  // ---------- the code that holds the mutex, and the code that replies ----------

  function Lookup(notes: map<string, seq<Note>>, key: string): seq<Note> {
    if key in notes then notes[key] else []
  }

  function Recorded(notes: map<string, seq<Note>>, key: string, note: Note): map<string, seq<Note>> {
    notes[key := Lookup(notes, key) + [note]]
  }

  class Server {
    var routeNotes: map<string, seq<Note>>

    constructor ()
      ensures routeNotes == map[]
    {
      routeNotes := map[];
    }

    /** The section under the mutex: the note is appended, and the list copied. */
    method Record(at: Point, note: Note) returns (rn: array<Note>)
      modifies this
      ensures fresh(rn)
      ensures routeNotes == Recorded(old(routeNotes), Serialize(at), note)
      ensures rn[..] == Lookup(old(routeNotes), Serialize(at)) + [note]
    {
      var key := Serialize(at);
      routeNotes := routeNotes[key := (if key in routeNotes then routeNotes[key] else []) + [note]];
      var stored := routeNotes[key];
      rn := new Note[|stored|](i requires 0 <= i < |stored| => stored[i]);
    }

    /** The copied notes are sent in order up to the first that fails; outcomes says which sends succeed. */
    method Reply(rn: array<Note>, outcomes: seq<bool>) returns (sent: seq<Note>, ok: bool)
      requires |outcomes| == rn.Length
      ensures sent <= rn[..]
      ensures forall i :: 0 <= i < |sent| ==> outcomes[i]
      ensures ok <==> |sent| == rn.Length
      ensures !ok ==> !outcomes[|sent|]
    {
      sent := [];
      for i := 0 to rn.Length
        invariant sent == rn[..i]
        invariant forall j :: 0 <= j < i ==> outcomes[j]
      {
        if !outcomes[i] {
          return sent, false;
        }
        sent := sent + [rn[i]];
      }
      return sent, true;
    }
  }

  // ---------- interleaved streams ----------

  datatype Phase =
    | Receiving                             // in Recv
    | Locking(note: Note, at: Point)        // about to take the mutex
    | Replying(rn: seq<Note>, next: nat)    // about to send the note at next
    | Panicked(note: Note)                  // the location was missing
    | Returned

  /** A stream, the notes it received and the notes it sent so far. */
  datatype Stream = Stream(phase: Phase, received: seq<Note>, sent: seq<Note>)

  /** A note in the order in which the mutex was taken, its place, the stream it came from and the copy made for it. */
  datatype Entry = Entry(stream: nat, at: Point, note: Note, copied: seq<Note>)

  datatype State = State(routeNotes: map<string, seq<Note>>, streams: seq<Stream>, log: seq<Entry>)

  datatype Step =
    | Open
    | Receive(k: nat, note: Note)
    | End(k: nat)      // Recv returned io.EOF or an error
    | Record(k: nat)
    | Send(k: nat)
    | SendFail(k: nat)

  function Initial(): State {
    State(map[], [], [])
  }

  predicate Enabled(s: State, step: Step) {
    match step
    case Open => true
    case Receive(k, _) => k < |s.streams| && s.streams[k].phase.Receiving?
    case End(k) => k < |s.streams| && s.streams[k].phase.Receiving?
    case Record(k) => k < |s.streams| && s.streams[k].phase.Locking?
    case Send(k) => k < |s.streams| && s.streams[k].phase.Replying? && s.streams[k].phase.next < |s.streams[k].phase.rn|
    case SendFail(k) => k < |s.streams| && s.streams[k].phase.Replying?
  }

  function Goto(s: State, k: nat, phase: Phase): State
    requires k < |s.streams|
  {
    s.(streams := s.streams[k := s.streams[k].(phase := phase)])
  }

  function Apply(s: State, step: Step): State
    requires Enabled(s, step)
  {
    match step
    case Open => s.(streams := s.streams + [Stream(Receiving, [], [])])
    case Receive(k, note) =>
      s.(streams := s.streams[k := s.streams[k].(
           phase := if note.location.Some? then Locking(note, note.location.value) else Panicked(note),
           received := s.streams[k].received + [note])])
    case End(k) => Goto(s, k, Returned)
    case Record(k) =>
      var at, note := s.streams[k].phase.at, s.streams[k].phase.note;
      var rn := Lookup(s.routeNotes, Serialize(at)) + [note];
      Goto(s, k, Replying(rn, 0)).(
        routeNotes := Recorded(s.routeNotes, Serialize(at), note),
        log := s.log + [Entry(k, at, note, rn)])
    case Send(k) =>
      var rn, next := s.streams[k].phase.rn, s.streams[k].phase.next;
      s.(streams := s.streams[k := s.streams[k].(
           phase := if next + 1 < |rn| then Replying(rn, next + 1) else Receiving,
           sent := s.streams[k].sent + [rn[next]])])
    case SendFail(k) => Goto(s, k, Returned)
  }

  ghost predicate Run(s: State, steps: seq<Step>)
    decreases steps
  {
    steps == [] || (Enabled(s, steps[0]) && Run(Apply(s, steps[0]), steps[1..]))
  }

  ghost function Final(s: State, steps: seq<Step>): State
    requires Run(s, steps)
    decreases steps
  {
    if steps == [] then s else Final(Apply(s, steps[0]), steps[1..])
  }

  ghost predicate Reachable(s: State) {
    exists steps: seq<Step> :: Run(Initial(), steps) && s == Final(Initial(), steps)
  }

  // ---------- what the log says ----------

  /** The notes received at a place, in the order of the log. */
  function NotesAt(log: seq<Entry>, p: Point): seq<Note> {
    if log == [] then [] else
    var e := log[|log| - 1];
    NotesAt(log[..|log| - 1], p) + if e.at == p then [e.note] else []
  }

  /** The notes received on a stream, in the order of the log. */
  function NotesOf(log: seq<Entry>, k: nat): seq<Note> {
    if log == [] then [] else
    var e := log[|log| - 1];
    NotesOf(log[..|log| - 1], k) + if e.stream == k then [e.note] else []
  }

  /** All that is to be sent on a stream: the copies made for its notes, one after the other. */
  function RepliesOf(log: seq<Entry>, k: nat): seq<Note> {
    if log == [] then [] else
    var e := log[|log| - 1];
    RepliesOf(log[..|log| - 1], k) + if e.stream == k then e.copied else []
  }

  lemma NotesAtMore(log: seq<Entry>, e: Entry, p: Point)
    ensures NotesAt(log + [e], p) == NotesAt(log, p) + if e.at == p then [e.note] else []
  {
  }

  lemma OfStreamMore(log: seq<Entry>, e: Entry, k: nat)
    ensures NotesOf(log + [e], k) == NotesOf(log, k) + if e.stream == k then [e.note] else []
    ensures RepliesOf(log + [e], k) == RepliesOf(log, k) + if e.stream == k then e.copied else []
  {
  }

  // ---------- the invariant ----------

  ghost predicate StoredOk(notes: map<string, seq<Note>>, log: seq<Entry>) {
    forall p: Point :: Lookup(notes, Serialize(p)) == NotesAt(log, p)
  }

  ghost predicate CopiedOk(log: seq<Entry>) {
    forall i | 0 <= i < |log| :: log[i].copied == NotesAt(log[..i + 1], log[i].at)
  }

  /** A note that was received but is not in the log. */
  function Held(phase: Phase): seq<Note> {
    if phase.Locking? || phase.Panicked? then [phase.note] else []
  }

  /** The rest of the copy that is being sent. */
  function Unsent(phase: Phase): seq<Note> {
    if phase.Replying? && phase.next <= |phase.rn| then phase.rn[phase.next..] else []
  }

  ghost predicate StreamOk(log: seq<Entry>, k: nat, s: Stream) {
    && (s.phase.Replying? ==> s.phase.next < |s.phase.rn|)
    && s.received == NotesOf(log, k) + Held(s.phase)
    && (if s.phase.Returned? then s.sent <= RepliesOf(log, k) else s.sent + Unsent(s.phase) == RepliesOf(log, k))
  }

  ghost predicate StreamsInv(s: State) {
    && (forall k | 0 <= k < |s.streams| :: StreamOk(s.log, k, s.streams[k]))
    && (forall i | 0 <= i < |s.log| :: s.log[i].stream < |s.streams|)
  }

  ghost predicate Inv(s: State) {
    StoredOk(s.routeNotes, s.log) && CopiedOk(s.log) && StreamsInv(s)
  }

  lemma {:induction false} NothingOf(log: seq<Entry>, k: nat)
    requires forall i | 0 <= i < |log| :: log[i].stream < k
    ensures NotesOf(log, k) == [] && RepliesOf(log, k) == []
  {
    if log != [] {
      NothingOf(log[..|log| - 1], k);
    }
  }

  lemma StoredKept(notes: map<string, seq<Note>>, log: seq<Entry>, e: Entry)
    requires StoredOk(notes, log)
    ensures StoredOk(Recorded(notes, Serialize(e.at), e.note), log + [e])
  {
    forall p: Point ensures Lookup(Recorded(notes, Serialize(e.at), e.note), Serialize(p)) == NotesAt(log + [e], p) {
      SerializeInjective(p, e.at);
      NotesAtMore(log, e, p);
    }
  }

  lemma CopiedKept(log: seq<Entry>, e: Entry)
    requires CopiedOk(log) && e.copied == NotesAt(log, e.at) + [e.note]
    ensures CopiedOk(log + [e])
  {
    var more := log + [e];
    forall i | 0 <= i < |more| ensures more[i].copied == NotesAt(more[..i + 1], more[i].at) {
      if i < |log| {
        assert more[..i + 1] == log[..i + 1];
      } else {
        assert more[..i + 1] == more;
        NotesAtMore(log, e, e.at);
      }
    }
  }

  lemma StreamRecorded(log: seq<Entry>, e: Entry, s: Stream)
    requires StreamOk(log, e.stream, s) && s.phase == Locking(e.note, e.at) && e.copied != []
    ensures StreamOk(log + [e], e.stream, s.(phase := Replying(e.copied, 0)))
  {
  }

  lemma StreamsKeptRecord(s: State, k: nat)
    requires StreamsInv(s) && Enabled(s, Record(k))
    ensures StreamsInv(Apply(s, Record(k)))
  {
    var t := Apply(s, Record(k));
    var e := t.log[|s.log|];
    forall j | 0 <= j < |t.streams| ensures StreamOk(t.log, j, t.streams[j]) {
      assert StreamOk(s.log, j, s.streams[j]);
      if j == k {
        StreamRecorded(s.log, e, s.streams[k]);
      } else {
        OfStreamMore(s.log, e, j);
      }
    }
  }

  lemma StreamReceives(log: seq<Entry>, k: nat, s: Stream, note: Note, phase: Phase)
    requires StreamOk(log, k, s) && s.phase.Receiving? && Held(phase) == [note] && Unsent(phase) == [] && !phase.Returned? && !phase.Replying?
    ensures StreamOk(log, k, s.(phase := phase, received := s.received + [note]))
  {
  }

  lemma StreamEnds(log: seq<Entry>, k: nat, s: Stream)
    requires StreamOk(log, k, s) && (s.phase.Receiving? || s.phase.Replying?)
    ensures StreamOk(log, k, s.(phase := Returned))
  {
  }

  lemma StreamSends(log: seq<Entry>, k: nat, s: Stream, phase: Phase)
    requires StreamOk(log, k, s) && s.phase.Replying? && s.phase.next < |s.phase.rn|
    requires phase == if s.phase.next + 1 < |s.phase.rn| then Replying(s.phase.rn, s.phase.next + 1) else Receiving
    ensures StreamOk(log, k, s.(phase := phase, sent := s.sent + [s.phase.rn[s.phase.next]]))
  {
    assert s.phase.rn[s.phase.next..] == [s.phase.rn[s.phase.next]] + Unsent(phase);
  }

  lemma StreamMoves(s: State, step: Step)
    requires Enabled(s, step) && !step.Record? && !step.Open?
    requires StreamOk(s.log, step.k, s.streams[step.k])
    ensures StreamOk(s.log, step.k, Apply(s, step).streams[step.k])
  {
    var before, after := s.streams[step.k], Apply(s, step).streams[step.k];
    if step.Receive? { StreamReceives(s.log, step.k, before, step.note, after.phase); }
    else if step.Send? { StreamSends(s.log, step.k, before, after.phase); }
    else { StreamEnds(s.log, step.k, before); }
  }

  lemma StreamsKept(s: State, step: Step)
    requires StreamsInv(s) && Enabled(s, step) && !step.Record?
    ensures StreamsInv(Apply(s, step))
  {
    if step.Open? {
      NothingOf(s.log, |s.streams|);
    } else {
      StreamMoves(s, step);
    }
  }

  lemma InvKept(s: State, step: Step)
    requires Inv(s) && Enabled(s, step)
    ensures Inv(Apply(s, step))
  {
    if step.Record? {
      var e := Apply(s, step).log[|s.log|];
      StoredKept(s.routeNotes, s.log, e);
      CopiedKept(s.log, e);
      StreamsKeptRecord(s, step.k);
    } else {
      StreamsKept(s, step);
    }
  }

  lemma {:induction false} InvOfRun(s: State, steps: seq<Step>)
    requires Inv(s) && Run(s, steps)
    ensures Inv(Final(s, steps))
    decreases steps
  {
    if steps != [] {
      InvKept(s, steps[0]);
      InvOfRun(Apply(s, steps[0]), steps[1..]);
    }
  }

  lemma InvReachable(s: State)
    requires Reachable(s)
    ensures Inv(s)
  {
    var steps: seq<Step> :| Run(Initial(), steps) && s == Final(Initial(), steps);
    InvOfRun(Initial(), steps);
  }

  lemma {:induction false} NotesAtPrefix(log: seq<Entry>, p: Point, i: nat, j: nat)
    requires i <= j <= |log|
    ensures NotesAt(log[..i], p) <= NotesAt(log[..j], p)
    decreases j - i
  {
    if i < j {
      NotesAtPrefix(log, p, i, j - 1);
      assert log[..j][..j - 1] == log[..j - 1];
    }
  }

  lemma CopyEndsInNote(log: seq<Entry>, i: nat)
    requires CopiedOk(log) && i < |log|
    ensures log[i].copied == NotesAt(log[..i], log[i].at) + [log[i].note]
  {
    assert log[..i + 1] == log[..i] + [log[i]];
    NotesAtMore(log[..i], log[i], log[i].at);
  }

  lemma CopyIsPrefix(log: seq<Entry>, i: nat, j: nat)
    requires CopiedOk(log) && i < j <= |log|
    ensures log[i].copied <= NotesAt(log[..j], log[i].at)
  {
    NotesAtPrefix(log, log[i].at, i + 1, j);
  }

  // ---------- results ----------

  /**
   * The list stored for a place is the notes received there, in the order of the mutex, and
   * every note received on a stream is in that order too, but for one not recorded yet.
   */
  lemma StoredInLockOrder(s: State, p: Point)
    requires Reachable(s)
    ensures Lookup(s.routeNotes, Serialize(p)) == NotesAt(s.log, p)
    ensures forall k | 0 <= k < |s.streams| ::
      && NotesOf(s.log, k) <= s.streams[k].received
      && |s.streams[k].received| <= |NotesOf(s.log, k)| + 1
      && (s.streams[k].phase.Receiving? ==> s.streams[k].received == NotesOf(s.log, k))
  {
    InvReachable(s);
    forall k | 0 <= k < |s.streams|
      ensures NotesOf(s.log, k) <= s.streams[k].received && |s.streams[k].received| <= |NotesOf(s.log, k)| + 1
      ensures s.streams[k].phase.Receiving? ==> s.streams[k].received == NotesOf(s.log, k)
    {
      assert StreamOk(s.log, k, s.streams[k]);
    }
  }

  /**
   * A copy ends in the note it was made for and is a prefix of the stored list; of two copies
   * for one place the earlier is a proper prefix of the later.
   */
  lemma CopiesAreOrdered(s: State, i: nat, j: nat)
    requires Reachable(s) && i <= j < |s.log| && s.log[i].at == s.log[j].at
    ensures |s.log[i].copied| > 0 && s.log[i].copied[|s.log[i].copied| - 1] == s.log[i].note
    ensures s.log[i].copied <= Lookup(s.routeNotes, Serialize(s.log[i].at))
    ensures s.log[i].copied <= s.log[j].copied && (i < j ==> |s.log[i].copied| < |s.log[j].copied|)
  {
    InvReachable(s);
    CopyEndsInNote(s.log, i);
    CopyEndsInNote(s.log, j);
    CopyIsPrefix(s.log, i, |s.log|);
    assert s.log[..|s.log|] == s.log;
    if i < j {
      CopyIsPrefix(s.log, i, j);
    }
  }

  /** A stream sends the copies made for its notes, each whole and in order, until a send fails. */
  lemma RepliesInOrder(s: State, k: nat)
    requires Reachable(s) && k < |s.streams|
    ensures s.streams[k].sent <= RepliesOf(s.log, k)
    ensures s.streams[k].phase.Receiving? || s.streams[k].phase.Locking? ==> s.streams[k].sent == RepliesOf(s.log, k)
  {
    InvReachable(s);
    assert StreamOk(s.log, k, s.streams[k]);
  }

  // ---------- when a stream ends ----------

  lemma {:induction false} RunFront(s: State, steps: seq<Step>)
    requires Run(s, steps) && steps != []
    ensures var front, last := steps[..|steps| - 1], steps[|steps| - 1];
      Run(s, front) && Enabled(Final(s, front), last) && Final(s, steps) == Apply(Final(s, front), last)
    decreases steps
  {
    var n := |steps| - 1;
    if n > 0 {
      assert steps[1..][..n - 1] == steps[..n][1..];
      RunFront(Apply(s, steps[0]), steps[1..]);
    }
  }

  predicate Ended(streams: seq<Stream>, k: nat) {
    k < |streams| && streams[k].phase.Returned?
  }

  lemma EndedStep(s: State, step: Step, k: nat)
    requires StreamsInv(s) && Enabled(s, step)
    ensures Ended(Apply(s, step).streams, k) <==> Ended(s.streams, k) || step == End(k) || step == SendFail(k)
  {
  }

  /** A stream returns exactly if receiving ended or failed, or a send failed; a reply sent whole does not end it. */
  lemma {:induction false} ReturnsExactly(steps: seq<Step>, k: nat)
    requires Run(Initial(), steps)
    ensures Ended(Final(Initial(), steps).streams, k) <==> End(k) in steps || SendFail(k) in steps
  {
    if steps != [] {
      RunFront(Initial(), steps);
      var front, last := steps[..|steps| - 1], steps[|steps| - 1];
      assert steps == front + [last];
      ReturnsExactly(front, k);
      InvOfRun(Initial(), front);
      EndedStep(Final(Initial(), front), last, k);
    }
  }
}
