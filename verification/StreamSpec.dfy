/**
 A stream or message buffer with one writer and one reader that take no lock: every access to the
 head, the tail and a single byte of the storage is a step of its own, and the steps of the two sides
 interleave in any way. Proved over all runs: what is read is what was written, in order, and messages
 come out whole.
 */
module StreamSpec {
  import opened Turns

  type Byte = x: int | 0 <= x < 256

  const PREFIX: nat := 4                   // sbBYTES_TO_STORE_MESSAGE_LENGTH
  const LIMIT: int := 0x1_0000_0000

  // ---------------------------------------------------------------- message framing

  /** The four bytes of a 32-bit length, least significant first. */
  function Encode(n: nat): (b: seq<Byte>)
    requires n < LIMIT
    ensures |b| == PREFIX
  {
    [n % 256, n / 256 % 256, n / 65536 % 256, n / 16777216 % 256]
  }

  function Decode(b: seq<Byte>): (n: nat)
    requires |b| == PREFIX
  {
    (b[0] as int) + 256 * (b[1] as int) + 65536 * (b[2] as int) + 16777216 * (b[3] as int)
  }

  lemma DecodeEncode(n: nat)
    requires n < LIMIT
    ensures Decode(Encode(n)) == n
  {
    var a, b, c := n / 256, n / 65536, n / 16777216;
    OneDigit(n);
    OneDigit(a);
    OneDigit(b);
    NextDigit(n, 256);
    NextDigit(n, 65536);
    assert c < 256;
  }

  lemma OneDigit(n: nat)
    ensures n == 256 * (n / 256) + n % 256
  {
  }

  lemma NextDigit(n: nat, unit: nat)
    requires unit == 256 || unit == 65536
    ensures n / unit / 256 == n / (256 * unit)
  {
  }

  function Frame(m: seq<Byte>): (f: seq<Byte>)
    requires |m| < LIMIT
    ensures |f| == PREFIX + |m|
  {
    Encode(|m|) + m
  }

  ghost predicate AllSendable(ms: seq<seq<Byte>>) {
    forall i :: 0 <= i < |ms| ==> 0 < |ms[i]| < LIMIT
  }

  /** The bytes of some messages, one after the other. */
  function Flatten(ms: seq<seq<Byte>>): seq<Byte>
    requires AllSendable(ms)
  {
    if ms == [] then [] else Flatten(ms[..|ms| - 1]) + Frame(ms[|ms| - 1])
  }

  /** Where message k starts and what is found there. */
  lemma {:induction false} FlattenAt(ms: seq<seq<Byte>>, k: nat)
    requires AllSendable(ms) && k < |ms|
    ensures AllSendable(ms[..k]) && AllSendable(ms[..k + 1])
    ensures var at := |Flatten(ms[..k])|;
            && at + PREFIX + |ms[k]| == |Flatten(ms[..k + 1])| <= |Flatten(ms)|
            && Flatten(ms)[at..at + PREFIX] == Encode(|ms[k]|)
            && Flatten(ms)[at + PREFIX..at + PREFIX + |ms[k]|] == ms[k]
  {
    hide Flatten, Frame, Encode;
    var n := |ms| - 1;
    FlattenLast(ms);
    if k == n {
      assert ms[..k + 1] == ms;
      FrameParts(Flatten(ms[..k]), ms[k]);
    } else {
      var before := ms[..n];
      FlattenAt(before, k);
      assert before[..k] == ms[..k] && before[..k + 1] == ms[..k + 1] && before[k] == ms[k];
      var at := |Flatten(ms[..k])|;
      PrefixSlices(Flatten(before), Frame(ms[n]), at, at + PREFIX);
      PrefixSlices(Flatten(before), Frame(ms[n]), at + PREFIX, at + PREFIX + |ms[k]|);
    }
  }

  lemma FlattenLast(ms: seq<seq<Byte>>)
    requires AllSendable(ms) && ms != []
    ensures Flatten(ms) == Flatten(ms[..|ms| - 1]) + Frame(ms[|ms| - 1])
  {
  }

  lemma FrameParts(a: seq<Byte>, m: seq<Byte>)
    requires |m| < LIMIT
    ensures (a + Frame(m))[|a|..|a| + PREFIX] == Encode(|m|)
    ensures (a + Frame(m))[|a| + PREFIX..|a| + PREFIX + |m|] == m
  {
  }

  lemma PrefixSlices<T>(a: seq<T>, b: seq<T>, i: nat, j: nat)
    requires i <= j <= |a|
    ensures (a + b)[i..j] == a[i..j]
  {
  }

  // ---------------------------------------------------------------- state

  datatype Writer =
    | Resting
    | Planned(space: nat)                                            // a space value read some time ago
    | Writing(bytes: seq<Byte>, done: nat, message: seq<Byte>)       // bytes go in one by one; then the head moves

  datatype Reader =
    | Quiet
    | Seen(avail: nat)                                               // a byte count read some time ago
    | Measuring(avail: nat, room: nat, got: seq<Byte>)               // reading the length of a message
    | Reading(skip: nat, count: nat, got: seq<Byte>)

  datatype State = State(
    message: bool,             // sbFLAGS_IS_MESSAGE_BUFFER
    cells: seq<Byte>,
    head: nat,                 // true positions; the code keeps them wrapped
    tail: nat,
    w: Writer,
    r: Reader,
    written: seq<Byte>,        // history: everything published, framing included
    sent: seq<seq<Byte>>,      // messages published
    delivered: seq<Byte>,      // stream bytes handed to the reader
    received: seq<seq<Byte>>   // messages handed to the reader
  )

  datatype Step =
    | CheckSpace
    | BeginWrite(data: seq<Byte>)
    | PutByte
    | Publish
    | CheckBytes
    | BeginRead(room: nat)
    | GetByte
    | Finish

  function Space(s: State): int { |s.cells| - 1 - (s.head - s.tail) }

  /** What prvWriteMessageToBuffer sets out to write, given the space it believes in. */
  function Plan(message: bool, data: seq<Byte>, space: nat): (bytes: seq<Byte>)
    requires message ==> |data| < LIMIT
    ensures |bytes| <= space
    ensures !message ==> bytes <= data && (|bytes| == |data| || |bytes| == space)
    ensures message ==> (bytes == [] <==> space < PREFIX + |data|) && (bytes != [] ==> bytes == Frame(data))
  {
    if message then if space >= |data| + PREFIX then Frame(data) else []
    else data[..if |data| <= space then |data| else space]
  }

  /** Whether finishing the write moves the head: not for a message that did not fit or is empty. */
  predicate Publishes(s: State)
    requires s.w.Writing?
  {
    s.w.bytes != [] && (s.message ==> s.w.message != [])
  }

  ghost predicate Enabled(s: State, e: Step) {
    match e
    case CheckSpace => !s.w.Writing? && Space(s) >= 0
    case BeginWrite(data) => s.w.Planned? && (s.message ==> |data| < LIMIT)
    case PutByte => s.w.Writing? && s.w.done < |s.w.bytes| && |s.cells| > 0
    case Publish => s.w.Writing? && s.w.done == |s.w.bytes|
    case CheckBytes => s.r.Quiet? && s.tail <= s.head
    case BeginRead(_) => s.r.Seen? && s.r.avail > if s.message then PREFIX else 0
    case GetByte =>
      |s.cells| > 0 && ((s.r.Measuring? && |s.r.got| < PREFIX) || (s.r.Reading? && |s.r.got| < s.r.count))
    case Finish => (s.r.Measuring? && |s.r.got| == PREFIX) || (s.r.Reading? && |s.r.got| == s.r.count)
                   || (s.r.Seen? && s.r.avail <= if s.message then PREFIX else 0)
  }

  function Minimum(a: nat, b: nat): (m: nat)
    ensures m <= a && m <= b && (m == a || m == b)
  {
    if a <= b then a else b
  }

  function ByteAt(cells: seq<Byte>, p: int): Byte
    requires |cells| > 0
  {
    cells[Slot(p, |cells|)]
  }

  ghost function Apply(s: State, e: Step): State
    requires Enabled(s, e)
  {
    match e
    case CheckSpace => s.(w := Planned(Space(s)))
    case BeginWrite(data) => s.(w := Writing(Plan(s.message, data, s.w.space), 0, data))
    case PutByte =>
      s.(cells := s.cells[Slot(s.head + s.w.done, |s.cells|) := s.w.bytes[s.w.done]], w := s.w.(done := s.w.done + 1))
    case Publish =>
      if Publishes(s) then
        s.(head := s.head + |s.w.bytes|, written := s.written + s.w.bytes,
           sent := if s.message then s.sent + [s.w.message] else s.sent, w := Resting)
      else s.(w := Resting)
    case CheckBytes => s.(r := Seen(s.head - s.tail))
    case BeginRead(room) =>
      if s.message then s.(r := Measuring(s.r.avail, room, []))
      else s.(r := Reading(0, Minimum(room, s.r.avail), []))
    case GetByte =>
      var at := s.tail + (if s.r.Reading? then s.r.skip else 0) + |s.r.got|;
      s.(r := s.r.(got := s.r.got + [ByteAt(s.cells, at)]))
    case Finish =>
      if s.r.Seen? then s.(r := Quiet)
      else if s.r.Measuring? then
        var n := Decode(s.r.got);
        s.(r := Reading(PREFIX, Minimum(if n > s.r.room then 0 else n,
          if s.r.avail >= PREFIX then s.r.avail - PREFIX else 0), []))
      else if s.r.count == 0 then s.(r := Quiet)
      else
        s.(tail := s.tail + s.r.skip + s.r.count, r := Quiet,
           delivered := if s.message then s.delivered else s.delivered + s.r.got,
           received := if s.message then s.received + [s.r.got] else s.received)
  }

  // ---------------------------------------------------------------- invariant

  /** Every unread byte is where the reader will look for it. */
  ghost predicate Stored(cells: seq<Byte>, tail: nat, head: nat, written: seq<Byte>) {
    |cells| > 0 && |written| == head && forall p :: tail <= p < head ==> ByteAt(cells, p) == written[p]
  }

  /** The writer stays clear of unread bytes even if the space it believes in is stale. */
  ghost predicate WriterOk(s: State) {
    match s.w
    case Resting => true
    case Planned(space) => space <= Space(s)
    case Writing(bytes, done, m) =>
      && done <= |bytes| <= Space(s) && |s.cells| > 0
      && (forall i :: 0 <= i < done ==> ByteAt(s.cells, s.head + i) == bytes[i])
      && (s.message && bytes != [] ==> |m| < LIMIT && bytes == Frame(m))
  }

  /** The message at the tail, if the reader has seen any bytes, is there as a whole. */
  ghost predicate SeenOk(s: State, avail: nat) {
    && avail <= s.head - s.tail
    && (s.message && avail > 0 ==> |s.received| < |s.sent| && PREFIX + |s.sent[|s.received|]| <= avail)
  }

  ghost predicate ReaderOk(s: State) {
    match s.r
    case Quiet => true
    case Seen(avail) => SeenOk(s, avail)
    case Measuring(avail, _, got) =>
      && s.message && avail > PREFIX && SeenOk(s, avail)
      && |got| <= PREFIX && s.tail + PREFIX <= |s.written| && got == s.written[s.tail..s.tail + |got|]
    case Reading(skip, count, got) =>
      && s.tail + skip + count <= s.head == |s.written| && |got| <= count
      && got == s.written[s.tail + skip..s.tail + skip + |got|]
      && (if s.message then skip == PREFIX
           && (count > 0 ==> |s.received| < |s.sent| && count == |s.sent[|s.received|]|) else skip == 0)
  }

  ghost predicate HistoryOk(message: bool, tail: nat, written: seq<Byte>, sent: seq<seq<Byte>>, delivered: seq<Byte>,
                            received: seq<seq<Byte>>) {
    if message then
      && AllSendable(sent) && written == Flatten(sent)
      && |received| <= |sent| && received == sent[..|received|]
      && tail == |Flatten(sent[..|received|])|
    else tail <= |written| && delivered == written[..tail]
  }

  /** The invariant of every reachable state. */
  ghost predicate Good(s: State) {
    && 2 <= |s.cells| && s.tail <= s.head && Space(s) >= 0
    && Stored(s.cells, s.tail, s.head, s.written)
    && WriterOk(s) && ReaderOk(s)
    && HistoryOk(s.message, s.tail, s.written, s.sent, s.delivered, s.received)
  }

  // ---------------------------------------------------------------- every step keeps it

  /** Writing a byte behind the head touches nothing that is unread or already put down. */
  lemma PutByteGood(s: State)
    requires Good(s) && Enabled(s, PutByte)
    ensures Good(Apply(s, PutByte))
  {
    hide Slot, HistoryOk, ReaderOk;
    var u, n, at := Apply(s, PutByte), |s.cells|, s.head + s.w.done;
    forall p | s.tail <= p < s.head
      ensures ByteAt(u.cells, p) == u.written[p]
    {
      SlotEqual(p, at, n);
      assert ByteAt(s.cells, p) == s.written[p];
    }
    forall i | 0 <= i < u.w.done
      ensures ByteAt(u.cells, u.head + i) == u.w.bytes[i]
    {
      SlotEqual(u.head + i, at, n);
      if i < s.w.done {
        assert ByteAt(s.cells, s.head + i) == s.w.bytes[i];
      }
    }
    SameReader(s, u);
  }

  lemma SameReader(s: State, u: State)
    requires ReaderOk(s) && Good(s)
    requires u.message == s.message && u.head == s.head && u.tail == s.tail && u.r == s.r
    requires u.written == s.written && u.sent == s.sent && u.received == s.received
    ensures ReaderOk(u)
  {
    hide HistoryOk, Stored, WriterOk;
  }

  lemma MoreWritten(s: State, u: State)
    requires ReaderOk(s) && |s.written| == s.head && s.tail <= s.head
    requires u.message == s.message && u.tail == s.tail && u.r == s.r && u.received == s.received
    requires u.head >= s.head && s.written <= u.written && |u.written| == u.head && s.sent <= u.sent
    ensures ReaderOk(u)
  {
  }

  lemma PublishStored(s: State)
    requires Good(s) && Enabled(s, Publish) && Publishes(s)
    ensures Stored(s.cells, s.tail, s.head + |s.w.bytes|, s.written + s.w.bytes)
  {
  }

  lemma SentPrefix(sent: seq<seq<Byte>>, m: seq<Byte>, k: nat)
    requires k <= |sent|
    ensures (sent + [m])[..k] == sent[..k]
  {
  }

  lemma FlattenAppend(sent: seq<seq<Byte>>, m: seq<Byte>)
    requires AllSendable(sent) && 0 < |m| < LIMIT
    ensures AllSendable(sent + [m]) && Flatten(sent + [m]) == Flatten(sent) + Frame(m)
  {
  }

  /** Moving the head publishes all of the bytes at once. */
  lemma PublishGood(s: State)
    requires Good(s) && Enabled(s, Publish)
    ensures Good(Apply(s, Publish))
  {
    hide Slot, Flatten, Stored;
    var u := Apply(s, Publish);
    if Publishes(s) {
      PublishStored(s);
      if s.message {
        FlattenAppend(s.sent, s.w.message);
        SentPrefix(s.sent, s.w.message, |s.received|);
      }
      assert |s.written| == s.head by {
        StoredLength(s);
      }
      MoreWritten(s, u);
    } else {
      SameReader(s, u);
    }
  }

  lemma StoredLength(s: State)
    requires Good(s)
    ensures |s.written| == s.head && |s.cells| > 0
  {
  }

  /** A byte count read now holds the next message as a whole. */
  lemma CheckBytesGood(s: State)
    requires Good(s) && Enabled(s, CheckBytes)
    ensures Good(Apply(s, CheckBytes))
  {
    hide Flatten, Stored;
    StoredLength(s);
    if s.message {
      if |s.received| < |s.sent| {
        FlattenAt(s.sent, |s.received|);
      } else {
        assert s.sent[..|s.received|] == s.sent;
      }
    }
  }

  lemma BeginWriteGood(s: State, data: seq<Byte>)
    requires Good(s) && Enabled(s, BeginWrite(data))
    ensures Good(Apply(s, BeginWrite(data)))
  {
    hide Flatten, Stored, HistoryOk;
    SameReader(s, Apply(s, BeginWrite(data)));
    StoredLength(s);
  }

  lemma CheckSpaceGood(s: State)
    requires Good(s) && Enabled(s, CheckSpace)
    ensures Good(Apply(s, CheckSpace))
  {
    hide Flatten, Stored, HistoryOk;
    SameReader(s, Apply(s, CheckSpace));
  }

  lemma BeginReadGood(s: State, room: nat)
    requires Good(s) && Enabled(s, BeginRead(room))
    ensures Good(Apply(s, BeginRead(room)))
  {
    hide Flatten, Stored, HistoryOk;
    StoredLength(s);
  }

  lemma GetByteGood(s: State)
    requires Good(s) && Enabled(s, GetByte)
    ensures Good(Apply(s, GetByte))
  {
    hide Flatten, HistoryOk, Slot, WriterOk;
    StoredLength(s);
    SameWriter(s, Apply(s, GetByte));
    var at := s.tail + (if s.r.Reading? then s.r.skip else 0) + |s.r.got|;
    assert ByteAt(s.cells, at) == s.written[at];
  }

  /** The length read is the length of the message at the tail. */
  lemma MeasuredGood(s: State)
    requires Good(s) && s.r.Measuring? && |s.r.got| == PREFIX
    ensures |s.received| < |s.sent| && Decode(s.r.got) == |s.sent[|s.received|]|
    ensures s.tail + PREFIX + |s.sent[|s.received|]| <= s.head
  {
    hide Flatten;
    var k := |s.received|;
    FlattenAt(s.sent, k);
    DecodeEncode(|s.sent[k]|);
    assert s.r.got == s.written[s.tail..s.tail + PREFIX];
  }

  /** What was read is the next message, or the next bytes, of the history. */
  lemma HandedOver(s: State)
    requires Good(s) && Enabled(s, Finish) && s.r.Reading? && s.r.count > 0
    ensures var u := Apply(s, Finish);
            u.tail <= u.head && HistoryOk(u.message, u.tail, u.written, u.sent, u.delivered, u.received)
  {
    hide Flatten, WriterOk, Decode, Stored;
    var u := Apply(s, Finish);
    StoredLength(s);
    if s.message {
      var k := |s.received|;
      FlattenAt(s.sent, k);
      assert s.sent[..k + 1] == s.sent[..k] + [s.sent[k]];
    } else {
      assert s.written[..s.tail] + s.written[s.tail..u.tail] == s.written[..u.tail];
    }
  }

  lemma FinishGood(s: State)
    requires Good(s) && Enabled(s, Finish)
    ensures Good(Apply(s, Finish))
  {
    hide Flatten, WriterOk, Decode, HistoryOk;
    var u := Apply(s, Finish);
    StoredLength(s);
    if s.r.Measuring? {
      MeasuredGood(s);
      SameWriter(s, u);
    } else if s.r.Reading? && s.r.count > 0 {
      LaterTail(s, u);
      HandedOver(s);
    } else {
      SameWriter(s, u);
    }
  }

  lemma SameWriter(s: State, u: State)
    requires WriterOk(s) && u.cells == s.cells && u.head == s.head && u.tail == s.tail && u.w == s.w
    requires u.message == s.message
    ensures WriterOk(u)
  {
  }

  /** Moving the tail only makes room. */
  lemma LaterTail(s: State, u: State)
    requires WriterOk(s) && u.cells == s.cells && u.head == s.head && u.tail >= s.tail && u.w == s.w
    requires u.message == s.message
    ensures WriterOk(u)
  {
  }

  lemma StepGood(s: State, e: Step)
    requires Good(s) && Enabled(s, e)
    ensures Good(Apply(s, e))
  {
    hide Good, Apply, Enabled;
    match e
    case CheckSpace => CheckSpaceGood(s);
    case BeginWrite(data) => BeginWriteGood(s, data);
    case PutByte => PutByteGood(s);
    case Publish => PublishGood(s);
    case CheckBytes => CheckBytesGood(s);
    case BeginRead(room) => BeginReadGood(s, room);
    case GetByte => GetByteGood(s);
    case Finish => FinishGood(s);
  }

  // ---------------------------------------------------------------- runs

  ghost predicate Run(states: seq<State>, steps: seq<Step>) {
    && |states| == |steps| + 1 && Good(states[0])
    && (forall k :: 0 <= k < |steps| ==> Enabled(states[k], steps[k]) && states[k + 1] == Apply(states[k], steps[k]))
  }

  lemma {:induction false} RunGood(states: seq<State>, steps: seq<Step>, k: nat)
    requires Run(states, steps) && k <= |steps|
    ensures Good(states[k])
  {
    hide Good, Enabled, Apply;
    if k > 0 {
      RunGood(states, steps, k - 1);
      StepGood(states[k - 1], steps[k - 1]);
    }
  }

  /** An empty buffer, as prvInitialiseNewStreamBuffer leaves it, starts a run. */
  lemma FreshGood(message: bool, cells: seq<Byte>)
    requires |cells| >= 2
    ensures Good(State(message, cells, 0, 0, Resting, Quiet, [], [], [], []))
  {
  }

  /**
   Under every interleaving of the two sides, a stream buffer delivers a prefix of what was written and a
   message buffer the first messages sent, each intact and none skipped; the unread bytes are always
   whole messages.
   */
  lemma DeliveredInOrder(states: seq<State>, steps: seq<Step>, k: nat)
    requires Run(states, steps) && k <= |steps|
    ensures var s := states[k];
            && (!s.message ==> s.delivered <= s.written)
            && (s.message ==> s.received <= s.sent && AllSendable(s.sent[|s.received|..])
                              && s.tail <= |s.written| && s.written[s.tail..] == Flatten(s.sent[|s.received|..]))
  {
    var s := states[k];
    RunGood(states, steps, k);
    if s.message {
      FlattenRest(s.sent, |s.received|);
    }
  }

  lemma {:induction false} FlattenRest(ms: seq<seq<Byte>>, k: nat)
    requires AllSendable(ms) && k <= |ms|
    ensures AllSendable(ms[..k]) && AllSendable(ms[k..]) && Flatten(ms) == Flatten(ms[..k]) + Flatten(ms[k..])
    decreases |ms|
  {
    hide Frame, Flatten;
    var n := |ms| - 1;
    if k == |ms| {
      assert ms[..k] == ms && ms[k..] == [];
      FlattenNone();
    } else {
      FlattenRest(ms[..n], k);
      assert ms[..n][..k] == ms[..k] && ms[..n][k..] == ms[k..][..n - k] && ms[k..][n - k] == ms[n];
      FlattenLast(ms);
      FlattenLast(ms[k..]);
      var a, b, c := Flatten(ms[..k]), Flatten(ms[k..][..n - k]), Frame(ms[n]);
      assert (a + b) + c == a + (b + c);
    }
  }

  lemma FlattenNone()
    ensures Flatten([]) == []
  {
  }

  /** A space value, once read, is never more than the space there is, however often the reader moves on. */
  lemma StaleSpaceIsSafe(states: seq<State>, steps: seq<Step>, k: nat)
    requires Run(states, steps) && k <= |steps| && states[k].w.Planned?
    ensures states[k].w.space <= Space(states[k]) <= |states[k].cells| - 1
  {
    RunGood(states, steps, k);
  }

  /** A message too large for the caller's buffer stays in place: finishing the read changes only the reader's phase. */
  lemma TooLargeStays(states: seq<State>, steps: seq<Step>, k: nat)
    requires Run(states, steps) && k <= |steps|
    requires states[k].r.Measuring? && |states[k].r.got| == PREFIX
    ensures var s := states[k];
            && |s.received| < |s.sent|
            && (|s.sent[|s.received|]| > s.r.room <==> Apply(s, Finish).r.count == 0)
            && (|s.sent[|s.received|]| <= s.r.room ==> Apply(s, Finish).r.count == |s.sent[|s.received|]|)
            && (Apply(s, Finish).r.count == 0 ==> Apply(Apply(s, Finish), Finish) == s.(r := Quiet))
  {
    var s := states[k];
    RunGood(states, steps, k);
    MeasuredGood(s);
    assert AllSendable(s.sent) && 0 < |s.sent[|s.received|]|;
  }

  // ---------------------------------------------------------------- whole calls

  predicate ReaderStep(e: Step) { e.CheckBytes? || e.BeginRead? || e.GetByte? || e.Finish? }

  predicate WriterStep(e: Step) { e.CheckSpace? || e.BeginWrite? || e.PutByte? || e.Publish? }

  /** What the writer does leaves the reader's side alone, and the other way round. */
  lemma OtherSide(s: State, e: Step)
    requires Enabled(s, e)
    ensures var u := Apply(s, e);
            && u.message == s.message
            && (WriterStep(e) ==>
                  u.r == s.r && u.tail == s.tail && u.delivered == s.delivered && u.received == s.received)
            && (ReaderStep(e) ==> u.w == s.w && u.head == s.head && u.written == s.written && u.sent == s.sent)
  {
  }

  /** Between its steps the reader's side stands still, whatever the writer does. */
  lemma {:induction false} ReaderRests(states: seq<State>, steps: seq<Step>, i: nat, j: nat)
    requires Run(states, steps) && i <= j <= |steps| && forall k :: i <= k < j ==> WriterStep(steps[k])
    ensures states[j].r == states[i].r && states[j].tail == states[i].tail && states[j].message == states[i].message
    ensures states[j].delivered == states[i].delivered && states[j].received == states[i].received
  {
    hide Good, Enabled, Apply;
    if i < j {
      ReaderRests(states, steps, i, j - 1);
      OtherSide(states[j - 1], steps[j - 1]);
    }
  }

  lemma {:induction false} WriterRests(states: seq<State>, steps: seq<Step>, i: nat, j: nat)
    requires Run(states, steps) && i <= j <= |steps| && forall k :: i <= k < j ==> ReaderStep(steps[k])
    ensures states[j].w == states[i].w && states[j].head == states[i].head && states[j].message == states[i].message
    ensures states[j].written == states[i].written && states[j].sent == states[i].sent
  {
    hide Good, Enabled, Apply;
    if i < j {
      WriterRests(states, steps, i, j - 1);
      OtherSide(states[j - 1], steps[j - 1]);
    }
  }

  /** The same read, more bytes of it fetched perhaps. */
  predicate SameRead(a: Reader, b: Reader) {
    && (a.Reading? ==> b.Reading? && b.skip == a.skip && b.count == a.count)
    && (a.Measuring? ==> b.Measuring? && b.avail == a.avail && b.room == a.room)
  }

  /** While bytes are fetched, the number wanted stands, and nothing is handed over yet. */
  lemma {:induction false} Fetching(states: seq<State>, steps: seq<Step>, i: nat, j: nat)
    requires Run(states, steps) && i <= j <= |steps|
    requires forall k :: i <= k < j ==> WriterStep(steps[k]) || steps[k].GetByte?
    requires states[i].r.Reading? || states[i].r.Measuring?
    ensures states[j].tail == states[i].tail && states[j].message == states[i].message
    ensures states[j].delivered == states[i].delivered && states[j].received == states[i].received
    ensures SameRead(states[i].r, states[j].r)
  {
    hide Good, Enabled, Apply;
    if i < j {
      Fetching(states, steps, i, j - 1);
      assert Enabled(states[j - 1], steps[j - 1]);
      FetchStep(states[j - 1], steps[j - 1]);
    }
  }

  lemma FetchStep(s: State, e: Step)
    requires Enabled(s, e) && (WriterStep(e) || e.GetByte?) && (s.r.Reading? || s.r.Measuring?)
    ensures var u := Apply(s, e);
            && u.message == s.message && u.tail == s.tail && u.delivered == s.delivered && u.received == s.received
            && SameRead(s.r, u.r)
  {
  }

  /**
   A completed read from a stream, the writer going on meanwhile: it looks at the byte count in step h, begins
   in step i and ends in step j. It hands over, in order, as many bytes as there is room for, or all that were
   there at the look if that is less.
   */
  lemma StreamReadTakesAll(states: seq<State>, steps: seq<Step>, h: nat, i: nat, j: nat)
    requires Run(states, steps) && h < i < j < |steps| && !states[h].message
    requires steps[h] == CheckBytes && steps[i].BeginRead? && steps[j] == Finish
    requires forall k :: h < k < i ==> WriterStep(steps[k])
    requires forall k :: i < k < j ==> WriterStep(steps[k]) || steps[k].GetByte?
    ensures var room, avail := steps[i].room, |states[h].written| - |states[h].delivered|;
            var n := |states[j + 1].delivered| - |states[h].delivered|;
            && 0 <= n <= room && n <= avail && (n == room || n == avail)
            && states[h].delivered <= states[j + 1].delivered <= states[j + 1].written
  {
    hide Good, Enabled, Apply;
    RunGood(states, steps, h);
    RunGood(states, steps, j);
    LookCounts(states[h]);
    ReaderRests(states, steps, h + 1, i);
    assert Enabled(states[i], steps[i]) && Enabled(states[j], steps[j]);
    ReadBegins(states[i], steps[i].room);
    Fetching(states, steps, i + 1, j);
    ReadEnds(states[j]);
    DeliveredInOrder(states, steps, j + 1);
  }

  lemma LookCounts(s: State)
    requires Good(s) && Enabled(s, CheckBytes)
    ensures var u := Apply(s, CheckBytes);
            && u.message == s.message && u.delivered == s.delivered && u.received == s.received && u.tail == s.tail
            && u.r.Seen? && (!s.message ==> u.r == Seen(|s.written| - |s.delivered|))
  {
    hide Stored, WriterOk, Flatten;
    StoredLength(s);
  }

  lemma ReadBegins(s: State, room: nat)
    requires Enabled(s, BeginRead(room)) && !s.message
    ensures var u := Apply(s, BeginRead(room));
            && u.r == Reading(0, Minimum(room, s.r.avail), []) && u.delivered == s.delivered && u.message == s.message
  {
  }

  lemma ReadEnds(s: State)
    requires Enabled(s, Finish) && !s.message && s.r.Reading?
    ensures Apply(s, Finish).delivered == s.delivered + s.r.got && |s.r.got| == s.r.count
    ensures !Apply(s, Finish).message
  {
  }

  /**
   A completed read from a message buffer: the look in step h finds something, the length is read from step i
   on and known in step j, the message, if the caller has room for it, is handed over in step l; otherwise
   nothing is, and the tail has not moved.
   */
  lemma MessageReadTakesOne(states: seq<State>, steps: seq<Step>, h: nat, i: nat, j: nat, l: nat)
    requires Run(states, steps) && h < i < j < l < |steps| && states[h].message
    requires steps[h] == CheckBytes && steps[i].BeginRead? && steps[j] == Finish && steps[l] == Finish
    requires forall k :: h < k < i ==> WriterStep(steps[k])
    requires forall k :: i < k < j || j < k < l ==> WriterStep(steps[k]) || steps[k].GetByte?
    ensures var n, z := |states[h].received|, states[l + 1];
            && n < |states[j].sent|
            && (|states[j].sent[n]| <= steps[i].room ==> z.received == states[h].received + [states[j].sent[n]])
            && (|states[j].sent[n]| > steps[i].room ==> z.received == states[h].received && z.tail == states[h].tail)
  {
    hide Good, Enabled, Apply;
    RunGood(states, steps, h);
    RunGood(states, steps, i);
    RunGood(states, steps, j);
    RunGood(states, steps, l);
    LookCounts(states[h]);
    ReaderRests(states, steps, h + 1, i);
    assert Enabled(states[i], steps[i]) && Enabled(states[j], steps[j]) && Enabled(states[l], steps[l]);
    MeasureBegins(states[i], steps[i].room);
    Fetching(states, steps, i + 1, j);
    MeasureEnds(states[j]);
    Fetching(states, steps, j + 1, l);
    SentGrows(states, steps, j, l);
    MessageEnds(states[l]);
  }

  lemma MeasureBegins(s: State, room: nat)
    requires Enabled(s, BeginRead(room)) && s.message
    ensures var u := Apply(s, BeginRead(room));
            && u.r == Measuring(s.r.avail, room, []) && u.received == s.received && u.message == s.message
            && u.tail == s.tail
  {
  }

  lemma MeasureEnds(s: State)
    requires Good(s) && Enabled(s, Finish) && s.r.Measuring?
    ensures var u, n := Apply(s, Finish), |s.received|;
            && u.received == s.received && u.message == s.message && u.tail == s.tail && u.sent == s.sent
            && n < |s.sent| && 0 < |s.sent[n]|
            && u.r == Reading(PREFIX, if |s.sent[n]| > s.r.room then 0 else |s.sent[n]|, [])
  {
    hide Stored, WriterOk, Flatten, Decode;
    MeasuredGood(s);
  }

  lemma MessageEnds(s: State)
    requires Good(s) && Enabled(s, Finish) && s.message && s.r.Reading?
    ensures var u := Apply(s, Finish);
            && (s.r.count == 0 ==> u.received == s.received && u.tail == s.tail)
            && (s.r.count > 0 ==> |s.received| < |s.sent| && u.received == s.received + [s.sent[|s.received|]])
  {
    hide Stored, WriterOk, Flatten;
    if s.r.count > 0 {
      HandedOver(s);
      var u := Apply(s, Finish);
      assert u.received == s.sent[..|s.received| + 1] && s.received == s.sent[..|s.received|];
    }
  }

  /** Messages once sent stay in the history. */
  lemma {:induction false} SentGrows(states: seq<State>, steps: seq<Step>, i: nat, j: nat)
    requires Run(states, steps) && i <= j <= |steps|
    ensures states[i].sent <= states[j].sent
  {
    hide Good, Enabled, Apply;
    if i < j {
      SentGrows(states, steps, i, j - 1);
      SentStep(states[j - 1], steps[j - 1]);
    }
  }

  lemma SentStep(s: State, e: Step)
    requires Enabled(s, e)
    ensures s.sent <= Apply(s, e).sent
  {
  }

  /**
   A completed write, the reader going on meanwhile: the space is looked at in step h, the bytes go in from
   step i on, and step j publishes. A stream takes as many of the bytes as there was space for at the look; a
   message is sent whole, or not at all if it is empty or does not fit.
   */
  lemma WriteTakesWhatFits(states: seq<State>, steps: seq<Step>, h: nat, i: nat, j: nat)
    requires Run(states, steps) && h < i < j < |steps|
    requires steps[h] == CheckSpace && steps[i].BeginWrite? && steps[j] == Publish
    requires forall k :: h < k < i ==> ReaderStep(steps[k])
    requires forall k :: i < k < j ==> ReaderStep(steps[k]) || steps[k].PutByte?
    ensures var data, a, z := steps[i].data, states[h], states[j + 1];
            && (!a.message ==>
                  var n := |z.written| - |a.written|;
                  && 0 <= n <= |data| && n <= Space(a) && (n == |data| || n == Space(a))
                  && z.written == a.written + data[..n])
            && (a.message ==> z.sent == if data != [] && PREFIX + |data| <= Space(a) then a.sent + [data] else a.sent)
  {
    hide Good, Enabled, Apply, Plan;
    assert Enabled(states[h], steps[h]) && Enabled(states[i], steps[i]) && Enabled(states[j], steps[j]);
    LookAtSpace(states[h]);
    WriterRests(states, steps, h + 1, i);
    WriteBegins(states[i], steps[i].data);
    Filling(states, steps, i + 1, j);
    WriteEnds(states[j]);
  }

  lemma LookAtSpace(s: State)
    requires Enabled(s, CheckSpace)
    ensures Apply(s, CheckSpace) == s.(w := Planned(Space(s))) && Space(s) >= 0
  {
  }

  lemma WriteBegins(s: State, data: seq<Byte>)
    requires Enabled(s, BeginWrite(data))
    ensures Apply(s, BeginWrite(data)) == s.(w := Writing(Plan(s.message, data, s.w.space), 0, data))
  {
    hide Plan;
  }

  lemma {:induction false} Filling(states: seq<State>, steps: seq<Step>, i: nat, j: nat)
    requires Run(states, steps) && i <= j <= |steps|
    requires forall k :: i <= k < j ==> ReaderStep(steps[k]) || steps[k].PutByte?
    requires states[i].w.Writing?
    ensures states[j].w.Writing? && states[j].w == states[i].w.(done := states[j].w.done)
    ensures states[j].message == states[i].message && states[j].written == states[i].written
    ensures states[j].sent == states[i].sent
  {
    hide Good, Enabled, Apply;
    if i < j {
      Filling(states, steps, i, j - 1);
      FillStep(states[j - 1], steps[j - 1]);
    }
  }

  lemma FillStep(s: State, e: Step)
    requires Enabled(s, e) && (ReaderStep(e) || e.PutByte?) && s.w.Writing?
    ensures var u := Apply(s, e);
            && u.w.Writing? && u.w == s.w.(done := u.w.done)
            && u.message == s.message && u.written == s.written && u.sent == s.sent
  {
  }

  lemma WriteEnds(s: State)
    requires Enabled(s, Publish)
    ensures var u := Apply(s, Publish);
            && u.message == s.message
            && u.written == s.written + (if s.message && s.w.message == [] then [] else s.w.bytes)
            && (s.message ==> u.sent == if s.w.bytes != [] && s.w.message != [] then s.sent + [s.w.message] else s.sent)
  {
  }
}
