/** Wire protocol of src/remoteinput/protocol.py: events and the 41-byte big-endian frame. */
module Protocol {
  import opened Sequences

  datatype Op = Move | Key | Button | Scroll | Reset | Activate | Heartbeat | Probe

  /** One input or control event. `number` is the source's sequence number `seq`. */
  datatype Event = Event(op: Op, epoch: nat, number: nat, stamp: nat, lease: nat, a: int, b: int)

  type byte = x: int | 0 <= x < 256

  const U64: int := 0x1_0000_0000_0000_0000
  const U32: int := 0x1_0000_0000
  const I32: int := 0x8000_0000
  const MOVE_LIMIT: int := 1_000_000
  const SCROLL_LIMIT: int := 12_000
  const FRAME_SIZE: int := 41

  function Code(op: Op): byte {
    match op
    case Move => 1
    case Key => 2
    case Button => 3
    case Scroll => 4
    case Reset => 5
    case Activate => 6
    case Heartbeat => 7
    case Probe => 8
  }

  function Decode(code: byte): Result<Op> {
    if code == 1 then Ok(Move)
    else if code == 2 then Ok(Key)
    else if code == 3 then Ok(Button)
    else if code == 4 then Ok(Scroll)
    else if code == 5 then Ok(Reset)
    else if code == 6 then Ok(Activate)
    else if code == 7 then Ok(Heartbeat)
    else if code == 8 then Ok(Probe)
    else Err
  }

  /** The field widths of the frame: four unsigned 64-bit fields and two signed 32-bit ones. */
  predicate Packable(e: Event) {
    && e.epoch < U64 && e.number < U64 && e.stamp < U64 && e.lease < U64
    && -I32 <= e.a < I32 && -I32 <= e.b < I32
  }

  /** The argument checks a received frame has to pass, op by op. */
  predicate ArgumentsValid(e: Event) {
    match e.op
    case Key => 1 <= e.a <= 254 && 0 <= e.b <= 1
    case Button => 1 <= e.a <= 5 && 0 <= e.b <= 1
    case Move => Max(Abs(e.a), Abs(e.b)) <= MOVE_LIMIT
    case Scroll => Max(Abs(e.a), Abs(e.b)) <= SCROLL_LIMIT
    case _ => e.a == 0 && e.b == 0
  }

  predicate WireValid(e: Event) {
    Packable(e) && ArgumentsValid(e)
  }

  /** Keys and mouse buttons held down. */
  datatype Held = Held(keys: set<int>, buttons: set<int>)

  const NOTHING: Held := Held({}, {})

  /** What is held once an event has been applied. */
  function Struck(held: Held, e: Event): Held {
    if e.op.Key? then held.(keys := if e.b != 0 then held.keys + {e.a} else held.keys - {e.a})
    else if e.op.Button? then held.(buttons := if e.b != 0 then held.buttons + {e.a} else held.buttons - {e.a})
    else held
  }

  /** What is held after applying events in order, starting with nothing. */
  function HeldAfter(es: seq<Event>): Held {
    if es == [] then NOTHING else Struck(HeldAfter(Front(es)), Last(es))
  }

  /** Total motion and total scrolling. */
  datatype Travel = Travel(dx: int, dy: int, sx: int, sy: int)

  const STILL: Travel := Travel(0, 0, 0, 0)

  function Moved(t: Travel, e: Event): Travel {
    if e.op.Move? then t.(dx := t.dx + e.a, dy := t.dy + e.b)
    else if e.op.Scroll? then t.(sx := t.sx + e.a, sy := t.sy + e.b)
    else t
  }

  function TravelOf(es: seq<Event>): Travel {
    if es == [] then STILL else Moved(TravelOf(Front(es)), Last(es))
  }

  // ---- Integers as big-endian bytes ----

  function Pow256(w: nat): nat {
    if w == 0 then 1 else 256 * Pow256(w - 1)
  }

  function ToBytes(n: nat, w: nat): (bs: seq<byte>)
    ensures |bs| == w
  {
    if w == 0 then [] else ToBytes(n / 256, w - 1) + [n % 256]
  }

  function FromBytes(bs: seq<byte>): nat {
    if bs == [] then 0 else 256 * FromBytes(Front(bs)) + Last(bs)
  }

  lemma {:induction false} BytesOfNumber(n: nat, w: nat)
    requires n < Pow256(w)
    ensures FromBytes(ToBytes(n, w)) == n
  {
    if w != 0 {
      BytesOfNumber(n / 256, w - 1);
      var bs := ToBytes(n, w);
      assert Front(bs) == ToBytes(n / 256, w - 1) && Last(bs) == n % 256;
    }
  }

  lemma {:induction false} NumberOfBytes(bs: seq<byte>)
    ensures FromBytes(bs) < Pow256(|bs|)
    ensures ToBytes(FromBytes(bs), |bs|) == bs
  {
    if bs != [] {
      NumberOfBytes(Front(bs));
      var n := FromBytes(bs);
      assert n / 256 == FromBytes(Front(bs)) && n % 256 == Last(bs);
      assert bs == Front(bs) + [Last(bs)];
    }
  }

  lemma Widths()
    ensures Pow256(8) == U64 && Pow256(4) == U32
  {
    assert Pow256(2) == 0x1_0000;
    assert Pow256(4) == 0x1_0000_0000;
    assert Pow256(6) == 0x1_0000_0000_0000;
  }

  /** Two's complement in 32 bits. */
  function Unsigned(x: int): nat
    requires -I32 <= x < I32
  {
    if x < 0 then x + U32 else x
  }

  function Signed(n: nat): (x: int)
    requires n < U32
    ensures -I32 <= x < I32 && Unsigned(x) == n
  {
    if n < I32 then n else n - U32
  }

  // ---- Frames ----

  /** Event.pack: struct refuses a field outside its width. */
  function Pack(e: Event): Result<seq<byte>> {
    if !Packable(e) then Err
    else Ok([Code(e.op)] + ToBytes(e.epoch, 8) + ToBytes(e.number, 8) + ToBytes(e.stamp, 8)
            + ToBytes(e.lease, 8) + ToBytes(Unsigned(e.a), 4) + ToBytes(Unsigned(e.b), 4))
  }

  /** The event spelled by 41 bytes whose opcode is known, before the argument checks. */
  function Fields(op: Op, data: seq<byte>): Event
    requires |data| == FRAME_SIZE
  {
    NumberOfBytes(data[33..37]);
    NumberOfBytes(data[37..41]);
    Widths();
    Event(op, FromBytes(data[1..9]), FromBytes(data[9..17]), FromBytes(data[17..25]),
          FromBytes(data[25..33]), Signed(FromBytes(data[33..37])), Signed(FromBytes(data[37..41])))
  }

  /** unpack: every refusal of the source is Err. */
  function Unpack(data: seq<byte>): Result<Event> {
    if |data| != FRAME_SIZE || Decode(data[0]).Err? then Err
    else
      var e := Fields(Decode(data[0]).value, data);
      if ArgumentsValid(e) then Ok(e) else Err
  }

  /** Where the parts of a frame lie. */
  lemma FrameParts(head: byte, p1: seq<byte>, p2: seq<byte>, p3: seq<byte>, p4: seq<byte>, p5: seq<byte>, p6: seq<byte>)
    requires |p1| == |p2| == |p3| == |p4| == 8 && |p5| == |p6| == 4
    ensures var d := [head] + p1 + p2 + p3 + p4 + p5 + p6;
            && |d| == FRAME_SIZE && d[0] == head
            && d[1..9] == p1 && d[9..17] == p2 && d[17..25] == p3 && d[25..33] == p4
            && d[33..37] == p5 && d[37..41] == p6
  {
  }

  /** The bytes of a packed event spell its own fields. */
  lemma PackFields(e: Event)
    requires Packable(e)
    ensures var d := Pack(e).value;
            |d| == FRAME_SIZE && Decode(d[0]) == Ok(e.op) && Fields(e.op, d) == e
  {
    Widths();
    BytesOfNumber(e.epoch, 8);
    BytesOfNumber(e.number, 8);
    BytesOfNumber(e.stamp, 8);
    BytesOfNumber(e.lease, 8);
    BytesOfNumber(Unsigned(e.a), 4);
    BytesOfNumber(Unsigned(e.b), 4);
    hide ToBytes, FromBytes, Pow256;
    FrameParts(Code(e.op), ToBytes(e.epoch, 8), ToBytes(e.number, 8), ToBytes(e.stamp, 8), ToBytes(e.lease, 8),
               ToBytes(Unsigned(e.a), 4), ToBytes(Unsigned(e.b), 4));
  }

  /** Where each field is, whatever the receiver does with it: a code, four unsigned numbers and two arguments in two's
      complement, each with its highest byte first. */
  lemma FrameLayout(e: Event)
    requires Packable(e)
    ensures var d := Pack(e).value;
            && |d| == 41
            && d[0] == (match e.op
                        case Move => 1 case Key => 2 case Button => 3 case Scroll => 4
                        case Reset => 5 case Activate => 6 case Heartbeat => 7 case Probe => 8)
            && FromBytes(d[1..9]) == e.epoch && FromBytes(d[9..17]) == e.number
            && FromBytes(d[17..25]) == e.stamp && FromBytes(d[25..33]) == e.lease
            && FromBytes(d[33..37]) == (if e.a < 0 then e.a + 0x1_0000_0000 else e.a)
            && FromBytes(d[37..41]) == (if e.b < 0 then e.b + 0x1_0000_0000 else e.b)
  {
    Widths();
    BytesOfNumber(e.epoch, 8);
    BytesOfNumber(e.number, 8);
    BytesOfNumber(e.stamp, 8);
    BytesOfNumber(e.lease, 8);
    BytesOfNumber(Unsigned(e.a), 4);
    BytesOfNumber(Unsigned(e.b), 4);
    hide ToBytes, FromBytes, Pow256;
    FrameParts(Code(e.op), ToBytes(e.epoch, 8), ToBytes(e.number, 8), ToBytes(e.stamp, 8), ToBytes(e.lease, 8),
               ToBytes(Unsigned(e.a), 4), ToBytes(Unsigned(e.b), 4));
  }

  /** Sending then receiving returns the event exactly when it is wire-valid. */
  lemma PackUnpack(e: Event)
    ensures Pack(e).Ok? <==> Packable(e)
    ensures (Pack(e).Ok? && Unpack(Pack(e).value) == Ok(e)) <==> WireValid(e)
  {
    if Packable(e) {
      PackFields(e);
    }
  }

  /** Every accepted frame is the one its event packs to, so no event has two spellings. */
  lemma UnpackPack(data: seq<byte>)
    requires Unpack(data).Ok?
    ensures WireValid(Unpack(data).value)
    ensures Pack(Unpack(data).value) == Ok(data)
  {
    var e := Unpack(data).value;
    Widths();
    NumberOfBytes(data[1..9]);
    NumberOfBytes(data[9..17]);
    NumberOfBytes(data[17..25]);
    NumberOfBytes(data[25..33]);
    NumberOfBytes(data[33..37]);
    NumberOfBytes(data[37..41]);
    assert data == [data[0]] + data[1..9] + data[9..17] + data[17..25] + data[25..33]
                   + data[33..37] + data[37..41];
    assert Code(e.op) == data[0];
  }

  /** A signed field within a bound, as the unsigned number its bytes spell. */
  predicate Within(n: nat, bound: nat) { n <= bound || n + bound >= 0x1_0000_0000 }

  /** Which frames are accepted, byte by byte: eight kinds; keys 1 to 254 and buttons 1 to 5, up or down; moves and
      scrolls within their limits; and everything else with zero arguments. */
  predicate Acceptable(data: seq<byte>)
    requires |data| == 41
  {
    var a, b := data[33..37], data[37..41];
    var flag := b == [0, 0, 0, 0] || b == [0, 0, 0, 1];
    if data[0] == 1 then Within(FromBytes(a), 1_000_000) && Within(FromBytes(b), 1_000_000)
    else if data[0] == 2 then a[..3] == [0, 0, 0] && 1 <= a[3] <= 254 && flag
    else if data[0] == 3 then a[..3] == [0, 0, 0] && 1 <= a[3] <= 5 && flag
    else if data[0] == 4 then Within(FromBytes(a), 12_000) && Within(FromBytes(b), 12_000)
    else 5 <= data[0] <= 8 && a == [0, 0, 0, 0] && b == [0, 0, 0, 0]
  }

  lemma FourBytes(bs: seq<byte>)
    requires |bs| == 4
    ensures var x0: int, x1: int, x2: int, x3: int := bs[0], bs[1], bs[2], bs[3];
            FromBytes(bs) == 0x100_0000 * x0 + 0x1_0000 * x1 + 0x100 * x2 + x3
  {
    var x0: int, x1: int, x2: int := bs[0], bs[1], bs[2];
    var b3, b2, b1 := Front(bs), Front(Front(bs)), [bs[0]];
    assert Front(b2) == b1 && Front(b1) == [];
    assert FromBytes(b1) == x0;
    assert FromBytes(b2) == 0x100 * x0 + x1;
    assert FromBytes(b3) == 0x1_0000 * x0 + 0x100 * x1 + x2;
  }

  /** A field below 256 has three zero bytes before the last. */
  lemma SmallField(bs: seq<byte>)
    requires |bs| == 4
    ensures FromBytes(bs) < 0x1_0000_0000
    ensures FromBytes(bs) < 256 <==> bs[..3] == [0, 0, 0]
    ensures FromBytes(bs) < 256 ==> FromBytes(bs) == bs[3]
    ensures FromBytes(bs) == 0 <==> bs == [0, 0, 0, 0]
    ensures FromBytes(bs) == 1 <==> bs == [0, 0, 0, 1]
  {
    FourBytes(bs);
    assert bs == bs[..3] + [bs[3]];
  }

  lemma AcceptedExactly(data: seq<byte>)
    ensures Unpack(data).Ok? <==> |data| == 41 && Acceptable(data)
  {
    if |data| == 41 {
      SmallField(data[33..37]);
      SmallField(data[37..41]);
      hide FromBytes;
    }
  }
}
