/** The notification payload of the vehicle-data producer: the four counters
    that notify() advances once per send cycle, and the 4-byte event it
    emits from them.

    The counters are declared outside VehicleData_producer.cpp (cluster.h is
    not part of this model), so their width is unknown.  They are modelled as
    unbounded naturals; the only truncation is the uint8_t cast that writes
    each counter into a byte of the payload. */
module Payload {

  /** vsomeip::byte_t, an unsigned 8-bit value. */
  type Byte = b: int | 0 <= b < 256

  /** Number of bytes in its_data, the buffer of one event. */
  const PayloadLength: nat := 4

  /** The length handed to set_data: sizeof(its_size), the size of a uint32_t. */
  const SizeOfU32: nat := 4

  /** The four counters, in payload order.  `kind` is the counter the source
      calls `type`, a reserved word in Dafny. */
  datatype Counters = Counters(gear: nat, kind: nat, value: nat, speed: nat)

  /** The values notify() assigns before its send loop. */
  const Start: Counters := Counters(12, 1, 12, 60)

  /** static_cast<uint8_t>: keep the low eight bits. */
  function ToByte(x: nat): Byte
  {
    x % 256
  }

  /** Arithmetic facts about the cast, kept apart so that the lemmas below
      need not rediscover them. */
  lemma ByteOfSmall(x: nat)
    requires x < 256
    ensures ToByte(x) == x
  {
  }

  lemma ByteOfSuccessor(x: nat)
    ensures ToByte(x + 1) == (ToByte(x) + 1) % 256
  {
  }

  lemma KindSuccessor(k: nat)
    ensures (if k % 4 + 1 == 4 then 0 else k % 4 + 1) == (k + 1) % 4
  {
  }

  /** The bytes written into its_data, in the order gear, type, value, speed,
      with no header and no length prefix. */
  function Encode(c: Counters): (p: seq<Byte>)
    ensures |p| == PayloadLength == SizeOfU32
  {
    [ToByte(c.gear), ToByte(c.kind), ToByte(c.value), ToByte(c.speed)]
  }

  /** How a subscriber reads the four fields back out of an event. */
  function Decode(p: seq<Byte>): (c: Counters)
    requires |p| == PayloadLength
    ensures c.gear < 256 && c.kind < 256 && c.value < 256 && c.speed < 256
  {
    Counters(p[0], p[1], p[2], p[3])
  }

  /** Each counter reduced to the eight bits that fit in its byte. */
  function LowBytes(c: Counters): Counters
  {
    Counters(c.gear % 256, c.kind % 256, c.value % 256, c.speed % 256)
  }

  /** The counter update at the end of one send cycle: every counter goes up
      by one, and `type` goes back to 0 when it reaches 4. */
  function Next(c: Counters): (n: Counters)
    ensures n.gear == c.gear + 1 && n.value == c.value + 1 && n.speed == c.speed + 1
    ensures c.kind < 3 ==> n.kind == c.kind + 1
    ensures c.kind == 3 ==> n.kind == 0
  {
    var kind := c.kind + 1;
    Counters(c.gear + 1, if kind == 4 then 0 else kind, c.value + 1, c.speed + 1)
  }

  /** The counters after k send cycles of one run of notify(). */
  function CountersAfter(k: nat): Counters
  {
    if k == 0 then Start else Next(CountersAfter(k - 1))
  }

  /** The first n events one run of notify() emits, oldest first. */
  function Payloads(n: nat): (ps: seq<seq<Byte>>)
    ensures |ps| == n
  {
    if n == 0 then [] else Payloads(n - 1) + [Encode(CountersAfter(n - 1))]
  }

  /** The counters after k cycles in closed form: gear, value and speed have
      gone up by k, and type has gone round the cycle 0..3 k times from 1. */
  lemma {:induction false} CountersAfterClosedForm(k: nat)
    ensures CountersAfter(k) == Counters(12 + k, (1 + k) % 4, 12 + k, 60 + k)
  {
    if k > 0 {
      CountersAfterClosedForm(k - 1);
      KindSuccessor(k - 1);
    }
  }

  /** type stays in 0..3 after every send-cycle update. */
  lemma KindInRange(k: nat)
    ensures CountersAfter(k).kind < 4
  {
    CountersAfterClosedForm(k);
  }

  /** Every send cycle advances gear, value and speed by exactly one, and
      their bytes by one modulo 256. */
  lemma CycleAdvancesByOne(k: nat)
    ensures var c, n := CountersAfter(k), CountersAfter(k + 1);
      n.gear == c.gear + 1 && n.value == c.value + 1 && n.speed == c.speed + 1 &&
      ToByte(n.gear) == (ToByte(c.gear) + 1) % 256 &&
      ToByte(n.value) == (ToByte(c.value) + 1) % 256 &&
      ToByte(n.speed) == (ToByte(c.speed) + 1) % 256
  {
    var c := CountersAfter(k);
    ByteOfSuccessor(c.gear);
    ByteOfSuccessor(c.value);
    ByteOfSuccessor(c.speed);
  }

  /** The k-th event of a run of notify() is the encoding of the counters
      after k cycles: events are emitted before the update. */
  lemma {:induction false} PayloadAt(n: nat, k: nat)
    requires k < n
    ensures Payloads(n)[k] == Encode(CountersAfter(k))
  {
    if k < n - 1 {
      PayloadAt(n - 1, k);
    }
  }

  /** The k-th event of a run of notify(), byte by byte. */
  lemma EventAt(k: nat)
    ensures Encode(CountersAfter(k)) == [ToByte(12 + k), (1 + k) % 4, ToByte(12 + k), ToByte(60 + k)]
  {
    CountersAfterClosedForm(k);
    ByteOfSmall((1 + k) % 4);
  }

  /** The first four events from a fresh notify(); type goes 1, 2, 3 and then
      back to 0. */
  lemma FirstFourPayloads()
    ensures Payloads(4) == [[12, 1, 12, 60], [13, 2, 13, 61], [14, 3, 14, 62], [15, 0, 15, 63]]
  {
    PayloadAt(4, 0);
    EventAt(0);
    PayloadAt(4, 1);
    EventAt(1);
    PayloadAt(4, 2);
    EventAt(2);
    PayloadAt(4, 3);
    EventAt(3);
  }

  /** Decoding an event gives back each counter modulo 256. */
  lemma DecodeEncode(c: Counters)
    ensures Decode(Encode(c)) == LowBytes(c)
  {
  }

  /** Decoding an event and encoding it again gives the same bytes. */
  lemma EncodeDecode(p: seq<Byte>)
    requires |p| == PayloadLength
    ensures Encode(Decode(p)) == p
  {
  }

  /** Keeping only the low byte of each counter does not change the event. */
  lemma EncodeOfLowBytes(c: Counters)
    ensures Encode(LowBytes(c)) == Encode(c)
  {
    ByteOfSmall(c.gear % 256);
    ByteOfSmall(c.kind % 256);
    ByteOfSmall(c.value % 256);
    ByteOfSmall(c.speed % 256);
  }

  /** An event only carries the low byte of each counter: counters that agree
      modulo 256 give the same event, whatever the counters' declared width. */
  lemma EncodeSeesLowBytesOnly(c: Counters, d: Counters)
    requires LowBytes(c) == LowBytes(d)
    ensures Encode(c) == Encode(d)
  {
    EncodeOfLowBytes(c);
    EncodeOfLowBytes(d);
  }

  /** The counter update if the counters were declared uint8_t, so that
      gear, value and speed wrap at 256. */
  function Next8(c: Counters): Counters
  {
    var kind := (c.kind + 1) % 256;
    Counters((c.gear + 1) % 256, if kind == 4 then 0 else kind, (c.value + 1) % 256, (c.speed + 1) % 256)
  }

  function Counters8After(k: nat): Counters
  {
    if k == 0 then Start else Next8(Counters8After(k - 1))
  }

  /** One update commutes with keeping the low bytes, while type is in range. */
  lemma NextKeepsLowBytes(c: Counters)
    requires c.kind < 4
    ensures LowBytes(Next(c)) == Next8(LowBytes(c))
  {
    ByteOfSuccessor(c.gear);
    ByteOfSuccessor(c.value);
    ByteOfSuccessor(c.speed);
    ByteOfSmall(c.kind);
    ByteOfSmall(c.kind + 1);
  }

  /** Truncating the counters at every update or only when they are encoded
      gives the same low bytes. */
  lemma {:induction false} LowBytesAfter(k: nat)
    ensures LowBytes(CountersAfter(k)) == Counters8After(k)
  {
    if k > 0 {
      var c := CountersAfter(k - 1);
      LowBytesAfter(k - 1);
      KindInRange(k - 1);
      NextKeepsLowBytes(c);
      assert CountersAfter(k) == Next(c);
      assert Counters8After(k) == Next8(LowBytes(c));
    }
  }

  /** With 8-bit counters notify() emits the same events as with unbounded
      ones: the unknown declared width does not show in the payload. */
  lemma WidthDoesNotShow(k: nat)
    ensures Encode(CountersAfter(k)) == Encode(Counters8After(k))
  {
    LowBytesAfter(k);
    EncodeOfLowBytes(CountersAfter(k));
  }
}
