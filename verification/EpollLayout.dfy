/** A layout that the epoll contracts admit: every field bit by bit, events padded to be the larger. */
module EpollLayouts {
  import opened Vocabulary
  import opened Events
  import opened EpollTranslations
  import opened EpollBatches

  function Pow2(w: nat): nat { if w == 0 then 1 else 2 * Pow2(w - 1) }

  /** The low `w` bits of `x`, high bit first, one byte for each. */
  function Bits(x: nat, w: nat): (bits: seq<Byte>)
    ensures |bits| == w
  {
    if w == 0 then [] else Bits(x / 2, w - 1) + [if x % 2 == 1 then 1 else 0]
  }

  function ValueOf(bits: seq<Byte>): nat {
    if bits == [] then 0 else 2 * ValueOf(bits[..|bits| - 1]) + if bits[|bits| - 1] == 1 then 1 else 0
  }

  lemma {:induction false} BitsRoundTrip(x: nat, w: nat)
    requires x < Pow2(w)
    ensures ValueOf(Bits(x, w)) == x
  {
    if w > 0 {
      BitsRoundTrip(x / 2, w - 1);
      assert Bits(x, w)[..w - 1] == Bits(x / 2, w - 1);
    }
  }

  lemma {:induction false} Pow2Sum(a: nat, b: nat)
    ensures Pow2(a + b) == Pow2(a) * Pow2(b)
  {
    if a > 0 { Pow2Sum(a - 1, b); }
  }

  lemma {:induction false} HalfWordFits()
    ensures Pow2(16) == 65536
  {
    assert Pow2(8) == 256;
    Pow2Sum(8, 8);
  }

  lemma {:induction false} WordsFit()
    ensures Pow2(32) == U32_MAX + 1 && Pow2(64) == U64_MAX + 1
  {
    var half, word := 16, 32;
    HalfWordFits();
    Pow2Sum(half, half);
    Pow2Sum(word, word);
  }

  const HINTS: seq<Hint> := [Readable, Writable, ReadClosed, WriteClosed, ErrorHint]

  function PutReadiness(readiness: Readiness): (bytes: seq<Byte>)
    ensures |bytes| == 5
  {
    seq(5, i requires 0 <= i < 5 => if HINTS[i] in readiness then 1 else 0)
  }

  function GetReadiness(bytes: seq<Byte>): Readiness {
    set i | 0 <= i < 5 && i < |bytes| && bytes[i] == 1 :: HINTS[i]
  }

  lemma {:induction false} ReadinessRoundTrip(readiness: Readiness)
    ensures GetReadiness(PutReadiness(readiness)) == readiness
  {
    forall hint: Hint ensures hint in GetReadiness(PutReadiness(readiness)) <==> hint in readiness {
      var i := match hint
               case Readable => 0 case Writable => 1 case ReadClosed => 2 case WriteClosed => 3 case ErrorHint => 4;
      assert HINTS[i] == hint && (PutReadiness(readiness)[i] == 1 <==> hint in readiness);
    }
  }

  /** One event: a tag, the key, the readiness, and padding to 128 bytes. */
  function Pack(tag: Byte, key: U64, readiness: Readiness): (bytes: seq<Byte>)
    ensures |bytes| == 128
  {
    [tag] + Bits(key, 64) + PutReadiness(readiness) + seq(58, _ => 0)
  }

  function PutEvent(event: Event): seq<Byte> {
    match event
    case Resource(key, readiness) => Pack(0, key, readiness)
    case Wake(key) => Pack(1, key, {})
  }

  /** The word in a region that holds one, and zero otherwise. */
  function Word(bytes: seq<Byte>, lo: nat, hi: nat, max: nat): (x: nat)
    ensures x <= max
  {
    if lo <= hi <= |bytes| && ValueOf(bytes[lo..hi]) <= max then ValueOf(bytes[lo..hi]) else 0
  }

  function GetEvent(bytes: seq<Byte>): Event {
    if |bytes| == 128 && bytes[0] == 0 then Resource(Word(bytes, 1, 65, U64_MAX), GetReadiness(bytes[65..70]))
    else Wake(Word(bytes, 1, 65, U64_MAX))
  }

  function PutNative(record: RawRecord): seq<Byte> { Bits(record.flags, 32) + Bits(record.token, 64) }

  function GetNative(bytes: seq<Byte>): RawRecord {
    RawRecord(Word(bytes, 0, 32, U32_MAX), Word(bytes, 32, 96, U64_MAX))
  }

  function BitLayout(): Layout { Layout(128, 1, 96, 1, PutEvent, GetEvent, PutNative, GetNative) }

  /** The parts of a concatenation, found again by their places. */
  lemma {:induction false} PartsReadBack(tag: Byte, a: seq<Byte>, b: seq<Byte>, rest: seq<Byte>)
    ensures var bytes := [tag] + a + b + rest;
            && bytes[0] == tag && bytes[1..1 + |a|] == a && bytes[1 + |a|..1 + |a| + |b|] == b
  {
  }

  lemma {:induction false} PackRoundTrip(tag: Byte, key: U64, readiness: Readiness)
    ensures var bytes := Pack(tag, key, readiness);
            bytes[0] == tag && Word(bytes, 1, 65, U64_MAX) == key && GetReadiness(bytes[65..70]) == readiness
  {
    WordsFit();
    BitsRoundTrip(key, 64);
    ReadinessRoundTrip(readiness);
    PartsReadBack(tag, Bits(key, 64), PutReadiness(readiness), seq(58, _ => 0));
  }

  lemma {:induction false} EventRoundTrip(e: Event)
    ensures |PutEvent(e)| == 128 && GetEvent(PutEvent(e)) == e
  {
    match e
    case Resource(key, readiness) => PackRoundTrip(0, key, readiness);
    case Wake(key) => PackRoundTrip(1, key, {});
  }

  lemma {:induction false} NativeRoundTrip(r: RawRecord)
    ensures |PutNative(r)| == 96 && GetNative(PutNative(r)) == r
  {
    WordsFit();
    BitsRoundTrip(r.flags, 32);
    BitsRoundTrip(r.token, 64);
    assert PutNative(r)[0..32] == Bits(r.flags, 32) && PutNative(r)[32..96] == Bits(r.token, 64);
  }

  /** Valid layouts exist, and one of them has the event at least as large as the native record. */
  lemma {:induction false} BitLayoutIsValid()
    ensures BitLayout().Valid() && BitLayout().nativeSize <= BitLayout().eventSize
  {
    forall e: Event ensures |PutEvent(e)| == 128 && GetEvent(PutEvent(e)) == e { EventRoundTrip(e); }
    forall r: RawRecord ensures |PutNative(r)| == 96 && GetNative(PutNative(r)) == r { NativeRoundTrip(r); }
  }
}
