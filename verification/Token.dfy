/** Nonzero 64-bit tokens for exact slot generations: the generation in the high half,
    the slot index plus one in the low half. */
module Token {
  import opened Vocabulary

  const HALF: int := 0x1_0000_0000
  const MAX_REGISTRATIONS: int := U32_MAX
  const MAX_GENERATION: int := U32_MAX
  /** The token reserved for the wake source. */
  const WAKE_TOKEN: U64 := 0

  type Generation = g: int | 1 <= g <= MAX_GENERATION witness 1

  function Encode(index: U32, generation: Generation): Option<RegistrationId> {
    if index + 1 > U32_MAX then None else Some(generation * HALF + (index + 1))
  }

  function Decode(id: RegistrationId): Result<(U32, Generation), Error> {
    var slot := id % HALF;
    var generation := id / HALF;
    if id == 0 then Err(Stale(id))
    else if slot == 0 then Err(Stale(id))
    else if generation == 0 then Err(Stale(id))
    else Ok((slot - 1, generation))
  }

  /** The unchecked split of an id the library encoded itself; the index half wraps. */
  function Parts(id: RegistrationId): (U32, U32) {
    ((id % HALF + U32_MAX) % HALF, id / HALF)
  }

  /** Encoding fails exactly at the one index whose successor does not fit; otherwise decoding
      undoes it, the unchecked split agrees, and the token is not the wake token. */
  lemma EncodeRoundTrip(index: U32, generation: Generation)
    ensures Encode(index, generation).None? <==> index == U32_MAX
    ensures index < U32_MAX ==>
              var id := Encode(index, generation).value;
              && Decode(id) == Ok((index, generation))
              && Parts(id) == (index, generation)
              && id != WAKE_TOKEN
  {
    if index < U32_MAX {
      var id := generation * HALF + (index + 1);
      assert id / HALF == generation && id % HALF == index + 1;
    }
  }

  /** Every token that decodes is the encoding of what it decodes to, so nothing but library-made
      tokens decodes, and two tokens that decode alike are equal. */
  lemma DecodeRoundTrip(id: RegistrationId)
    ensures Decode(id).Ok? ==>
              var (index, generation) := Decode(id).value;
              index < U32_MAX && Encode(index, generation) == Some(id)
    ensures Decode(id).Err? ==> Decode(id) == Err(Stale(id))
  {
    assert id == (id / HALF) * HALF + id % HALF;
  }

  /** The shift and the bitwise or of the encoding are the multiplication and the addition above,
      and the mask and the shift of the decoding recover the halves. */
  lemma PackingIsBitExact(slot: bv64, generation: bv64)
    requires slot <= 0xFFFF_FFFF && generation <= 0xFFFF_FFFF
    ensures (generation << 32) | slot == generation * 0x1_0000_0000 + slot
    ensures ((generation << 32) | slot) & 0xFFFF_FFFF == slot
    ensures ((generation << 32) | slot) >> 32 == generation
  {
  }

  lemma EncodeInjective(i: U32, g: Generation, j: U32, h: Generation)
    requires i < U32_MAX && Encode(i, g) == Encode(j, h)
    ensures i == j && g == h
  {
    EncodeRoundTrip(i, g);
    EncodeRoundTrip(j, h);
  }
}
