// SEID and TEID bit layouts (src/v_seid). Shifts are divisions and products by
// powers of two; an OR of fields that do not overlap is a sum.
module Seid {
  import opened Wrappers

  const NUM_PARTS: nat := 1024
  const SEID_FMT_VER: nat := 1
  const SEID_FMT: nat := 0x1000_0000_0000_0000    // 1 << 60
  const SEID_RSV: nat := 0x100_0000_0000_0000     // 1 << 56
  const SEID_PART: nat := 0x4000_0000_0000        // 1 << 46
  const TEID_RSV: nat := 0x8000_0000              // 1 << 31
  const TEID_PART: nat := 0x20_0000               // 1 << 21
  const U32: nat := 0x1_0000_0000
  const U64: nat := 0x1_0000_0000_0000_0000

  function SeidEncode(part: nat, local: nat): (r: Option<nat>)
    ensures r.Some? <==> part < NUM_PARTS && local < SEID_PART
  {
    if part >= NUM_PARTS then None
    else if local > SEID_PART - 1 then None
    else Some(SEID_FMT_VER * SEID_FMT + part * SEID_PART + local)
  }

  function SeidPart(seid: nat): nat {
    (seid / SEID_PART) % NUM_PARTS
  }

  function SeidLocal(seid: nat): nat {
    seid % SEID_PART
  }

  // The three checks of v_seid_validate(), in their order; None is RET_CODE_ERR.
  function SeidValidate(seid: nat): Option<nat> {
    if seid / SEID_FMT != SEID_FMT_VER then None
    else if (seid / SEID_RSV) % 16 != 0 then None
    else
      var part := SeidPart(seid);
      if part >= NUM_PARTS then None else Some(part)
  }

  function TeidEncode(part: nat, local: nat): (r: Option<nat>)
    ensures r.Some? <==> part < NUM_PARTS && 0 < local < TEID_PART
  {
    if part >= NUM_PARTS then None
    else if local == 0 || local > TEID_PART - 1 then None
    else Some(part * TEID_PART + local)
  }

  function TeidPart(teid: nat): nat {
    (teid / TEID_PART) % NUM_PARTS
  }

  function TeidLocal(teid: nat): nat {
    teid % TEID_PART
  }

  function TeidValidate(teid: nat): Option<nat> {
    if teid == 0 then None
    else if teid / TEID_RSV != 0 then None
    else
      var part := TeidPart(teid);
      if part >= NUM_PARTS then None else Some(part)
  }

  // Decoding gives back exactly the fields that were packed, and the packed
  // value fits the 64-bit word and is never 0, the "ring is dry" value.
  lemma SeidRoundTrip(part: nat, local: nat)
    requires part < NUM_PARTS && local < SEID_PART
    ensures var s := SeidEncode(part, local).value;
            SeidPart(s) == part && SeidLocal(s) == local && 0 < s < U64
            && SeidValidate(s) == Some(part)
  {
  }

  // Validation accepts exactly the image of encoding.
  lemma SeidValidateIsImage(seid: nat)
    requires seid < U64
    ensures SeidValidate(seid).Some?
            <==> exists part: nat, local: nat :: SeidEncode(part, local) == Some(seid)
    ensures SeidValidate(seid).Some? ==>
              SeidEncode(SeidValidate(seid).value, SeidLocal(seid)) == Some(seid)
  {
    if SeidValidate(seid).Some? {
      assert seid / SEID_RSV == 16;
      assert SeidEncode(SeidPart(seid), SeidLocal(seid)) == Some(seid);
    }
    forall part: nat, local: nat | SeidEncode(part, local) == Some(seid)
      ensures SeidValidate(seid).Some?
    {
      SeidRoundTrip(part, local);
    }
  }

  lemma TeidRoundTrip(part: nat, local: nat)
    requires part < NUM_PARTS && 0 < local < TEID_PART
    ensures var t := TeidEncode(part, local).value;
            TeidPart(t) == part && TeidLocal(t) == local && 0 < t < TEID_RSV
            && TeidValidate(t) == Some(part)
  {
  }

  // TEID validation is wider than encoding: it also lets through local index 0
  // of every partition but the first. It equals the image of encode exactly on
  // the TEIDs whose local index is not 0.
  lemma TeidValidateVersusImage(teid: nat)
    requires teid < U32
    ensures (exists part: nat, local: nat :: TeidEncode(part, local) == Some(teid))
            <==> TeidValidate(teid).Some? && TeidLocal(teid) != 0
    ensures TeidValidate(teid).Some? && TeidLocal(teid) == 0
            <==> exists part: nat :: 0 < part < NUM_PARTS && teid == part * TEID_PART
  {
    if TeidValidate(teid).Some? {
      assert teid / TEID_PART < NUM_PARTS;
      if TeidLocal(teid) != 0 {
        assert TeidEncode(TeidPart(teid), TeidLocal(teid)) == Some(teid);
      } else {
        assert teid == TeidPart(teid) * TEID_PART;
      }
    }
    forall part: nat, local: nat | TeidEncode(part, local) == Some(teid)
      ensures TeidValidate(teid).Some? && TeidLocal(teid) != 0
    {
      TeidRoundTrip(part, local);
    }
    forall part: nat | 0 < part < NUM_PARTS && teid == part * TEID_PART
      ensures TeidValidate(teid).Some? && TeidLocal(teid) == 0
    {
      assert teid / TEID_PART == part;
    }
  }
}
