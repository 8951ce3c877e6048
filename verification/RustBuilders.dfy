/** The runtime's preimage builders: fixed buffers, zeroed and then filled in place at offsets. */
module RustBuilders {
  import opened Results
  import opened Bytes
  import opened Buffers
  import opened Protocol
  import opened Preimages

  method BuildRequesterPreimage(s: RequesterSecret, nonce: Bytes32, round: RoundId)
    returns (r: Result<seq<Byte>, CommitmentError>)
    ensures r == RequesterPreimage(s, nonce, round)
  {
    hide Padded, U32Bytes, U64Bytes, Ascii;
    var cap := s.required.text;
    if cap == [] {
      return Failure(InvalidField(RequiredCapability));
    }
    if |cap| > MAX_CAPABILITY_BYTES {
      return Failure(CapabilityTooLong(|cap|, MAX_CAPABILITY_BYTES));
    }
    var domain := Ascii(REQUESTER_DOMAIN);
    var buf := new Byte[REQUESTER_PREIMAGE_LEN](i => 0);
    ZeroedBuffer(buf[..]);
    ghost var w: seq<Byte> := [];
    CopyFromSlice(buf, 0, U32Bytes(|domain|), w);
    w := U32Bytes(31);
    assert [] + w == w;
    CopyFromSlice(buf, 4, domain, w);
    w := w + domain;
    PutByte(w, 1, REQUESTER_PREIMAGE_LEN);
    buf[35] := 1;
    w := w + [1];
    CopyFromSlice(buf, 36, U64Bytes(round), w);
    w := w + U64Bytes(round);
    CopyFromSlice(buf, 44, s.nodeId.bytes, w);
    w := w + s.nodeId.bytes;
    PutByte(w, 0, REQUESTER_PREIMAGE_LEN);
    buf[76] := 0;
    w := w + [0];
    assert w == RequesterHeader(round, s.nodeId);
    CopyFromSlice(buf, 77, U32Bytes(|cap|), w);
    w := w + U32Bytes(|cap|);
    CopyFromSlice(buf, 81, cap, w);
    SkipPadding(w, cap, MAX_CAPABILITY_BYTES, REQUESTER_PREIMAGE_LEN);
    w := w + Padded(cap, MAX_CAPABILITY_BYTES);
    assert w == RequesterHeader(round, s.nodeId) + TagSlot(s.required);
    CopyFromSlice(buf, 113, U64Bytes(s.budgetCents), w);
    w := w + U64Bytes(s.budgetCents);
    CopyFromSlice(buf, 121, nonce, w);
    w := w + nonce;
    FullBuffer(w);
    assert buf[..] == RequesterLayout(RequesterContentOf(s, nonce, round));
    return Success(buf[..]);
  }

  /** The slots of the leading `n` claims, one after the other. */
  ghost function LeadingSlots(claims: seq<CapabilityTag>, n: nat): (b: seq<Byte>)
    requires n <= |claims| && forall j :: 0 <= j < |claims| ==> FitsSlot(claims[j])
    ensures |b| == SLOT_LEN * n
  {
    if n == 0 then [] else LeadingSlots(claims, n - 1) + TagSlot(claims[n - 1])
  }

  /** The first `n` slots, used or not. */
  ghost function FirstSlots(claims: seq<CapabilityTag>, n: nat): (b: seq<Byte>)
    requires forall j :: 0 <= j < |claims| ==> FitsSlot(claims[j])
    ensures |b| == SLOT_LEN * n
  {
    if n == 0 then [] else FirstSlots(claims, n - 1) + ClaimSlot(claims, n - 1)
  }

  lemma {:induction false} UnusedSlotsPad(claims: seq<CapabilityTag>, n: nat)
    requires forall j :: 0 <= j < |claims| ==> FitsSlot(claims[j])
    ensures FirstSlots(claims, n) == if n <= |claims| then LeadingSlots(claims, n)
                                     else LeadingSlots(claims, |claims|) + Zeros(SLOT_LEN * (n - |claims|))
  {
    hide TagSlot, FitsSlot;
    if n > 0 {
      UnusedSlotsPad(claims, n - 1);
    }
  }

  lemma FourSlots(claims: seq<CapabilityTag>)
    requires forall j :: 0 <= j < |claims| ==> FitsSlot(claims[j])
    ensures FirstSlots(claims, 4) == ClaimSlots(claims)
  {
    hide ClaimSlot, FitsSlot;
    assert FirstSlots(claims, 1) == [] + ClaimSlot(claims, 0) == ClaimSlot(claims, 0);
    assert FirstSlots(claims, 2) == FirstSlots(claims, 1) + ClaimSlot(claims, 1);
    assert FirstSlots(claims, 3) == FirstSlots(claims, 2) + ClaimSlot(claims, 2);
  }

  /** Leaving the other slots alone pads the claims to the four slots of the layout. */
  lemma SlotsPadded(claims: seq<CapabilityTag>)
    requires |claims| <= MAX_CAPABILITY_CLAIMS && forall j :: 0 <= j < |claims| ==> FitsSlot(claims[j])
    ensures Padded(LeadingSlots(claims, |claims|), 144) == ClaimSlots(claims)
  {
    hide FitsSlot, ClaimSlots, FirstSlots, LeadingSlots;
    UnusedSlotsPad(claims, 4);
    FourSlots(claims);
    if |claims| == 4 {
      assert LeadingSlots(claims, 4) + Zeros(0) == LeadingSlots(claims, 4);
    }
  }

  method CheckClaims(claims: seq<CapabilityTag>) returns (refusal: Option<CommitmentError>)
    ensures refusal == FirstClaimRefusal(claims)
  {
    for i := 0 to |claims|
      invariant FirstClaimRefusal(claims[i..]) == FirstClaimRefusal(claims)
    {
      assert claims[i..][0] == claims[i] && claims[i..][1..] == claims[i + 1..];
      var bytes := claims[i].text;
      if bytes == [] {
        return Some(InvalidField(CapabilityClaim));
      }
      if |bytes| > MAX_CAPABILITY_BYTES {
        return Some(CapabilityTooLong(|bytes|, MAX_CAPABILITY_BYTES));
      }
    }
    return None;
  }

  /** Fills the claim slots from offset 80 on. */
  method FillSlots(buf: array<Byte>, claims: seq<CapabilityTag>, ghost head: seq<Byte>)
    requires buf.Length == PROVIDER_PREIMAGE_LEN && |head| == 80
    requires |claims| <= MAX_CAPABILITY_CLAIMS && forall j :: 0 <= j < |claims| ==> FitsSlot(claims[j])
    requires buf[..] == Padded(head, PROVIDER_PREIMAGE_LEN)
    modifies buf
    ensures buf[..] == Padded(head + ClaimSlots(claims), PROVIDER_PREIMAGE_LEN)
  {
    hide FitsSlot, Padded, U32Bytes, ClaimSlots;
    assert head + [] == head;
    for idx := 0 to |claims|
      invariant buf[..] == Padded(head + LeadingSlots(claims, idx), PROVIDER_PREIMAGE_LEN)
    {
      var slot, bytes := 80 + idx * SLOT_LEN, claims[idx].text;
      assert FitsSlot(claims[idx]);
      TagFits(claims[idx]);
      ghost var w := head + LeadingSlots(claims, idx);
      CopyFromSlice(buf, slot, U32Bytes(|bytes|), w);
      w := w + U32Bytes(|bytes|);
      CopyFromSlice(buf, slot + 4, bytes, w);
      SkipPadding(w, bytes, MAX_CAPABILITY_BYTES, PROVIDER_PREIMAGE_LEN);
      assert w + Padded(bytes, MAX_CAPABILITY_BYTES) == head + LeadingSlots(claims, idx + 1);
    }
    SkipPadding(head, LeadingSlots(claims, |claims|), 144, PROVIDER_PREIMAGE_LEN);
    SlotsPadded(claims);
  }

  lemma TagFits(tag: CapabilityTag)
    requires FitsSlot(tag)
    ensures 0 < |tag.text| <= MAX_CAPABILITY_BYTES
  {
  }

  method BuildProviderPreimage(s: ProviderSecret, nonce: Bytes32, round: RoundId)
    returns (r: Result<seq<Byte>, CommitmentError>)
    ensures r == ProviderPreimage(s, nonce, round)
  {
    hide FitsSlot, ClaimSlots, Padded, U32Bytes, U64Bytes, Ascii;
    if s.claims == [] {
      return Failure(InvalidField(CapabilityClaims));
    }
    if |s.claims| > MAX_CAPABILITY_CLAIMS {
      return Failure(TooManyClaims(|s.claims|, MAX_CAPABILITY_CLAIMS));
    }
    var refusal := CheckClaims(s.claims);
    if refusal.Some? {
      return Failure(refusal.value);
    }
    var domain := Ascii(PROVIDER_DOMAIN);
    var buf := new Byte[PROVIDER_PREIMAGE_LEN](i => 0);
    ZeroedBuffer(buf[..]);
    ghost var w: seq<Byte> := [];
    CopyFromSlice(buf, 0, U32Bytes(|domain|), w);
    w := U32Bytes(30);
    assert [] + w == w;
    CopyFromSlice(buf, 4, domain, w);
    w := w + domain;
    PutByte(w, 1, PROVIDER_PREIMAGE_LEN);
    buf[34] := 1;
    w := w + [1];
    CopyFromSlice(buf, 35, U64Bytes(round), w);
    w := w + U64Bytes(round);
    CopyFromSlice(buf, 43, s.nodeId.bytes, w);
    w := w + s.nodeId.bytes;
    PutByte(w, 1, PROVIDER_PREIMAGE_LEN);
    buf[75] := 1;
    w := w + [1];
    assert w == ProviderHeader(round, s.nodeId);
    CopyFromSlice(buf, 76, U32Bytes(|s.claims|), w);
    w := w + U32Bytes(|s.claims|);
    FillSlots(buf, s.claims, w);
    w := w + ClaimSlots(s.claims);
    CopyFromSlice(buf, 224, U64Bytes(s.reservationCents), w);
    w := w + U64Bytes(s.reservationCents);
    CopyFromSlice(buf, 232, nonce, w);
    w := w + nonce;
    FullBuffer(w);
    assert buf[..] == ProviderLayout(ProviderContentOf(s, nonce, round));
    return Success(buf[..]);
  }
}
