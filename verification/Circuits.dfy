/**
  The acceptance circuits and the public inputs fed to them: the two builders agree byte for byte,
  and acceptance against a commitment pins down everything the commitment is about.
 */
module Circuits {
  import opened Results
  import opened Bytes
  import opened Buffers
  import opened Protocol
  import opened Preimages
  import RustBuilders
  import opened NoirBuilders

  datatype BridgeError =
    | TooManyClaims(actual: nat, limit: nat)
    | CapabilityTooLong(actual: nat, limit: nat)
    | CommitmentRefused(error: CommitmentError)

  // ---------------------------------------------------------------------
  // The requester's circuit
  // ---------------------------------------------------------------------

  datatype RequesterInputs = RequesterInputs(
    round: RoundId, nodeId: Bytes32, commitment: Bytes32, cap: Bytes32, capLen: U32, threshold: U64)

  /** The circuit's constraints, as a predicate on public inputs and witness. */
  predicate RequesterAccepts(c: Crypto, pub: RequesterInputs, budget: U64, nonce: Bytes32) {
    && pub.capLen > 0 && pub.capLen <= MAX_CAPABILITY_BYTES
    && budget >= pub.threshold
    && var actual := c.blake2s(RequesterBytes(pub.round, pub.nodeId, pub.cap, pub.capLen, budget, nonce));
       forall i :: 0 <= i < 32 ==> actual[i] == pub.commitment[i]
  }

  /** The public inputs for an honest requester. */
  function RequesterInputsOf(c: Crypto, s: RequesterSecret, nonce: Bytes32, round: RoundId, threshold: U64)
    : Result<RequesterInputs, BridgeError>
  {
    var cap := s.required.text;
    if |cap| > MAX_CAPABILITY_BYTES then Failure(BridgeError.CapabilityTooLong(|cap|, MAX_CAPABILITY_BYTES))
    else
      match RequesterPreimage(s, nonce, round)
      case Failure(e) => Failure(CommitmentRefused(e))
      case Success(preimage) =>
        Success(RequesterInputs(round, s.nodeId.bytes, c.blake2s(preimage), Padded(cap, 32), |cap|, threshold))
  }

  method RequesterInputsFromIntent(c: Crypto, s: RequesterSecret, nonce: Bytes32, round: RoundId, threshold: U64)
    returns (r: Result<RequesterInputs, BridgeError>)
    ensures r == RequesterInputsOf(c, s, nonce, round, threshold)
  {
    var cap := s.required.text;
    if |cap| > MAX_CAPABILITY_BYTES {
      return Failure(BridgeError.CapabilityTooLong(|cap|, MAX_CAPABILITY_BYTES));
    }
    var padded := new Byte[32](i => 0);
    CopyFromSlice(padded, 0, cap, []);
    assert [] + cap == cap;
    var preimage := RustBuilders.BuildRequesterPreimage(s, nonce, round);
    if preimage.Failure? {
      return Failure(CommitmentRefused(preimage.error));
    }
    return Success(RequesterInputs(round, s.nodeId.bytes, c.blake2s(preimage.value), padded[..], |cap|, threshold));
  }

  /** Whatever the runtime's builder accepts, the circuit's builder turns the padded inputs into the same bytes. */
  lemma RequesterParity(c: Crypto, s: RequesterSecret, nonce: Bytes32, round: RoundId, threshold: U64)
    requires RequesterPreimage(s, nonce, round).Success?
    ensures var inputs := RequesterInputsOf(c, s, nonce, round, threshold);
      && inputs.Success?
      && RequesterPreimage(s, nonce, round).value ==
         RequesterBytes(inputs.value.round, inputs.value.nodeId, inputs.value.cap, inputs.value.capLen, s.budgetCents,
                        nonce)
  {
    var tag := s.required;
    var h, b := RequesterHeader(round, s.nodeId), U64Bytes(s.budgetCents);
    assert NodeId(s.nodeId.bytes) == s.nodeId;
    assert h + (U32Bytes(|tag.text|) + Padded(tag.text, 32)) + b + nonce
        == h + U32Bytes(|tag.text|) + Padded(tag.text, 32) + b + nonce;
  }

  /** The fields of the circuit's bytes sit at fixed places. */
  lemma RequesterFields(round: RoundId, nodeId: Bytes32, cap: Bytes32, capLen: U32, budget: U64, nonce: Bytes32)
    ensures var b := RequesterBytes(round, nodeId, cap, capLen, budget, nonce);
      && b[36..44] == U64Bytes(round) && b[44..76] == nodeId && b[77..81] == U32Bytes(capLen)
      && b[81..113] == cap && b[113..121] == U64Bytes(budget) && b[121..153] == nonce
  {
    var b, h := RequesterBytes(round, nodeId, cap, capLen, budget, nonce), RequesterHeader(round, NodeId(nodeId));
    assert b[36..44] == h[36..44] && b[44..76] == h[44..76];
    hide U32Bytes, U64Bytes;
  }

  /** Equal bytes, equal inputs. */
  lemma RequesterBytesInjective(round: RoundId, nodeId: Bytes32, cap: Bytes32, capLen: U32, budget: U64, nonce: Bytes32,
                                round': RoundId, nodeId': Bytes32, cap': Bytes32, capLen': U32, budget': U64,
                                nonce': Bytes32)
    requires RequesterBytes(round, nodeId, cap, capLen, budget, nonce) ==
             RequesterBytes(round', nodeId', cap', capLen', budget', nonce')
    ensures round == round' && nodeId == nodeId' && cap == cap' && capLen == capLen' && budget == budget'
    ensures nonce == nonce'
  {
    hide RequesterBytes;
    RequesterFields(round, nodeId, cap, capLen, budget, nonce);
    RequesterFields(round', nodeId', cap', capLen', budget', nonce');
    U64RoundTrip(round);
    U64RoundTrip(round');
    U64RoundTrip(budget);
    U64RoundTrip(budget');
    U32RoundTrip(capLen);
    U32RoundTrip(capLen');
  }

  /**
    If the circuit accepts against the hash of a preimage the runtime built, and the hash does not
    collide on those two preimages, then round, node, capability, amount and nonce are the committed
    ones and the committed budget meets the threshold.
   */
  lemma RequesterSoundness(c: Crypto, s: RequesterSecret, nonce: Bytes32, round: RoundId,
                           pub: RequesterInputs, budget: U64, nonce': Bytes32)
    requires RequesterPreimage(s, nonce, round).Success?
    requires pub.commitment == c.blake2s(RequesterPreimage(s, nonce, round).value)
    requires RequesterAccepts(c, pub, budget, nonce')
    requires var x := RequesterPreimage(s, nonce, round).value;
      var y := RequesterBytes(pub.round, pub.nodeId, pub.cap, pub.capLen, budget, nonce');
      c.blake2s(x) == c.blake2s(y) ==> x == y
    ensures pub.round == round && pub.nodeId == s.nodeId.bytes
    ensures pub.capLen == |s.required.text| && pub.cap == Padded(s.required.text, 32)
    ensures budget == s.budgetCents && nonce' == nonce
    ensures s.budgetCents >= pub.threshold
  {
    hide RequesterBytes, RequesterPreimage;
    var y := RequesterBytes(pub.round, pub.nodeId, pub.cap, pub.capLen, budget, nonce');
    assert c.blake2s(y) == pub.commitment;
    RequesterParity(c, s, nonce, round, pub.threshold);
    var inputs := RequesterInputsOf(c, s, nonce, round, pub.threshold).value;
    RequesterBytesInjective(inputs.round, inputs.nodeId, inputs.cap, inputs.capLen, s.budgetCents, nonce,
                            pub.round, pub.nodeId, pub.cap, pub.capLen, budget, nonce');
  }

  /** On honest inputs the circuit accepts exactly when the budget meets the threshold. */
  lemma RequesterCompleteness(c: Crypto, s: RequesterSecret, nonce: Bytes32, round: RoundId, threshold: U64)
    requires RequesterPreimage(s, nonce, round).Success?
    ensures var inputs := RequesterInputsOf(c, s, nonce, round, threshold);
      && inputs.Success?
      && (RequesterAccepts(c, inputs.value, s.budgetCents, nonce) <==> s.budgetCents >= threshold)
  {
    hide RequesterBytes;
    RequesterParity(c, s, nonce, round, threshold);
  }

  /** Exactly which public inputs a witness satisfies: one commitment, lengths 1 to 32, thresholds up to the budget. */
  lemma RequesterAcceptsWhat(c: Crypto, pub: RequesterInputs, budget: U64, nonce: Bytes32)
    ensures RequesterAccepts(c, pub, budget, nonce) <==>
      && 1 <= pub.capLen <= 32 && pub.threshold <= budget
      && pub.commitment == c.blake2s(RequesterBytes(pub.round, pub.nodeId, pub.cap, pub.capLen, budget, nonce))
  {
    hide RequesterBytes;
    var actual := c.blake2s(RequesterBytes(pub.round, pub.nodeId, pub.cap, pub.capLen, budget, nonce));
    assert (forall i :: 0 <= i < 32 ==> actual[i] == pub.commitment[i]) <==> actual == pub.commitment;
  }

  /** What the bridge refuses a requester for, and what it passes on untouched. */
  lemma RequesterBridgeRefusesWhat(c: Crypto, s: RequesterSecret, nonce: Bytes32, round: RoundId, threshold: U64)
    ensures var r, n := RequesterInputsOf(c, s, nonce, round, threshold), |s.required.text|;
      && (n > 32 ==> r == Failure(BridgeError.CapabilityTooLong(n, 32)))
      && (n == 0 ==> r == Failure(CommitmentRefused(InvalidField(RequiredCapability))))
      && (0 < n <= 32 ==> r.Success? && r.value.threshold == threshold && r.value.round == round
                          && r.value.nodeId == s.nodeId.bytes && r.value.capLen == n
                              && r.value.cap[..n] == s.required.text)
  {
    RequesterRefusedFor(s, nonce, round);
    hide RequesterLayout;
  }

  // ---------------------------------------------------------------------
  // The provider's circuit
  // ---------------------------------------------------------------------

  datatype ProviderInputs = ProviderInputs(
    round: RoundId, nodeId: Bytes32, commitment: Bytes32, bytes: FourTags, lens: FourLens, count: U32, threshold: U64)

  function ProviderInputBytes(pub: ProviderInputs, reservation: U64, nonce: Bytes32): seq<Byte> {
    ProviderBytes(pub.round, pub.nodeId, pub.bytes, pub.lens, pub.count, reservation, nonce)
  }

  predicate SlotShape(len: U32, active: bool) {
    if active then len > 0 && len <= MAX_CAPABILITY_BYTES else len == 0
  }

  predicate ProviderAccepts(c: Crypto, pub: ProviderInputs, reservation: U64, nonce: Bytes32) {
    && pub.count > 0 && pub.count <= MAX_CAPABILITY_CLAIMS
    && (forall i :: 0 <= i < 4 ==> SlotShape(pub.lens[i], i < pub.count))
    && reservation <= pub.threshold
    && var actual := c.blake2s(ProviderInputBytes(pub, reservation, nonce));
       forall i :: 0 <= i < 32 ==> actual[i] == pub.commitment[i]
  }

  /** The first claim too long for a slot, as the bridge reports it. */
  function FirstTooLong(claims: seq<CapabilityTag>): (e: Option<BridgeError>)
    ensures e.None? <==> forall i :: 0 <= i < |claims| ==> |claims[i].text| <= MAX_CAPABILITY_BYTES
  {
    if claims == [] then None
    else if |claims[0].text| > MAX_CAPABILITY_BYTES then
      Some(BridgeError.CapabilityTooLong(|claims[0].text|, MAX_CAPABILITY_BYTES))
    else
      assert claims == [claims[0]] + claims[1..];
      FirstTooLong(claims[1..])
  }

  /** The padded bytes of claim `i`, blank past the claims. */
  function SlotBytes(claims: seq<CapabilityTag>, i: nat): Bytes32
    requires forall j :: 0 <= j < |claims| ==> |claims[j].text| <= MAX_CAPABILITY_BYTES
  {
    if i < |claims| then Padded(claims[i].text, 32) else Zeros(32)
  }

  function SlotLen(claims: seq<CapabilityTag>, i: nat): U32
    requires forall j :: 0 <= j < |claims| ==> |claims[j].text| <= MAX_CAPABILITY_BYTES
  {
    if i < |claims| then |claims[i].text| else 0
  }

  function ProviderInputsOf(c: Crypto, s: ProviderSecret, nonce: Bytes32, round: RoundId, threshold: U64)
    : Result<ProviderInputs, BridgeError>
  {
    if |s.claims| > MAX_CAPABILITY_CLAIMS then Failure(BridgeError.TooManyClaims(|s.claims|, MAX_CAPABILITY_CLAIMS))
    else
      match FirstTooLong(s.claims)
      case Some(e) => Failure(e)
      case None =>
        match ProviderPreimage(s, nonce, round)
        case Failure(e) => Failure(CommitmentRefused(e))
        case Success(preimage) =>
          var bytes: FourTags := [SlotBytes(s.claims, 0), SlotBytes(s.claims, 1), SlotBytes(s.claims, 2),
                                  SlotBytes(s.claims, 3)];
          var lens: FourLens := [SlotLen(s.claims, 0), SlotLen(s.claims, 1), SlotLen(s.claims, 2),
                                 SlotLen(s.claims, 3)];
          Success(ProviderInputs(round, s.nodeId.bytes, c.blake2s(preimage), bytes, lens, |s.claims|, threshold))
  }

  /** A claim's bytes copied to the front of a zeroed slot. */
  method PadSlot(text: seq<Byte>) returns (slot: Bytes32)
    requires |text| <= MAX_CAPABILITY_BYTES
    ensures slot == Padded(text, 32)
  {
    var row := new Byte[32](i => 0);
    CopyFromSlice(row, 0, text, []);
    assert [] + text == text;
    return row[..];
  }

  /** The slots and lengths fed to the circuit, unless a claim is too long for its slot. */
  method PadClaims(claims: seq<CapabilityTag>) returns (refusal: Option<BridgeError>, bytes: FourTags, lens: FourLens)
    requires |claims| <= MAX_CAPABILITY_CLAIMS
    ensures refusal == FirstTooLong(claims)
    ensures refusal.None? ==>
      forall i :: 0 <= i < 4 ==> bytes[i] == SlotBytes(claims, i) && lens[i] == SlotLen(claims, i)
  {
    hide Padded;
    refusal, bytes, lens := None, [BLANK, BLANK, BLANK, BLANK], [0, 0, 0, 0];
    for i := 0 to |claims|
      invariant refusal.None? && FirstTooLong(claims[i..]) == FirstTooLong(claims)
      invariant forall j :: 0 <= j < i ==> |claims[j].text| <= MAX_CAPABILITY_BYTES
      invariant forall j :: 0 <= j < i ==> bytes[j] == Padded(claims[j].text, 32) && lens[j] == |claims[j].text|
      invariant forall j :: i <= j < 4 ==> bytes[j] == BLANK && lens[j] == 0
    {
      assert claims[i..][0] == claims[i] && claims[i..][1..] == claims[i + 1..];
      var text := claims[i].text;
      if |text| > MAX_CAPABILITY_BYTES {
        refusal := Some(BridgeError.CapabilityTooLong(|text|, MAX_CAPABILITY_BYTES));
        return;
      }
      var slot := PadSlot(text);
      bytes := bytes[i := slot];
      lens := lens[i := |text|];
    }
  }

  method ProviderInputsFromIntent(c: Crypto, s: ProviderSecret, nonce: Bytes32, round: RoundId, threshold: U64)
    returns (r: Result<ProviderInputs, BridgeError>)
    ensures r == ProviderInputsOf(c, s, nonce, round, threshold)
  {
    hide ProviderPreimage, SlotBytes, SlotLen;
    var claims := s.claims;
    if |claims| > MAX_CAPABILITY_CLAIMS {
      return Failure(BridgeError.TooManyClaims(|claims|, MAX_CAPABILITY_CLAIMS));
    }
    var refusal, bytes, lens := PadClaims(claims);
    if refusal.Some? {
      return Failure(refusal.value);
    }
    var preimage := RustBuilders.BuildProviderPreimage(s, nonce, round);
    if preimage.Failure? {
      return Failure(CommitmentRefused(preimage.error));
    }
    assert bytes == [SlotBytes(claims, 0), SlotBytes(claims, 1), SlotBytes(claims, 2), SlotBytes(claims, 3)];
    assert lens == [SlotLen(claims, 0), SlotLen(claims, 1), SlotLen(claims, 2), SlotLen(claims, 3)];
    return Success(ProviderInputs(round, s.nodeId.bytes, c.blake2s(preimage.value), bytes, lens, |claims|, threshold));
  }

  /** Gating the padded inputs gives back the layout's slot. */
  lemma GatedIsClaimSlot(claims: seq<CapabilityTag>, i: nat)
    requires forall j :: 0 <= j < |claims| ==> |claims[j].text| <= MAX_CAPABILITY_BYTES
    requires forall j :: 0 <= j < |claims| ==> FitsSlot(claims[j])
    ensures GatedSlot(SlotBytes(claims, i), SlotLen(claims, i), i < |claims|) == ClaimSlot(claims, i)
  {
  }

  lemma {:induction false} GatedAreFirstSlots(claims: seq<CapabilityTag>, bytes: FourTags, lens: FourLens, n: nat)
    requires n <= 4 && |claims| <= MAX_CAPABILITY_CLAIMS
    requires forall j :: 0 <= j < |claims| ==> |claims[j].text| <= MAX_CAPABILITY_BYTES
    requires forall j :: 0 <= j < |claims| ==> FitsSlot(claims[j])
    requires forall i :: 0 <= i < 4 ==> bytes[i] == SlotBytes(claims, i) && lens[i] == SlotLen(claims, i)
    ensures GatedSlots(bytes, lens, |claims|, n) == RustBuilders.FirstSlots(claims, n)
  {
    hide FitsSlot, GatedSlot, ClaimSlot, SlotBytes, SlotLen;
    if n > 0 {
      GatedAreFirstSlots(claims, bytes, lens, n - 1);
      GatedIsClaimSlot(claims, n - 1);
    }
  }

  /** Whatever the runtime's builder accepts, the circuit's builder turns the padded inputs into the same bytes. */
  lemma ProviderParity(c: Crypto, s: ProviderSecret, nonce: Bytes32, round: RoundId, threshold: U64)
    requires ProviderPreimage(s, nonce, round).Success?
    ensures var inputs := ProviderInputsOf(c, s, nonce, round, threshold);
      && inputs.Success?
      && ProviderPreimage(s, nonce, round).value == ProviderInputBytes(inputs.value, s.reservationCents, nonce)
  {
    var inputs := ProviderInputsOf(c, s, nonce, round, threshold);
    assert ProviderContentOf(s, nonce, round).Fits();
    assert inputs.Success?;
    hide ProviderHeader, ClaimSlots, GatedSlots, SlotBytes, SlotLen, FitsSlot;
    GatedAreFirstSlots(s.claims, inputs.value.bytes, inputs.value.lens, 4);
    RustBuilders.FourSlots(s.claims);
    assert NodeId(s.nodeId.bytes) == s.nodeId;
  }

  lemma ProviderFields(pub: ProviderInputs, reservation: U64, nonce: Bytes32)
    ensures var b := ProviderInputBytes(pub, reservation, nonce);
      && b[35..43] == U64Bytes(pub.round) && b[43..75] == pub.nodeId && b[76..80] == U32Bytes(pub.count)
      && b[80..224] == GatedSlots(pub.bytes, pub.lens, pub.count, 4)
      && b[224..232] == U64Bytes(reservation) && b[232..264] == nonce
  {
    var b, h := ProviderInputBytes(pub, reservation, nonce), ProviderHeader(pub.round, NodeId(pub.nodeId));
    assert b[35..43] == h[35..43] && b[43..75] == h[43..75];
    hide U32Bytes, U64Bytes, GatedSlots;
  }

  lemma {:induction false} GatedSlotAt(bytes: FourTags, lens: FourLens, count: U32, n: nat, i: nat)
    requires i < n <= 4
    ensures GatedSlots(bytes, lens, count, n)[SLOT_LEN * i..SLOT_LEN * i + SLOT_LEN]
         == GatedSlot(bytes[i], lens[i], i < count)
  {
    hide GatedSlot;
    if i < n - 1 {
      GatedSlotAt(bytes, lens, count, n - 1, i);
      var front, last := GatedSlots(bytes, lens, count, n - 1), GatedSlot(bytes[n - 1], lens[n - 1], n - 1 < count);
      assert (front + last)[SLOT_LEN * i..SLOT_LEN * i + SLOT_LEN] == front[SLOT_LEN * i..SLOT_LEN * i + SLOT_LEN];
    }
  }

  /** What the provider's circuit hashes of slot `i`: its length and bytes, or zeros once past the claim count. */
  lemma SlotsAreGated(pub: ProviderInputs, reservation: U64, nonce: Bytes32, i: nat)
    requires i < 4
    ensures var slot := ProviderInputBytes(pub, reservation, nonce)[80..224][36 * i..36 * i + 36];
      && (i < pub.count ==> FromBigEndian(slot[..4]) == pub.lens[i] && slot[4..] == pub.bytes[i])
      && (i >= pub.count ==> slot == Zeros(36))
  {
    hide ProviderBytes, GatedSlots, U32Bytes, FromBigEndian;
    ProviderFields(pub, reservation, nonce);
    GatedSlotAt(pub.bytes, pub.lens, pub.count, 4, i);
    if i < pub.count {
      U32RoundTrip(pub.lens[i]);
      assert (U32Bytes(pub.lens[i]) + pub.bytes[i])[..4] == U32Bytes(pub.lens[i]);
      assert (U32Bytes(pub.lens[i]) + pub.bytes[i])[4..] == pub.bytes[i];
    }
  }

  lemma ActiveSlotInjective(bytes: Bytes32, len: U32, bytes': Bytes32, len': U32)
    requires GatedSlot(bytes, len, true) == GatedSlot(bytes', len', true)
    ensures bytes == bytes' && len == len'
  {
    var a, b := U32Bytes(len) + bytes, U32Bytes(len') + bytes';
    assert a[..4] == U32Bytes(len) && b[..4] == U32Bytes(len');
    assert a[4..] == bytes && b[4..] == bytes';
    U32RoundTrip(len);
    U32RoundTrip(len');
  }

  /** Equal bytes, equal inputs, up to what the inactive slots hold. */
  lemma ProviderBytesInjective(pub: ProviderInputs, reservation: U64, nonce: Bytes32,
                               pub': ProviderInputs, reservation': U64, nonce': Bytes32)
    requires ProviderInputBytes(pub, reservation, nonce) == ProviderInputBytes(pub', reservation', nonce')
    ensures pub.round == pub'.round && pub.nodeId == pub'.nodeId && pub.count == pub'.count
    ensures reservation == reservation' && nonce == nonce'
    ensures forall i :: 0 <= i < 4 && i < pub.count ==> pub.bytes[i] == pub'.bytes[i] && pub.lens[i] == pub'.lens[i]
  {
    hide ProviderInputBytes, GatedSlots, GatedSlot;
    ProviderFields(pub, reservation, nonce);
    ProviderFields(pub', reservation', nonce');
    U64RoundTrip(pub.round);
    U64RoundTrip(pub'.round);
    U64RoundTrip(reservation);
    U64RoundTrip(reservation');
    U32RoundTrip(pub.count);
    U32RoundTrip(pub'.count);
    forall i | 0 <= i < 4 && i < pub.count ensures pub.bytes[i] == pub'.bytes[i] && pub.lens[i] == pub'.lens[i] {
      GatedSlotAt(pub.bytes, pub.lens, pub.count, 4, i);
      GatedSlotAt(pub'.bytes, pub'.lens, pub'.count, 4, i);
      ActiveSlotInjective(pub.bytes[i], pub.lens[i], pub'.bytes[i], pub'.lens[i]);
    }
  }

  /**
    If the circuit accepts against the hash of a preimage the runtime built, and the hash does not
    collide on those two preimages, then round, node, claims, amount and nonce are the committed ones,
    the unused slots have length zero, and the committed reservation does not exceed the threshold.
   */
  lemma ProviderSoundness(c: Crypto, s: ProviderSecret, nonce: Bytes32, round: RoundId,
                          pub: ProviderInputs, reservation: U64, nonce': Bytes32)
    requires ProviderPreimage(s, nonce, round).Success?
    requires pub.commitment == c.blake2s(ProviderPreimage(s, nonce, round).value)
    requires ProviderAccepts(c, pub, reservation, nonce')
    requires var x, y := ProviderPreimage(s, nonce, round).value, ProviderInputBytes(pub, reservation, nonce');
      c.blake2s(x) == c.blake2s(y) ==> x == y
    ensures pub.round == round && pub.nodeId == s.nodeId.bytes && pub.count == |s.claims| <= 4
    ensures forall i :: 0 <= i < |s.claims| ==>
      && |s.claims[i].text| <= MAX_CAPABILITY_BYTES
      && pub.lens[i] == |s.claims[i].text| && pub.bytes[i] == Padded(s.claims[i].text, 32)
    ensures forall i :: |s.claims| <= i < 4 ==> pub.lens[i] == 0
    ensures reservation == s.reservationCents && nonce' == nonce
    ensures s.reservationCents <= pub.threshold
  {
    assert ProviderContentOf(s, nonce, round).Fits();
    assert forall i :: 0 <= i < |s.claims| ==> FitsSlot(s.claims[i]);
    var inputs := ProviderInputsOf(c, s, nonce, round, pub.threshold);
    ProviderParity(c, s, nonce, round, pub.threshold);
    HonestSlots(c, s, nonce, round, pub.threshold);
    hide ProviderInputBytes, ProviderPreimage, ProviderInputsOf;
    var y := ProviderInputBytes(pub, reservation, nonce');
    assert c.blake2s(y) == pub.commitment;
    ProviderBytesInjective(inputs.value, s.reservationCents, nonce, pub, reservation, nonce');
    forall i | |s.claims| <= i < 4 ensures pub.lens[i] == 0 {
      assert SlotShape(pub.lens[i], i < pub.count);
    }
  }

  lemma HonestSlots(c: Crypto, s: ProviderSecret, nonce: Bytes32, round: RoundId, threshold: U64)
    requires ProviderPreimage(s, nonce, round).Success?
    ensures var inputs := ProviderInputsOf(c, s, nonce, round, threshold);
      && inputs.Success? && |s.claims| <= 4
      && (forall i :: 0 <= i < |s.claims| ==> FitsSlot(s.claims[i]))
      && inputs.value.round == round && inputs.value.nodeId == s.nodeId.bytes && inputs.value.count == |s.claims|
      && inputs.value.commitment == c.blake2s(ProviderPreimage(s, nonce, round).value)
      && inputs.value.threshold == threshold
      && (forall i :: 0 <= i < 4 ==>
            inputs.value.lens[i] == SlotLen(s.claims, i) && inputs.value.bytes[i] == SlotBytes(s.claims, i))
  {
    assert ProviderContentOf(s, nonce, round).Fits();
  }

  /** On honest inputs the circuit accepts exactly when the reservation does not exceed the threshold. */
  lemma ProviderCompleteness(c: Crypto, s: ProviderSecret, nonce: Bytes32, round: RoundId, threshold: U64)
    requires ProviderPreimage(s, nonce, round).Success?
    ensures var inputs := ProviderInputsOf(c, s, nonce, round, threshold);
      && inputs.Success?
      && (ProviderAccepts(c, inputs.value, s.reservationCents, nonce) <==> s.reservationCents <= threshold)
  {
    hide ProviderInputBytes, ProviderPreimage, ProviderInputsOf;
    ProviderParity(c, s, nonce, round, threshold);
    HonestSlots(c, s, nonce, round, threshold);
    var pub := ProviderInputsOf(c, s, nonce, round, threshold).value;
    forall i | 0 <= i < 4 ensures SlotShape(pub.lens[i], i < pub.count) {
      if i < |s.claims| {
        RustBuilders.TagFits(s.claims[i]);
      }
    }
  }

  /**
    Neither circuit accepts against the hash of the other role's preimage, unless the hash collides
    on two byte strings of different lengths.
   */
  lemma RequesterCircuitNeedsRequester(c: Crypto, s: ProviderSecret, nonce: Bytes32, round: RoundId,
                                       pub: RequesterInputs, budget: U64, nonce': Bytes32)
    requires ProviderPreimage(s, nonce, round).Success?
    requires pub.commitment == c.blake2s(ProviderPreimage(s, nonce, round).value)
    requires RequesterAccepts(c, pub, budget, nonce')
    ensures var x := ProviderPreimage(s, nonce, round).value;
      var y := RequesterBytes(pub.round, pub.nodeId, pub.cap, pub.capLen, budget, nonce');
      |x| == PROVIDER_PREIMAGE_LEN && |y| == REQUESTER_PREIMAGE_LEN && c.blake2s(x) == c.blake2s(y)
  {
    hide RequesterBytes, ProviderLayout;
    var y := RequesterBytes(pub.round, pub.nodeId, pub.cap, pub.capLen, budget, nonce');
    assert c.blake2s(y) == pub.commitment;
  }

  lemma ProviderCircuitNeedsProvider(c: Crypto, s: RequesterSecret, nonce: Bytes32, round: RoundId,
                                     pub: ProviderInputs, reservation: U64, nonce': Bytes32)
    requires RequesterPreimage(s, nonce, round).Success?
    requires pub.commitment == c.blake2s(RequesterPreimage(s, nonce, round).value)
    requires ProviderAccepts(c, pub, reservation, nonce')
    ensures var x, y := RequesterPreimage(s, nonce, round).value, ProviderInputBytes(pub, reservation, nonce');
      |x| == REQUESTER_PREIMAGE_LEN && |y| == PROVIDER_PREIMAGE_LEN && c.blake2s(x) == c.blake2s(y)
  {
    hide ProviderBytes, RequesterLayout;
    var y := ProviderInputBytes(pub, reservation, nonce');
    assert c.blake2s(y) == pub.commitment;
  }

  /** Exactly which public inputs a witness satisfies. */
  lemma ProviderAcceptsWhat(c: Crypto, pub: ProviderInputs, reservation: U64, nonce: Bytes32)
    ensures ProviderAccepts(c, pub, reservation, nonce) <==>
      && 1 <= pub.count <= 4 && reservation <= pub.threshold
      && (forall i :: 0 <= i < pub.count && i < 4 ==> 1 <= pub.lens[i] <= 32)
      && (forall i :: pub.count <= i < 4 ==> pub.lens[i] == 0)
      && pub.commitment == c.blake2s(ProviderInputBytes(pub, reservation, nonce))
  {
    hide ProviderInputBytes;
    var actual := c.blake2s(ProviderInputBytes(pub, reservation, nonce));
    assert (forall i :: 0 <= i < 32 ==> actual[i] == pub.commitment[i]) <==> actual == pub.commitment;
  }

  /** `i` is the first claim longer than a slot. */
  predicate FirstOverlong(claims: seq<CapabilityTag>, i: nat) {
    i < |claims| && |claims[i].text| > 32 && forall j :: 0 <= j < i ==> |claims[j].text| <= 32
  }

  lemma {:induction false} OverlongIsReported(claims: seq<CapabilityTag>, i: nat)
    requires FirstOverlong(claims, i)
    ensures FirstTooLong(claims) == Some(BridgeError.CapabilityTooLong(|claims[i].text|, 32))
  {
    if i > 0 {
      assert FirstOverlong(claims[1..], i - 1);
      OverlongIsReported(claims[1..], i - 1);
    }
  }

  /** What the bridge refuses a provider for: the number of claims, then the first overlong one, then empty ones. */
  lemma ProviderBridgeRefusesWhat(c: Crypto, s: ProviderSecret, nonce: Bytes32, round: RoundId, threshold: U64, i: nat)
    ensures var r, n := ProviderInputsOf(c, s, nonce, round, threshold), |s.claims|;
      && (n > 4 ==> r == Failure(BridgeError.TooManyClaims(n, 4)))
      && (n <= 4 && FirstOverlong(s.claims, i) ==>
            r == Failure(BridgeError.CapabilityTooLong(|s.claims[i].text|, 32)))
      && (n == 0 ==> r == Failure(CommitmentRefused(InvalidField(CapabilityClaims))))
      && (n <= 4 && FirstMisfit(s.claims, i) && (forall j :: 0 <= j < n ==> |s.claims[j].text| <= 32) ==>
            r == Failure(CommitmentRefused(InvalidField(CapabilityClaim))))
  {
    if FirstOverlong(s.claims, i) {
      OverlongIsReported(s.claims, i);
    }
    ProviderRefusedFor(s, nonce, round);
    hide ProviderLayout, SlotBytes, SlotLen;
  }

  /** The bytes of an inactive slot are bound by nothing: the circuit accepts or refuses whatever they are. */
  lemma InactiveBytesAreFree(c: Crypto, pub: ProviderInputs, i: nat, other: Bytes32, reservation: U64, nonce: Bytes32)
    requires pub.count <= i < 4
    ensures ProviderAccepts(c, pub, reservation, nonce) <==>
            ProviderAccepts(c, pub.(bytes := pub.bytes[i := other]), reservation, nonce)
  {
    GatedIgnoresInactive(pub.bytes, pub.lens, pub.count, i, other, 4);
    hide GatedSlots;
  }

  lemma {:induction false} GatedIgnoresInactive(bytes: FourTags, lens: FourLens, count: U32, i: nat, other: Bytes32,
                                                n: nat)
    requires count <= i < 4 && n <= 4
    ensures GatedSlots(bytes, lens, count, n) == GatedSlots(bytes[i := other], lens, count, n)
  {
    if n > 0 {
      GatedIgnoresInactive(bytes, lens, count, i, other, n - 1);
    }
  }
}
