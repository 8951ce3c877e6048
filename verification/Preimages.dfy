/** The canonical commitment preimages: layouts, decoders and injectivity. */
module Preimages {
  import opened Results
  import opened Bytes
  import opened Buffers
  import opened Protocol

  const MAX_CAPABILITY_BYTES := 32
  const MAX_CAPABILITY_CLAIMS := 4
  const REQUESTER_PREIMAGE_LEN := 153
  const PROVIDER_PREIMAGE_LEN := 264
  const SLOT_LEN := 36

  const REQUESTER_DOMAIN := "vertex-veil/v1/commit-requester"
  const PROVIDER_DOMAIN := "vertex-veil/v1/commit-provider"

  datatype Field = RequiredCapability | CapabilityClaims | CapabilityClaim

  datatype CommitmentError =
    | InvalidField(field: Field)
    | CapabilityTooLong(actual: nat, limit: nat)
    | TooManyClaims(actual: nat, limit: nat)

  // ---------------------------------------------------------------------
  // What a preimage is about
  // ---------------------------------------------------------------------

  predicate FitsSlot(tag: CapabilityTag) {
    0 < |tag.text| <= MAX_CAPABILITY_BYTES
  }

  datatype RequesterContent =
    RequesterContent(round: RoundId, nodeId: NodeId, required: CapabilityTag, budgetCents: U64, nonce: Bytes32)
  {
    predicate Fits() {
      FitsSlot(required)
    }
  }

  datatype ProviderContent =
    ProviderContent(round: RoundId, nodeId: NodeId, claims: seq<CapabilityTag>, reservationCents: U64, nonce: Bytes32)
  {
    predicate Fits() {
      0 < |claims| <= MAX_CAPABILITY_CLAIMS && forall i :: 0 <= i < |claims| ==> FitsSlot(claims[i])
    }
  }

  // ---------------------------------------------------------------------
  // Layouts
  // ---------------------------------------------------------------------

  function TagSlot(tag: CapabilityTag): (b: seq<Byte>)
    requires FitsSlot(tag)
    ensures |b| == SLOT_LEN
  {
    U32Bytes(|tag.text|) + Padded(tag.text, MAX_CAPABILITY_BYTES)
  }

  function RequesterHeader(round: RoundId, nodeId: NodeId): (b: seq<Byte>)
    ensures |b| == 77
  {
    U32Bytes(31) + Ascii(REQUESTER_DOMAIN) + [1] + U64Bytes(round) + nodeId.bytes + [0]
  }

  function RequesterLayout(x: RequesterContent): (b: seq<Byte>)
    requires x.Fits()
    ensures |b| == REQUESTER_PREIMAGE_LEN
  {
    RequesterHeader(x.round, x.nodeId) + TagSlot(x.required) + U64Bytes(x.budgetCents) + x.nonce
  }

  function ProviderHeader(round: RoundId, nodeId: NodeId): (b: seq<Byte>)
    ensures |b| == 76
  {
    U32Bytes(30) + Ascii(PROVIDER_DOMAIN) + [1] + U64Bytes(round) + nodeId.bytes + [1]
  }

  /** One of the four claim slots; a slot past the claims is zero. */
  function ClaimSlot(claims: seq<CapabilityTag>, i: nat): (b: seq<Byte>)
    requires forall j :: 0 <= j < |claims| ==> FitsSlot(claims[j])
    ensures |b| == SLOT_LEN
  {
    if i < |claims| then TagSlot(claims[i]) else Zeros(SLOT_LEN)
  }

  function ClaimSlots(claims: seq<CapabilityTag>): (b: seq<Byte>)
    requires forall j :: 0 <= j < |claims| ==> FitsSlot(claims[j])
    ensures |b| == 144
  {
    ClaimSlot(claims, 0) + ClaimSlot(claims, 1) + ClaimSlot(claims, 2) + ClaimSlot(claims, 3)
  }

  function ProviderLayout(x: ProviderContent): (b: seq<Byte>)
    requires x.Fits()
    ensures |b| == PROVIDER_PREIMAGE_LEN
  {
    ProviderHeader(x.round, x.nodeId) + U32Bytes(|x.claims|) + ClaimSlots(x.claims)
    + U64Bytes(x.reservationCents) + x.nonce
  }

  // ---------------------------------------------------------------------
  // Building from private intents
  // ---------------------------------------------------------------------

  function TagRefusal(tag: CapabilityTag, field: Field): (e: Option<CommitmentError>)
    ensures e.None? <==> FitsSlot(tag)
  {
    if tag.text == [] then Some(InvalidField(field))
    else if |tag.text| > MAX_CAPABILITY_BYTES then Some(CapabilityTooLong(|tag.text|, MAX_CAPABILITY_BYTES))
    else None
  }

  function FirstClaimRefusal(claims: seq<CapabilityTag>): (e: Option<CommitmentError>)
    ensures e.None? <==> forall i :: 0 <= i < |claims| ==> FitsSlot(claims[i])
  {
    if claims == [] then None
    else
      match TagRefusal(claims[0], CapabilityClaim)
      case Some(e) => Some(e)
      case None =>
        assert claims == [claims[0]] + claims[1..];
        FirstClaimRefusal(claims[1..])
  }

  function RequesterContentOf(s: RequesterSecret, nonce: Bytes32, round: RoundId): RequesterContent {
    RequesterContent(round, s.nodeId, s.required, s.budgetCents, nonce)
  }

  function ProviderContentOf(s: ProviderSecret, nonce: Bytes32, round: RoundId): ProviderContent {
    ProviderContent(round, s.nodeId, s.claims, s.reservationCents, nonce)
  }

  function ProviderRefusal(claims: seq<CapabilityTag>): Option<CommitmentError> {
    if claims == [] then Some(InvalidField(CapabilityClaims))
    else if |claims| > MAX_CAPABILITY_CLAIMS then Some(TooManyClaims(|claims|, MAX_CAPABILITY_CLAIMS))
    else FirstClaimRefusal(claims)
  }

  function RequesterPreimage(s: RequesterSecret, nonce: Bytes32, round: RoundId)
    : (r: Result<seq<Byte>, CommitmentError>)
    ensures r.Success? <==> RequesterContentOf(s, nonce, round).Fits()
  {
    match TagRefusal(s.required, RequiredCapability)
    case Some(e) => Failure(e)
    case None => Success(RequesterLayout(RequesterContentOf(s, nonce, round)))
  }

  function ProviderPreimage(s: ProviderSecret, nonce: Bytes32, round: RoundId)
    : (r: Result<seq<Byte>, CommitmentError>)
    ensures r.Success? <==> ProviderContentOf(s, nonce, round).Fits()
  {
    match ProviderRefusal(s.claims)
    case Some(e) => Failure(e)
    case None => Success(ProviderLayout(ProviderContentOf(s, nonce, round)))
  }

  /** domain | node (32) | round (8) | salt. */
  function NonceBytes(node: NodeId, round: RoundId, salt: seq<Byte>): seq<Byte> {
    Ascii("vertex-veil/v1/test-nonce") + node.bytes + U64Bytes(round) + salt
  }

  function TestNonce(c: Crypto, node: NodeId, round: RoundId, salt: seq<Byte>): Bytes32 {
    c.blake2s(NonceBytes(node, round, salt))
  }

  /** A nonce is for one node, one round and one salt, unless the hash collides on the two. */
  lemma NonceBinds(c: Crypto, a: NodeId, i: RoundId, salt: seq<Byte>, b: NodeId, j: RoundId, salt': seq<Byte>)
    requires c.blake2s(NonceBytes(a, i, salt)) == c.blake2s(NonceBytes(b, j, salt')) ==>
               NonceBytes(a, i, salt) == NonceBytes(b, j, salt')
    requires TestNonce(c, a, i, salt) == TestNonce(c, b, j, salt')
    ensures a == b && i == j && salt == salt'
  {
    NonceOffsets(a, i, salt);
    NonceOffsets(b, j, salt');
  }

  lemma NonceOffsets(node: NodeId, round: RoundId, salt: seq<Byte>)
    ensures var b := NonceBytes(node, round, salt);
      && b[..25] == Ascii("vertex-veil/v1/test-nonce") && b[25..57] == node.bytes
      && FromBigEndian(b[57..65]) == round && b[65..] == salt
  {
    hide U64Bytes;
    assert |Ascii("vertex-veil/v1/test-nonce")| == 25;
    assert NonceBytes(node, round, salt)[57..65] == U64Bytes(round);
    U64RoundTrip(round);
  }

  // ---------------------------------------------------------------------
  // Refusals
  // ---------------------------------------------------------------------

  /** Which refusal a requester meets. */
  lemma RequesterRefusedFor(s: RequesterSecret, nonce: Bytes32, round: RoundId)
    ensures var r, n := RequesterPreimage(s, nonce, round), |s.required.text|;
      && (r == Failure(InvalidField(RequiredCapability)) <==> n == 0)
      && (r == Failure(CapabilityTooLong(n, 32)) <==> n > 32)
      && (r.Success? <==> 0 < n <= 32)
  {
  }

  /** `i` is the first claim that does not fit a slot. */
  predicate FirstMisfit(claims: seq<CapabilityTag>, i: nat) {
    && i < |claims| && !(0 < |claims[i].text| <= 32)
    && forall j :: 0 <= j < i ==> 0 < |claims[j].text| <= 32
  }

  lemma {:induction false} MisfitIsReported(claims: seq<CapabilityTag>, i: nat)
    requires FirstMisfit(claims, i)
    ensures FirstClaimRefusal(claims) ==
      Some(if claims[i].text == [] then InvalidField(CapabilityClaim) else CapabilityTooLong(|claims[i].text|, 32))
  {
    if i > 0 {
      assert FirstMisfit(claims[1..], i - 1);
      MisfitIsReported(claims[1..], i - 1);
    }
  }

  /** Which refusal a provider meets: the number of claims is judged before the claims, in order. */
  lemma ProviderRefusedFor(s: ProviderSecret, nonce: Bytes32, round: RoundId)
    ensures var r, n := ProviderPreimage(s, nonce, round), |s.claims|;
      && (n == 0 ==> r == Failure(InvalidField(CapabilityClaims)))
      && (n > 4 ==> r == Failure(TooManyClaims(n, 4)))
      && (0 < n <= 4 ==> forall i: nat :: FirstMisfit(s.claims, i) ==>
            r == Failure(if s.claims[i].text == [] then InvalidField(CapabilityClaim)
                         else CapabilityTooLong(|s.claims[i].text|, 32)))
      && (r.Success? <==> 0 < n <= 4 && forall i: nat :: !FirstMisfit(s.claims, i))
  {
    var claims := s.claims;
    forall i: nat | FirstMisfit(claims, i)
      ensures FirstClaimRefusal(claims) ==
        Some(if claims[i].text == [] then InvalidField(CapabilityClaim) else CapabilityTooLong(|claims[i].text|, 32))
    {
      MisfitIsReported(claims, i);
    }
    MisfitExists(claims);
    hide FirstMisfit, ProviderLayout;
  }

  lemma {:induction false} MisfitExists(claims: seq<CapabilityTag>)
    ensures (exists i: nat :: FirstMisfit(claims, i)) <==> exists i :: 0 <= i < |claims| && !FitsSlot(claims[i])
  {
    if claims != [] {
      var front, last := claims[..|claims| - 1], claims[|claims| - 1];
      MisfitExists(front);
      if i: nat :| FirstMisfit(front, i) {
        assert FirstMisfit(claims, i);
      } else if !FitsSlot(last) {
        assert forall j :: 0 <= j < |front| ==> FitsSlot(front[j]);
        assert FirstMisfit(claims, |claims| - 1);
      }
    }
  }

  // ---------------------------------------------------------------------
  // Decoding
  // ---------------------------------------------------------------------

  predicate AllZero(b: seq<Byte>) {
    forall i :: 0 <= i < |b| ==> b[i] == 0
  }

  function DecodeSlot(b: seq<Byte>): (t: Option<CapabilityTag>)
    requires |b| == SLOT_LEN
    ensures t.Some? ==> FitsSlot(t.value) && TagSlot(t.value) == b
  {
    var n := ReadU32(b[..4]);
    if 0 < n <= MAX_CAPABILITY_BYTES && AllZero(b[4 + n..]) then
      FromBigEndianRoundTrip(b[..4]);
      assert b == b[..4] + b[4..4 + n] + b[4 + n..];
      assert b[4 + n..] == Zeros(32 - n);
      Some(CapabilityTag(b[4..4 + n]))
    else None
  }

  lemma DecodeSlotRoundTrip(tag: CapabilityTag)
    requires FitsSlot(tag)
    ensures DecodeSlot(TagSlot(tag)) == Some(tag)
  {
    var b, n := TagSlot(tag), |tag.text|;
    assert b[..4] == U32Bytes(n);
    U32RoundTrip(n);
    assert b[4..4 + n] == tag.text;
    assert b[4 + n..] == Zeros(32 - n);
  }

  function DecodeRequester(b: seq<Byte>): (x: Option<RequesterContent>)
    ensures x.Some? ==> x.value.Fits()
  {
    if |b| != REQUESTER_PREIMAGE_LEN then None
    else
      var round, nodeId := ReadU64(b[36..44]), NodeId(b[44..76]);
      if b[..77] != RequesterHeader(round, nodeId) then None
      else
        match DecodeSlot(b[77..113])
        case None => None
        case Some(tag) => Some(RequesterContent(round, nodeId, tag, ReadU64(b[113..121]), b[121..153]))
  }

  lemma RequesterRoundTrip(x: RequesterContent)
    requires x.Fits()
    ensures DecodeRequester(RequesterLayout(x)) == Some(x)
  {
    hide RequesterHeader, TagSlot, DecodeSlot, U64Bytes, U32Bytes, FromBigEndian, FitsSlot;
    RequesterParts(RequesterHeader(x.round, x.nodeId), TagSlot(x.required), U64Bytes(x.budgetCents), x.nonce);
    RequesterHeaderOffsets(x.round, x.nodeId);
    U64RoundTrip(x.budgetCents);
    DecodeSlotRoundTrip(x.required);
  }

  /** Bytes that decode are the layout of what they decode to: there is no second encoding. */
  lemma RequesterRoundTripBack(b: seq<Byte>)
    requires DecodeRequester(b).Some?
    ensures RequesterLayout(DecodeRequester(b).value) == b
  {
    FromBigEndianRoundTrip(b[113..121]);
    assert b == b[..77] + b[77..113] + b[113..121] + b[121..153];
  }

  /** The leading claims of a slot area, up to `n` of them; the remaining slots must be zero. */
  function DecodeClaims(b: seq<Byte>, n: nat): (cs: Option<seq<CapabilityTag>>)
    requires |b| == 144
    requires 0 < n <= MAX_CAPABILITY_CLAIMS
  {
    var s0, s1, s2, s3 := DecodeSlot(b[..36]), DecodeSlot(b[36..72]), DecodeSlot(b[72..108]), DecodeSlot(b[108..]);
    if s0.None? then None
    else if n == 1 then if AllZero(b[36..]) then Some([s0.value]) else None
    else if s1.None? then None
    else if n == 2 then if AllZero(b[72..]) then Some([s0.value, s1.value]) else None
    else if s2.None? then None
    else if n == 3 then if AllZero(b[108..]) then Some([s0.value, s1.value, s2.value]) else None
    else if s3.None? then None
    else Some([s0.value, s1.value, s2.value, s3.value])
  }

  lemma ClaimSlotsSlices(claims: seq<CapabilityTag>)
    requires forall i :: 0 <= i < |claims| ==> FitsSlot(claims[i])
    ensures var b := ClaimSlots(claims);
      && b[..36] == ClaimSlot(claims, 0) && b[36..72] == ClaimSlot(claims, 1)
      && b[72..108] == ClaimSlot(claims, 2) && b[108..] == ClaimSlot(claims, 3)
  {
  }

  lemma UnusedSlotsAreZero(claims: seq<CapabilityTag>)
    requires |claims| <= MAX_CAPABILITY_CLAIMS && forall i :: 0 <= i < |claims| ==> FitsSlot(claims[i])
    ensures AllZero(ClaimSlots(claims)[SLOT_LEN * |claims|..])
  {
    ClaimSlotsSlices(claims);
  }

  /** A used slot decodes to its claim. */
  lemma SlotDecodes(claims: seq<CapabilityTag>, i: nat)
    requires i < |claims| && forall j :: 0 <= j < |claims| ==> FitsSlot(claims[j])
    ensures DecodeSlot(ClaimSlot(claims, i)) == Some(claims[i])
  {
    hide DecodeSlot, TagSlot;
    DecodeSlotRoundTrip(claims[i]);
  }

  /** Slot by slot: four slots that decode to the claims, and zeros after them, decode to the list. */
  lemma DecodeByParts(b: seq<Byte>, claims: seq<CapabilityTag>)
    requires |b| == 144 && 0 < |claims| <= MAX_CAPABILITY_CLAIMS
    requires DecodeSlot(b[..36]) == Some(claims[0])
    requires |claims| > 1 ==> DecodeSlot(b[36..72]) == Some(claims[1])
    requires |claims| > 2 ==> DecodeSlot(b[72..108]) == Some(claims[2])
    requires |claims| > 3 ==> DecodeSlot(b[108..]) == Some(claims[3])
    requires AllZero(b[SLOT_LEN * |claims|..])
    ensures DecodeClaims(b, |claims|) == Some(claims)
  {
    hide DecodeSlot, AllZero;
    if |claims| == 1 {
      assert claims == [claims[0]];
    } else if |claims| == 2 {
      assert claims == [claims[0], claims[1]];
    } else if |claims| == 3 {
      assert claims == [claims[0], claims[1], claims[2]];
    } else {
      assert claims == [claims[0], claims[1], claims[2], claims[3]];
    }
  }

  lemma ClaimsRoundTrip(claims: seq<CapabilityTag>)
    requires 0 < |claims| <= MAX_CAPABILITY_CLAIMS && forall i :: 0 <= i < |claims| ==> FitsSlot(claims[i])
    ensures DecodeClaims(ClaimSlots(claims), |claims|) == Some(claims)
  {
    hide ClaimSlots, ClaimSlot, TagSlot, DecodeSlot, DecodeClaims, AllZero;
    ClaimSlotsSlices(claims);
    UnusedSlotsAreZero(claims);
    SlotDecodes(claims, 0);
    if |claims| > 1 { SlotDecodes(claims, 1); }
    if |claims| > 2 { SlotDecodes(claims, 2); }
    if |claims| > 3 { SlotDecodes(claims, 3); }
    DecodeByParts(ClaimSlots(claims), claims);
  }

  lemma ClaimsRoundTripBack(b: seq<Byte>, n: nat)
    requires |b| == 144 && 0 < n <= MAX_CAPABILITY_CLAIMS && DecodeClaims(b, n).Some?
    ensures var claims := DecodeClaims(b, n).value;
      && |claims| == n
      && (forall i :: 0 <= i < n ==> FitsSlot(claims[i]))
      && ClaimSlots(claims) == b
  {
    var claims := DecodeClaims(b, n).value;
    assert b == b[..36] + b[36..72] + b[72..108] + b[108..];
    if n <= 1 { assert b[36..72] == Zeros(36); }
    if n <= 2 { assert b[72..108] == Zeros(36); }
    if n <= 3 { assert b[108..] == Zeros(36); }
  }

  function DecodeProvider(b: seq<Byte>): (x: Option<ProviderContent>) {
    if |b| != PROVIDER_PREIMAGE_LEN then None
    else
      var round, nodeId := ReadU64(b[35..43]), NodeId(b[43..75]);
      var n := ReadU32(b[76..80]);
      if b[..76] != ProviderHeader(round, nodeId) || !(0 < n <= MAX_CAPABILITY_CLAIMS) then None
      else
        match DecodeClaims(b[80..224], n)
        case None => None
        case Some(claims) => Some(ProviderContent(round, nodeId, claims, ReadU64(b[224..232]), b[232..264]))
  }

  /** Where the five parts of a provider preimage lie. */
  lemma Parts(h: seq<Byte>, n: seq<Byte>, c: seq<Byte>, v: seq<Byte>, z: seq<Byte>)
    requires |h| == 76 && |n| == 4 && |c| == 144 && |v| == 8 && |z| == 32
    ensures var b := h + n + c + v + z;
      && |b| == PROVIDER_PREIMAGE_LEN
      && b[..76] == h && b[35..43] == h[35..43] && b[43..75] == h[43..75]
      && b[76..80] == n && b[80..224] == c && b[224..232] == v && b[232..264] == z
  {
  }

  lemma ProviderHeaderParts(round: RoundId, nodeId: NodeId)
    ensures var h := ProviderHeader(round, nodeId);
      h[35..43] == U64Bytes(round) && h[43..75] == nodeId.bytes
  {
    hide U32Bytes, U64Bytes, Ascii;
  }

  lemma ProviderRoundTrip(x: ProviderContent)
    requires x.Fits()
    ensures DecodeProvider(ProviderLayout(x)) == Some(x)
  {
    hide ClaimSlots, ProviderHeader, DecodeClaims, U64Bytes, U32Bytes, ReadU32, ReadU64, FitsSlot;
    Parts(ProviderHeader(x.round, x.nodeId), U32Bytes(|x.claims|), ClaimSlots(x.claims),
          U64Bytes(x.reservationCents), x.nonce);
    ProviderHeaderParts(x.round, x.nodeId);
    U64RoundTrip(x.round);
    U64RoundTrip(x.reservationCents);
    U32RoundTrip(|x.claims|);
    ClaimsRoundTrip(x.claims);
  }

  lemma ProviderRoundTripBack(b: seq<Byte>)
    requires DecodeProvider(b).Some?
    ensures DecodeProvider(b).value.Fits() && ProviderLayout(DecodeProvider(b).value) == b
  {
    var x, n := DecodeProvider(b).value, ReadU32(b[76..80]);
    ClaimsRoundTripBack(b[80..224], n);
    assert |x.claims| == n && ClaimSlots(x.claims) == b[80..224];
    FromBigEndianRoundTrip(b[76..80]);
    FromBigEndianRoundTrip(b[224..232]);
    Cut(b, 76, 80, 224, 232);
  }

  lemma Cut(b: seq<Byte>, i: nat, j: nat, k: nat, l: nat)
    requires i <= j <= k <= l <= |b|
    ensures b == b[..i] + b[i..j] + b[j..k] + b[k..l] + b[l..|b|]
  {
  }

  // ---------------------------------------------------------------------
  // Where every field lies
  // ---------------------------------------------------------------------

  lemma RequesterOffsets(x: RequesterContent)
    requires x.Fits()
    ensures var b, n := RequesterLayout(x), |x.required.text|;
      && |b| == 153
      && b[..4] == [0, 0, 0, 31] && b[4..35] == Ascii("vertex-veil/v1/commit-requester") && b[35] == 1
      && FromBigEndian(b[36..44]) == x.round && b[44..76] == x.nodeId.bytes && b[76] == 0
      && FromBigEndian(b[77..81]) == n && b[81..81 + n] == x.required.text && AllZero(b[81 + n..113])
      && FromBigEndian(b[113..121]) == x.budgetCents && b[121..153] == x.nonce
  {
    var b, h, t := RequesterLayout(x), RequesterHeader(x.round, x.nodeId), TagSlot(x.required);
    HeaderLengths();
    RequesterHeaderOffsets(x.round, x.nodeId);
    SlotOffsets(x.required);
    hide RequesterHeader, TagSlot, U64Bytes, U32Bytes, FromBigEndian;
    RequesterParts(h, t, U64Bytes(x.budgetCents), x.nonce);
    U64RoundTrip(x.budgetCents);
    var n := |x.required.text|;
    SliceOfSlice(b, 77, 113, 0, 4);
    SliceOfSlice(b, 77, 113, 4, 4 + n);
    SliceOfSlice(b, 77, 113, 4 + n, 36);
  }

  lemma SliceOfSlice(b: seq<Byte>, i: nat, j: nat, k: nat, l: nat)
    requires i <= j <= |b| && k <= l <= j - i
    ensures b[i..j][k..l] == b[i + k..i + l]
  {
    var s := b[i..j];
    assert forall x :: k <= x < l ==> s[x] == b[i + x];
  }

  lemma RequesterParts(h: seq<Byte>, t: seq<Byte>, v: seq<Byte>, z: seq<Byte>)
    requires |h| == 77 && |t| == 36 && |v| == 8 && |z| == 32
    ensures var b := h + t + v + z;
      && b[..77] == h && b[..4] == h[..4] && b[4..35] == h[4..35] && b[35] == h[35] && b[36..44] == h[36..44]
      && b[44..76] == h[44..76] && b[76] == h[76]
      && b[77..113] == t && b[113..121] == v && b[121..153] == z
  {
  }

  lemma HeaderLengths()
    ensures U32Bytes(31) == [0, 0, 0, 31] && U32Bytes(30) == [0, 0, 0, 30]
    ensures |Ascii(REQUESTER_DOMAIN)| == 31 && |Ascii(PROVIDER_DOMAIN)| == 30
  {
    assert BigEndian(0, 0) == [];
    assert BigEndian(0, 1) == [0] && BigEndian(0, 2) == [0, 0] && BigEndian(0, 3) == [0, 0, 0];
  }

  lemma RequesterHeaderOffsets(round: RoundId, nodeId: NodeId)
    ensures var h := RequesterHeader(round, nodeId);
      && h[..4] == [0, 0, 0, 31] && h[4..35] == Ascii("vertex-veil/v1/commit-requester") && h[35] == 1
      && FromBigEndian(h[36..44]) == round && h[44..76] == nodeId.bytes && h[76] == 0
  {
    HeaderLengths();
    hide U64Bytes, U32Bytes, Ascii, FromBigEndian;
    assert RequesterHeader(round, nodeId)[36..44] == U64Bytes(round);
    U64RoundTrip(round);
  }

  lemma ProviderHeaderOffsets(round: RoundId, nodeId: NodeId)
    ensures var h := ProviderHeader(round, nodeId);
      && h[..4] == [0, 0, 0, 30] && h[4..34] == Ascii("vertex-veil/v1/commit-provider") && h[34] == 1
      && FromBigEndian(h[35..43]) == round && h[43..75] == nodeId.bytes && h[75] == 1
  {
    HeaderLengths();
    hide U64Bytes, U32Bytes, Ascii, FromBigEndian;
    assert ProviderHeader(round, nodeId)[35..43] == U64Bytes(round);
    U64RoundTrip(round);
  }

  lemma SlotOffsets(tag: CapabilityTag)
    requires FitsSlot(tag)
    ensures var b, n := TagSlot(tag), |tag.text|;
      FromBigEndian(b[..4]) == n && b[4..4 + n] == tag.text && AllZero(b[4 + n..])
  {
    hide U32Bytes, FromBigEndian;
    assert TagSlot(tag)[..4] == U32Bytes(|tag.text|);
    U32RoundTrip(|tag.text|);
  }

  lemma ProviderOffsets(x: ProviderContent)
    requires x.Fits()
    ensures var b := ProviderLayout(x);
      && |b| == 264
      && b[..4] == [0, 0, 0, 30] && b[4..34] == Ascii("vertex-veil/v1/commit-provider") && b[34] == 1
      && FromBigEndian(b[35..43]) == x.round && b[43..75] == x.nodeId.bytes && b[75] == 1
      && FromBigEndian(b[76..80]) == |x.claims|
      && SlotHolds(b[80..116], x.claims, 0) && SlotHolds(b[116..152], x.claims, 1)
      && SlotHolds(b[152..188], x.claims, 2) && SlotHolds(b[188..224], x.claims, 3)
      && FromBigEndian(b[224..232]) == x.reservationCents && b[232..264] == x.nonce
  {
    ProviderHeaderOffsets(x.round, x.nodeId);
    U32RoundTrip(|x.claims|);
    U64RoundTrip(x.reservationCents);
    SlotIsHeld(x.claims, 0);
    SlotIsHeld(x.claims, 1);
    SlotIsHeld(x.claims, 2);
    SlotIsHeld(x.claims, 3);
    hide ProviderHeader, ClaimSlot, SlotHolds, U64Bytes, U32Bytes, FromBigEndian;
    ProviderParts(ProviderHeader(x.round, x.nodeId), U32Bytes(|x.claims|), ClaimSlot(x.claims, 0),
                  ClaimSlot(x.claims, 1), ClaimSlot(x.claims, 2), ClaimSlot(x.claims, 3),
                  U64Bytes(x.reservationCents), x.nonce);
  }

  lemma ProviderParts(h: seq<Byte>, n: seq<Byte>, p: seq<Byte>, q: seq<Byte>, r: seq<Byte>, s: seq<Byte>,
                      v: seq<Byte>, z: seq<Byte>)
    requires |h| == 76 && |n| == 4 && |p| == |q| == |r| == |s| == 36 && |v| == 8 && |z| == 32
    ensures var b := h + n + (p + q + r + s) + v + z;
      && |b| == 264
      && b[..4] == h[..4] && b[4..34] == h[4..34] && b[34] == h[34] && b[35..43] == h[35..43]
      && b[43..75] == h[43..75] && b[75] == h[75] && b[76..80] == n
      && b[80..116] == p && b[116..152] == q && b[152..188] == r && b[188..224] == s
      && b[224..232] == v && b[232..264] == z
  {
  }

  /** A slot holds the length and the text of its claim, or nothing but zeros past the claims. */
  predicate SlotHolds(slot: seq<Byte>, claims: seq<CapabilityTag>, i: nat) {
    && |slot| == 36
    && if i < |claims| then
         var n := |claims[i].text|;
         n <= 32 && FromBigEndian(slot[..4]) == n && slot[4..4 + n] == claims[i].text && AllZero(slot[4 + n..])
       else AllZero(slot)
  }

  lemma SlotIsHeld(claims: seq<CapabilityTag>, i: nat)
    requires forall j :: 0 <= j < |claims| ==> FitsSlot(claims[j])
    ensures SlotHolds(ClaimSlot(claims, i), claims, i)
  {
    if i < |claims| {
      SlotOffsets(claims[i]);
    }
    hide TagSlot, FromBigEndian;
  }

  // ---------------------------------------------------------------------
  // Injectivity
  // ---------------------------------------------------------------------

  lemma RequesterLayoutInjective(x: RequesterContent, y: RequesterContent)
    requires x.Fits() && y.Fits() && RequesterLayout(x) == RequesterLayout(y)
    ensures x == y
  {
    RequesterRoundTrip(x);
    RequesterRoundTrip(y);
  }

  lemma ProviderLayoutInjective(x: ProviderContent, y: ProviderContent)
    requires x.Fits() && y.Fits() && ProviderLayout(x) == ProviderLayout(y)
    ensures x == y
  {
    ProviderRoundTrip(x);
    ProviderRoundTrip(y);
  }

  /** The two roles' preimages have different lengths and different domain prefixes. */
  lemma RolesNeverCoincide(x: RequesterContent, y: ProviderContent)
    requires x.Fits() && y.Fits()
    ensures RequesterLayout(x) != ProviderLayout(y)
    ensures RequesterLayout(x)[..4] != ProviderLayout(y)[..4]
  {
    assert RequesterLayout(x)[..4] == U32Bytes(31);
    assert ProviderLayout(y)[..4] == U32Bytes(30);
    U32RoundTrip(31);
    U32RoundTrip(30);
  }
}
