/** Proof artifacts and completion receipts: their byte layouts, builders and readers. */
module Artifacts {
  import opened Results
  import opened Bytes
  import opened Buffers
  import opened Protocol

  const PUBLIC_INPUTS_LENGTH := 73

  function RoleByte(intent: PublicIntent): Byte {
    if intent.RequesterIntent? then 0 else 1
  }

  // ---------------------------------------------------------------------
  // Public inputs
  // ---------------------------------------------------------------------

  datatype PublicInputs = PublicInputs(round: RoundId, nodeId: NodeId, digest: Bytes32, role: Byte)

  /** round (8) | node id (32) | commitment digest (32) | role (1). */
  function Layout(p: PublicInputs): (b: seq<Byte>)
    ensures |b| == PUBLIC_INPUTS_LENGTH
    ensures b[40..72] == p.digest
  {
    U64Bytes(p.round) + p.nodeId.bytes + p.digest + [p.role]
  }

  function ParseBytes(b: seq<Byte>): Option<PublicInputs> {
    if |b| != PUBLIC_INPUTS_LENGTH then None
    else Some(PublicInputs(ReadU64(b[0..8]), NodeId(b[8..40]), b[40..72], b[72]))
  }

  function ParsePublicInputs(hex: string): Option<PublicInputs> {
    match HexDecode(hex)
    case None => None
    case Some(b) => ParseBytes(b)
  }

  lemma ParseAfterLayout(p: PublicInputs)
    ensures ParseBytes(Layout(p)) == Some(p)
    ensures ParsePublicInputs(HexEncode(Layout(p))) == Some(p)
  {
    var b := Layout(p);
    assert b[0..8] == U64Bytes(p.round);
    assert b[8..40] == p.nodeId.bytes;
    U64RoundTrip(p.round);
    HexRoundTrip(b);
  }

  /** The other direction: bytes that parse are the layout of what they parse to. */
  lemma LayoutAfterParse(b: seq<Byte>)
    requires ParseBytes(b).Some?
    ensures Layout(ParseBytes(b).value) == b
  {
    FromBigEndianRoundTrip(b[0..8]);
    assert b == b[0..8] + b[8..40] + b[40..72] + [b[72]];
  }

  /** The commitment digest embedded in a proof, as hex; only 72 bytes are asked for. */
  function ExtractCommitmentHex(publicInputsHex: string): Option<string> {
    match HexDecode(publicInputsHex)
    case None => None
    case Some(b) => if |b| < 72 then None else Some(HexEncode(b[40..72]))
  }

  /** A proof that parses embeds the digest it parses to. */
  lemma ExtractAgreesWithParse(hex: string)
    requires ParsePublicInputs(hex).Some?
    ensures ExtractCommitmentHex(hex) == Some(HexEncode(ParsePublicInputs(hex).value.digest))
  {
  }

  function DigestOf(commitmentHex: string): Bytes32 {
    match HexDecode(commitmentHex)
    case None => Zeros(32)
    case Some(b) => if |b| >= 32 then b[..32] else Padded(b, 32)
  }

  function InputsFor(commitment: CommitmentRecord, node: NodeId, round: RoundId): PublicInputs {
    PublicInputs(round, node, DigestOf(commitment.hex), RoleByte(commitment.intent))
  }

  function AttestedBytes(inputs: seq<Byte>): seq<Byte> {
    Ascii("vertex-veil/v1/proof-attest") + inputs
  }

  function Attestation(c: Crypto, inputs: seq<Byte>): seq<Byte> {
    [1] + c.blake2s(AttestedBytes(inputs))
  }

  function ProofFor(c: Crypto, commitment: CommitmentRecord, node: NodeId, round: RoundId): ProofRecord {
    var inputs := Layout(InputsFor(commitment, node, round));
    ProofRecord(node, round, HexEncode(inputs), HexEncode(Attestation(c, inputs)))
  }

  /**
    What an artifact decodes to, byte by byte: the round big-endian, the node, the digest of the
    commitment and 0 for a requester or 1 for a provider; then a marker and a 32-byte hash.
   */
  lemma ArtifactBytes(c: Crypto, commitment: CommitmentRecord, node: NodeId, round: RoundId)
    ensures var b := HexDecode(ProofFor(c, commitment, node, round).publicInputsHex);
      && b.Some? && |b.value| == 73
      && FromBigEndian(b.value[0..8]) == round && b.value[8..40] == node.bytes
      && HoldsDigest(b.value[40..72], commitment.hex)
      && b.value[72] == if commitment.intent.RequesterIntent? then 0 else 1
    ensures var b := HexDecode(ProofFor(c, commitment, node, round).publicInputsHex);
      var m := HexDecode(ProofFor(c, commitment, node, round).proofHex);
      && m.Some? && |m.value| == 33 && m.value[0] == 1
      && m.value[1..] == c.blake2s(Ascii("vertex-veil/v1/proof-attest") + b.value)
  {
    assert Attestation(c, Layout(InputsFor(commitment, node, round)))[1..]
        == c.blake2s(Ascii("vertex-veil/v1/proof-attest") + Layout(InputsFor(commitment, node, round)));
    var inputs := InputsFor(commitment, node, round);
    var b := Layout(inputs);
    HexRoundTrip(b);
    HexRoundTrip(Attestation(c, b));
    LayoutBytes(inputs);
    DigestIsHeld(commitment.hex);
    hide HexEncode, HexDecode, Layout, DigestOf, HoldsDigest, AttestedBytes, FromBigEndian, Ascii;
  }

  /** The first 32 bytes the hex decodes to, zeros after what is missing, and only zeros when it does not decode. */
  predicate HoldsDigest(field: seq<Byte>, hex: string) {
    && |field| == 32
    && match HexDecode(hex)
       case None => field == Zeros(32)
       case Some(d) =>
         forall i :: 0 <= i < 32 ==> field[i] == if i < |d| then d[i] else 0
  }

  lemma DigestIsHeld(hex: string)
    ensures HoldsDigest(DigestOf(hex), hex)
    ensures forall d: Bytes32 :: hex == HexEncode(d) ==> DigestOf(hex) == d
  {
    hide HexDecode, HexEncode;
    forall d: Bytes32 | hex == HexEncode(d) ensures DigestOf(hex) == d {
      HexRoundTrip(d);
    }
  }

  lemma LayoutBytes(p: PublicInputs)
    ensures var b := Layout(p);
      FromBigEndian(b[0..8]) == p.round && b[8..40] == p.nodeId.bytes && b[40..72] == p.digest && b[72] == p.role
  {
    hide U64Bytes, FromBigEndian;
    assert Layout(p)[0..8] == U64Bytes(p.round);
    U64RoundTrip(p.round);
  }

  /** An attestation is for one artifact's public inputs alone, unless the hash collides on the two. */
  lemma AttestationBinds(c: Crypto, x: CommitmentRecord, node: NodeId, round: RoundId,
                         y: CommitmentRecord, node': NodeId, round': RoundId)
    requires var a, b := Layout(InputsFor(x, node, round)), Layout(InputsFor(y, node', round'));
      c.blake2s(AttestedBytes(a)) == c.blake2s(AttestedBytes(b)) ==> AttestedBytes(a) == AttestedBytes(b)
    requires ProofFor(c, x, node, round).proofHex == ProofFor(c, y, node', round').proofHex
    ensures ProofFor(c, x, node, round) == ProofFor(c, y, node', round')
  {
    var a, b := Layout(InputsFor(x, node, round)), Layout(InputsFor(y, node', round'));
    HexInjective(Attestation(c, a), Attestation(c, b));
    assert Attestation(c, a)[1..] == c.blake2s(AttestedBytes(a));
    assert Attestation(c, b)[1..] == c.blake2s(AttestedBytes(b));
    var d := |Ascii("vertex-veil/v1/proof-attest")|;
    assert AttestedBytes(a)[d..] == a && AttestedBytes(b)[d..] == b;
    ParseAfterLayout(InputsFor(x, node, round));
    ParseAfterLayout(InputsFor(y, node', round'));
  }

  /** Fills the 73-byte buffer; a digest shorter than 32 bytes leaves the rest of its field zero. */
  method FillPublicInputs(round: RoundId, node: NodeId, digest: seq<Byte>, role: Byte) returns (bytes: seq<Byte>)
    requires |digest| <= 32
    ensures bytes == Layout(PublicInputs(round, node, Padded(digest, 32), role))
  {
    var buf := new Byte[PUBLIC_INPUTS_LENGTH](i => 0);
    ghost var w := [];
    assert buf[..] == Padded(w, 73);
    CopyFromSlice(buf, 0, U64Bytes(round), w);
    w := w + U64Bytes(round);
    CopyFromSlice(buf, 8, node.bytes, w);
    w := w + node.bytes;
    CopyFromSlice(buf, 40, digest, w);
    SkipPadding(w, digest, 32, 73);
    w := w + Padded(digest, 32);
    buf[72] := role;
    assert buf[..] == w + [role];
    return buf[..];
  }

  method BuildProofArtifact(c: Crypto, commitment: CommitmentRecord, node: NodeId, round: RoundId)
    returns (proof: ProofRecord)
    ensures proof == ProofFor(c, commitment, node, round)
    ensures var b := HexDecode(proof.publicInputsHex);
      b.Some? && |b.value| == 73 && b.value[72] == if commitment.intent.RequesterIntent? then 0 else 1
  {
    ArtifactBytes(c, commitment, node, round);
    var decoded := HexDecode(commitment.hex);
    var digest := if decoded.Some? then decoded.value else Zeros(32);
    var taken := if |digest| < 32 then digest else digest[..32];
    assert DigestOf(commitment.hex) == Padded(taken, 32);
    var role := match commitment.intent
      case RequesterIntent(_, _, _) => 0
      case ProviderIntent(_, _, _) => 1;
    var inputs := FillPublicInputs(round, node, taken, role);
    var attest := Attestation(c, inputs);
    return ProofRecord(node, round, HexEncode(inputs), HexEncode(attest));
  }

  // ---------------------------------------------------------------------
  // Tampering
  // ---------------------------------------------------------------------

  /** `b ^ 1`. */
  function FlipLowBit(b: Byte): (r: Byte)
    ensures r != b && r / 2 == b / 2 && r % 2 != b % 2
  {
    if b % 2 == 0 then b + 1 else b - 1
  }

  function Tampered(hex: string): string {
    match HexDecode(hex)
    case None => hex
    case Some(b) => if |b| < 41 then hex else HexEncode(b[40 := FlipLowBit(b[40])])
  }

  /** An untouched artifact embeds its commitment's digest; a tampered one embeds another. */
  lemma TamperingIsVisible(p: PublicInputs)
    ensures ExtractCommitmentHex(HexEncode(Layout(p))) == Some(HexEncode(p.digest))
    ensures ExtractCommitmentHex(Tampered(HexEncode(Layout(p)))).Some?
    ensures ExtractCommitmentHex(Tampered(HexEncode(Layout(p)))) != Some(HexEncode(p.digest))
  {
    var b := Layout(p);
    HexRoundTrip(b);
    var t := b[40 := FlipLowBit(b[40])];
    HexRoundTrip(t);
    assert t[40..72][0] != b[40..72][0];
    if HexEncode(t[40..72]) == HexEncode(p.digest) {
      HexInjective(t[40..72], p.digest);
    }
  }

  /** Tampering touches the lowest bit of the first byte of the digest field, in anything that reaches it. */
  lemma TamperingFlipsOneBit(b: seq<Byte>)
    ensures |b| <= 40 ==> Tampered(HexEncode(b)) == HexEncode(b)
    ensures |b| > 40 ==>
      var t := HexDecode(Tampered(HexEncode(b)));
      && t.Some? && |t.value| == |b|
      && (forall i :: 0 <= i < |b| && i != 40 ==> t.value[i] == b[i])
      && t.value[40] / 2 == b[40] / 2 && t.value[40] % 2 != b[40] % 2
  {
    hide HexEncode, HexDecode, Tampered, FlipLowBit;
    TamperedBytes(b);
    if |b| > 40 {
      HexRoundTrip(b[40 := FlipLowBit(b[40])]);
    }
  }

  lemma TamperedBytes(b: seq<Byte>)
    ensures Tampered(HexEncode(b)) == HexEncode(if |b| <= 40 then b else b[40 := FlipLowBit(b[40])])
  {
    hide HexEncode, HexDecode;
    HexRoundTrip(b);
  }

  // ---------------------------------------------------------------------
  // Receipts
  // ---------------------------------------------------------------------

  const RECEIPT_DOMAIN := "vertex-veil/v1/completion-receipt"

  /** domain | provider (32) | round (8) | tag length as a truncated u32 (4) | tag. */
  function ReceiptMessage(provider: NodeId, round: RoundId, tag: CapabilityTag): seq<Byte> {
    Ascii(RECEIPT_DOMAIN) + provider.bytes + U64Bytes(round) + U32Bytes(|tag.text| % 0x1_0000_0000) + tag.text
  }

  method BuildReceiptMessage(provider: NodeId, round: RoundId, tag: CapabilityTag) returns (buf: seq<Byte>)
    ensures buf == ReceiptMessage(provider, round, tag)
  {
    buf := [];
    buf := buf + Ascii(RECEIPT_DOMAIN);
    buf := buf + provider.bytes;
    buf := buf + U64Bytes(round);
    buf := buf + U32Bytes(|tag.text| % 0x1_0000_0000);
    buf := buf + tag.text;
  }

  /** A receipt signature is about one provider, one round and one capability. */
  lemma ReceiptMessageInjective(p: NodeId, r: RoundId, t: CapabilityTag, p': NodeId, r': RoundId, t': CapabilityTag)
    requires ReceiptMessage(p, r, t) == ReceiptMessage(p', r', t')
    ensures p == p' && r == r' && t == t'
  {
    var m, m', d := ReceiptMessage(p, r, t), ReceiptMessage(p', r', t'), |RECEIPT_DOMAIN|;
    assert m[d..d + 32] == p.bytes && m'[d..d + 32] == p'.bytes;
    assert m[d + 32..d + 40] == U64Bytes(r) && m'[d + 32..d + 40] == U64Bytes(r');
    assert m[d + 44..] == t.text && m'[d + 44..] == t'.text;
    U64RoundTrip(r);
    U64RoundTrip(r');
  }

  /** domain | provider (32) | round (8) | tag. */
  function LegacyBytes(provider: NodeId, round: RoundId, tag: CapabilityTag): seq<Byte> {
    Ascii(RECEIPT_DOMAIN) + provider.bytes + U64Bytes(round) + tag.text
  }

  function LegacySignature(c: Crypto, provider: NodeId, round: RoundId, tag: CapabilityTag): Bytes32 {
    c.blake2s(LegacyBytes(provider, round, tag))
  }

  /** Where the parts of the two receipt encodings lie. */
  lemma ReceiptOffsets(provider: NodeId, round: RoundId, tag: CapabilityTag)
    ensures var m, l := ReceiptMessage(provider, round, tag), LegacyBytes(provider, round, tag);
      && m[..33] == l[..33] == Ascii("vertex-veil/v1/completion-receipt")
      && m[33..65] == l[33..65] == provider.bytes
      && FromBigEndian(m[65..73]) == FromBigEndian(l[65..73]) == round
      && FromBigEndian(m[73..77]) == |tag.text| % 0x1_0000_0000
      && m[77..] == l[73..] == tag.text
  {
    var m, l := ReceiptMessage(provider, round, tag), LegacyBytes(provider, round, tag);
    hide U64Bytes, U32Bytes;
    assert |Ascii(RECEIPT_DOMAIN)| == 33;
    assert m[65..73] == l[65..73] == U64Bytes(round);
    assert m[73..77] == U32Bytes(|tag.text| % 0x1_0000_0000);
    U64RoundTrip(round);
    U32RoundTrip(|tag.text| % 0x1_0000_0000);
  }

  /** A keyless tag is for one provider, one round and one capability, unless the hash collides on the two. */
  lemma KeylessTagBinds(c: Crypto, p: NodeId, r: RoundId, t: CapabilityTag, p': NodeId, r': RoundId, t': CapabilityTag)
    requires c.blake2s(LegacyBytes(p, r, t)) == c.blake2s(LegacyBytes(p', r', t')) ==>
               LegacyBytes(p, r, t) == LegacyBytes(p', r', t')
    requires LegacySignature(c, p, r, t) == LegacySignature(c, p', r', t')
    ensures p == p' && r == r' && t == t'
  {
    ReceiptOffsets(p, r, t);
    ReceiptOffsets(p', r', t');
  }

  /** So a keyless signature accepted for one receipt is accepted for no other. */
  lemma KeylessAcceptanceBinds(c: Crypto, hex: string, p: NodeId, r: RoundId, t: CapabilityTag,
                               p': NodeId, r': RoundId, t': CapabilityTag)
    requires c.blake2s(LegacyBytes(p, r, t)) == c.blake2s(LegacyBytes(p', r', t')) ==>
               LegacyBytes(p, r, t) == LegacyBytes(p', r', t')
    requires SignatureAccepted(c, None, hex, p, r, t) && SignatureAccepted(c, None, hex, p', r', t')
    ensures p == p' && r == r' && t == t'
  {
    HexInjective(LegacySignature(c, p, r, t), LegacySignature(c, p', r', t'));
    KeylessTagBinds(c, p, r, t, p', r', t');
  }

  function SignatureHex(c: Crypto, seed: Option<Seed>, provider: NodeId, round: RoundId, tag: CapabilityTag): string {
    match seed
    case Some(s) => HexEncode(c.sign(s, ReceiptMessage(provider, round, tag)))
    case None => HexEncode(LegacySignature(c, provider, round, tag))
  }

  lemma SignatureNotEmpty(c: Crypto, seed: Option<Seed>, provider: NodeId, round: RoundId, tag: CapabilityTag)
    requires SignatureShape(c)
    ensures SignatureHex(c, seed, provider, round, tag) != ""
  {
    if seed.Some? {
      assert |c.sign(seed.value, ReceiptMessage(provider, round, tag))| == SIGNATURE_LENGTH;
    }
  }

  /** What the verifier accepts as a signature, given the provider's configured key. */
  predicate SignatureAccepted(c: Crypto, key: Option<PublicKey>, signatureHex: string,
                              provider: NodeId, round: RoundId, tag: CapabilityTag)
  {
    match key
    case Some(pk) =>
      var raw := HexDecode(signatureHex);
      && raw.Some? && |raw.value| == SIGNATURE_LENGTH
      && c.verify(pk, ReceiptMessage(provider, round, tag), raw.value)
    case None => signatureHex == HexEncode(LegacySignature(c, provider, round, tag))
  }

  /** What is accepted: 64 bytes that the key verifies on the signed message, or, with no key, the keyless tag. */
  lemma AcceptsWhat(c: Crypto, key: Option<PublicKey>, hex: string, provider: NodeId, round: RoundId,
                    tag: CapabilityTag)
    ensures key.Some? ==>
      (SignatureAccepted(c, key, hex, provider, round, tag) <==>
       exists raw: seq<Byte> :: HexDecode(hex) == Some(raw) && |raw| == 64
                                && c.verify(key.value, ReceiptMessage(provider, round, tag), raw))
    ensures key.None? ==>
      (SignatureAccepted(c, key, hex, provider, round, tag)
       <==> hex == HexEncode(c.blake2s(LegacyBytes(provider, round, tag))))
  {
    hide HexDecode, HexEncode, ReceiptMessage, LegacyBytes;
  }

  /** Signing and checking agree whenever both sides know the same key pair, or neither knows one. */
  lemma ConsistentKeysVerify(c: Crypto, seed: Option<Seed>, provider: NodeId, round: RoundId, tag: CapabilityTag)
    requires SigningLaw(c)
    ensures var key := if seed.Some? then Some(c.publicOf(seed.value)) else None;
      && SignatureHex(c, seed, provider, round, tag) != ""
      && SignatureAccepted(c, key, SignatureHex(c, seed, provider, round, tag), provider, round, tag)
  {
    if seed.Some? {
      HexRoundTrip(c.sign(seed.value, ReceiptMessage(provider, round, tag)));
    }
  }
}
