/**
  The circuits' preimage builders: one 264-byte scratch buffer, shift-and-mask integer writes, byte
  loops, slots gated by the claim count, and a trim to the requester's length.
 */
module NoirBuilders {
  import opened Bytes
  import opened Buffers
  import opened Protocol
  import opened Preimages

  const DOMAIN_REQUESTER: seq<Byte> := [
    0x76, 0x65, 0x72, 0x74, 0x65, 0x78, 0x2d, 0x76, 0x65, 0x69, 0x6c, 0x2f, 0x76, 0x31,
    0x2f, 0x63, 0x6f, 0x6d, 0x6d, 0x69, 0x74, 0x2d, 0x72, 0x65, 0x71, 0x75, 0x65, 0x73,
    0x74, 0x65, 0x72
  ]

  const DOMAIN_PROVIDER: seq<Byte> := [
    0x76, 0x65, 0x72, 0x74, 0x65, 0x78, 0x2d, 0x76, 0x65, 0x69, 0x6c, 0x2f, 0x76, 0x31,
    0x2f, 0x63, 0x6f, 0x6d, 0x6d, 0x69, 0x74, 0x2d, 0x70, 0x72, 0x6f, 0x76, 0x69, 0x64,
    0x65, 0x72
  ]

  const SCRATCH_LEN := 264

  lemma RequesterDomainsAgree()
    ensures DOMAIN_REQUESTER == Ascii(REQUESTER_DOMAIN)
  {
  }

  lemma ProviderDomainsAgree()
    ensures DOMAIN_PROVIDER == Ascii(PROVIDER_DOMAIN)
  {
  }

  /** The byte lists spell the domain strings of the runtime. */
  lemma DomainsAgree()
    ensures DOMAIN_REQUESTER == Ascii(REQUESTER_DOMAIN)
    ensures DOMAIN_PROVIDER == Ascii(PROVIDER_DOMAIN)
  {
    hide Ascii;
    RequesterDomainsAgree();
    ProviderDomainsAgree();
  }

  const BLANK: Bytes32 := Zeros(32)

  type FourTags = s: seq<Bytes32> | |s| == 4 witness [BLANK, BLANK, BLANK, BLANK]

  type FourLens = s: seq<U32> | |s| == 4 witness [0, 0, 0, 0]

  // ---------------------------------------------------------------------
  // Integers by shifting and masking
  // ---------------------------------------------------------------------

  /** Shifting and masking picks the base-256 digits. */
  lemma LowDigits(v: nat)
    ensures BigEndian(v, 4) == [v / 0x100_0000 % 256, v / 0x1_0000 % 256, v / 0x100 % 256, v % 256]
  {
    assert BigEndian(v, 4) == BigEndian(v / 256, 3) + [v % 256];
    assert BigEndian(v / 256, 3) == BigEndian(v / 0x1_0000, 2) + [v / 0x100 % 256];
    assert BigEndian(v / 0x1_0000, 2) == BigEndian(v / 0x100_0000, 1) + [v / 0x1_0000 % 256];
    assert BigEndian(v / 0x100_0000, 1) == [v / 0x100_0000 % 256];
  }

  /** The low four bytes of a word and those above them. */
  lemma BigEndianSplit(v: nat)
    ensures BigEndian(v, 8) == BigEndian(v / 0x1_0000_0000, 4) + BigEndian(v, 4)
  {
    assert BigEndian(v, 8) == BigEndian(v / 256, 7) + [v % 256];
    assert BigEndian(v / 256, 7) == BigEndian(v / 0x1_0000, 6) + [v / 256 % 256];
    assert BigEndian(v / 0x1_0000, 6) == BigEndian(v / 0x100_0000, 5) + [v / 0x1_0000 % 256];
    assert BigEndian(v / 0x100_0000, 5) == BigEndian(v / 0x1_0000_0000, 4) + [v / 0x100_0000 % 256];
    assert BigEndian(v, 4) == BigEndian(v / 256, 3) + [v % 256];
    assert BigEndian(v / 256, 3) == BigEndian(v / 0x1_0000, 2) + [v / 256 % 256];
    assert BigEndian(v / 0x1_0000, 2) == BigEndian(v / 0x100_0000, 1) + [v / 0x1_0000 % 256];
    assert BigEndian(v / 0x100_0000, 1) == [v / 0x100_0000 % 256];
  }

  method WriteU32Be(buf: array<Byte>, pos: nat, value: U32, ghost written: seq<Byte>)
    requires pos == |written| && pos + 4 <= buf.Length
    requires buf[..] == Padded(written, buf.Length)
    modifies buf
    ensures buf[..] == Padded(written + U32Bytes(value), buf.Length)
  {
    buf[pos + 0] := value / 0x100_0000 % 256;
    buf[pos + 1] := value / 0x1_0000 % 256;
    buf[pos + 2] := value / 0x100 % 256;
    buf[pos + 3] := value % 256;
    LowDigits(value);
  }

  method WriteU64Be(buf: array<Byte>, pos: nat, value: U64, ghost written: seq<Byte>)
    requires pos == |written| && pos + 8 <= buf.Length
    requires buf[..] == Padded(written, buf.Length)
    modifies buf
    ensures buf[..] == Padded(written + U64Bytes(value), buf.Length)
  {
    hide U64Bytes;
    buf[pos + 0] := value / 0x100_0000_0000_0000 % 256;
    buf[pos + 1] := value / 0x1_0000_0000_0000 % 256;
    buf[pos + 2] := value / 0x100_0000_0000 % 256;
    buf[pos + 3] := value / 0x1_0000_0000 % 256;
    buf[pos + 4] := value / 0x100_0000 % 256;
    buf[pos + 5] := value / 0x1_0000 % 256;
    buf[pos + 6] := value / 0x100 % 256;
    buf[pos + 7] := value % 256;
    U64Digits(value);
    ghost var after := Padded(written + U64Bytes(value), buf.Length);
    assert forall k :: 0 <= k < pos ==> buf[k] == after[k];
    assert forall k :: pos + 8 <= k < buf.Length ==> buf[k] == after[k];
  }

  lemma U64Digits(v: U64)
    ensures U64Bytes(v) == [v / 0x100_0000_0000_0000 % 256, v / 0x1_0000_0000_0000 % 256, v / 0x100_0000_0000 % 256,
                            v / 0x1_0000_0000 % 256, v / 0x100_0000 % 256, v / 0x1_0000 % 256, v / 0x100 % 256, v % 256]
  {
    var high := v / 0x1_0000_0000;
    BigEndianSplit(v);
    LowDigits(high);
    LowDigits(v);
    assert high / 0x100_0000 == v / 0x100_0000_0000_0000;
    assert high / 0x1_0000 == v / 0x1_0000_0000_0000;
    assert high / 0x100 == v / 0x100_0000_0000;
  }

  // ---------------------------------------------------------------------
  // The requester's preimage
  // ---------------------------------------------------------------------

  /** What the requester's circuit hashes, for any inputs. */
  function RequesterBytes(round: RoundId, nodeId: Bytes32, cap: Bytes32, capLen: U32, budget: U64, nonce: Bytes32)
    : (b: seq<Byte>)
    ensures |b| == REQUESTER_PREIMAGE_LEN
  {
    RequesterHeader(round, NodeId(nodeId)) + U32Bytes(capLen) + cap + U64Bytes(budget) + nonce
  }

  method BuildRequesterPreimage(round: RoundId, nodeId: Bytes32, cap: Bytes32, capLen: U32, budget: U64, nonce: Bytes32)
    returns (preimage: seq<Byte>)
    ensures preimage == RequesterBytes(round, nodeId, cap, capLen, budget, nonce)
  {
    hide Padded, U32Bytes, U64Bytes, Ascii;
    var big := new Byte[SCRATCH_LEN](i => 0);
    ZeroedBuffer(big[..]);
    ghost var w: seq<Byte> := [];
    WriteU32Be(big, 0, 31, w);
    w := U32Bytes(31);
    assert [] + w == w;
    CopyFromSlice(big, 4, DOMAIN_REQUESTER, w);
    w := w + DOMAIN_REQUESTER;
    PutByte(w, 1, SCRATCH_LEN);
    big[35] := 1;
    w := w + [1];
    WriteU64Be(big, 36, round, w);
    w := w + U64Bytes(round);
    CopyFromSlice(big, 44, nodeId, w);
    w := w + nodeId;
    PutByte(w, 0, SCRATCH_LEN);
    big[76] := 0;
    w := w + [0];
    DomainsAgree();
    assert w == RequesterHeader(round, NodeId(nodeId));
    WriteU32Be(big, 77, capLen, w);
    w := w + U32Bytes(capLen);
    CopyFromSlice(big, 81, cap, w);
    w := w + cap;
    WriteU64Be(big, 113, budget, w);
    w := w + U64Bytes(budget);
    CopyFromSlice(big, 121, nonce, w);
    w := w + nonce;
    PaddedFront(w, SCRATCH_LEN);
    preimage := Trim(big);
  }

  /** The leading 153 bytes of the scratch buffer. */
  method Trim(big: array<Byte>) returns (preimage: seq<Byte>)
    requires big.Length == SCRATCH_LEN
    ensures preimage == big[..REQUESTER_PREIMAGE_LEN]
  {
    var out := new Byte[REQUESTER_PREIMAGE_LEN](i => 0);
    for i := 0 to REQUESTER_PREIMAGE_LEN
      invariant out[..i] == big[..i]
    {
      out[i] := big[i];
    }
    return out[..];
  }

  // ---------------------------------------------------------------------
  // The provider's preimage
  // ---------------------------------------------------------------------

  /** A slot past the claim count is blank, whatever its inputs. */
  function GatedSlot(bytes: Bytes32, len: U32, active: bool): (b: seq<Byte>)
    ensures |b| == SLOT_LEN
  {
    if active then U32Bytes(len) + bytes else Zeros(SLOT_LEN)
  }

  function GatedSlots(bytes: FourTags, lens: FourLens, count: U32, n: nat): (b: seq<Byte>)
    requires n <= 4
    ensures |b| == SLOT_LEN * n
  {
    if n == 0 then [] else GatedSlots(bytes, lens, count, n - 1) + GatedSlot(bytes[n - 1], lens[n - 1], n - 1 < count)
  }

  /** What the provider's circuit hashes, for any inputs. */
  function ProviderBytes(round: RoundId, nodeId: Bytes32, bytes: FourTags, lens: FourLens, count: U32,
                         reservation: U64, nonce: Bytes32): (b: seq<Byte>)
    ensures |b| == PROVIDER_PREIMAGE_LEN
  {
    ProviderHeader(round, NodeId(nodeId)) + U32Bytes(count) + GatedSlots(bytes, lens, count, 4)
    + U64Bytes(reservation) + nonce
  }

  /** One slot: its length, then its bytes one by one, each gated. */
  method WriteSlot(big: array<Byte>, start: nat, bytes: Bytes32, len: U32, active: bool, ghost written: seq<Byte>)
    requires big.Length == SCRATCH_LEN && start == |written| && start + SLOT_LEN <= SCRATCH_LEN
    requires big[..] == Padded(written, SCRATCH_LEN)
    modifies big
    ensures big[..] == Padded(written + GatedSlot(bytes, len, active), SCRATCH_LEN)
  {
    var gated: U32 := if active then len else 0;
    WriteU32Be(big, start, gated, written);
    ghost var w := written + U32Bytes(gated);
    ghost var content: seq<Byte> := if active then bytes else Zeros(32);
    assert content[..0] == [] && w + [] == w;
    for i := 0 to 32
      invariant big[..] == Padded(w + content[..i], SCRATCH_LEN)
    {
      PutByte(w + content[..i], content[i], SCRATCH_LEN);
      big[start + 4 + i] := if active then bytes[i] else 0;
      assert content[..i + 1] == content[..i] + [content[i]];
      assert w + content[..i + 1] == w + content[..i] + [content[i]];
    }
    assert content[..32] == content;
    LowDigits(0);
    assert U32Bytes(0) + Zeros(32) == Zeros(SLOT_LEN);
    assert w + content == written + (U32Bytes(gated) + content);
  }

  method WriteSlots(big: array<Byte>, bytes: FourTags, lens: FourLens, count: U32, ghost head: seq<Byte>)
    requires big.Length == SCRATCH_LEN && |head| == 80
    requires big[..] == Padded(head, SCRATCH_LEN)
    modifies big
    ensures big[..] == Padded(head + GatedSlots(bytes, lens, count, 4), SCRATCH_LEN)
  {
    hide Padded, GatedSlot;
    assert head + [] == head;
    for slot := 0 to 4
      invariant big[..] == Padded(head + GatedSlots(bytes, lens, count, slot), SCRATCH_LEN)
    {
      var active := slot < count;
      ghost var w := head + GatedSlots(bytes, lens, count, slot);
      WriteSlot(big, 80 + slot * SLOT_LEN, bytes[slot], lens[slot], active, w);
      assert w + GatedSlot(bytes[slot], lens[slot], active) == head + GatedSlots(bytes, lens, count, slot + 1);
    }
  }

  method BuildProviderPreimage(round: RoundId, nodeId: Bytes32, bytes: FourTags, lens: FourLens, count: U32,
                               reservation: U64, nonce: Bytes32) returns (preimage: seq<Byte>)
    ensures preimage == ProviderBytes(round, nodeId, bytes, lens, count, reservation, nonce)
  {
    hide GatedSlots, Padded, U32Bytes, U64Bytes, Ascii;
    var big := new Byte[SCRATCH_LEN](i => 0);
    ZeroedBuffer(big[..]);
    ghost var w: seq<Byte> := [];
    WriteU32Be(big, 0, 30, w);
    w := U32Bytes(30);
    assert [] + w == w;
    CopyFromSlice(big, 4, DOMAIN_PROVIDER, w);
    w := w + DOMAIN_PROVIDER;
    PutByte(w, 1, SCRATCH_LEN);
    big[34] := 1;
    w := w + [1];
    WriteU64Be(big, 35, round, w);
    w := w + U64Bytes(round);
    CopyFromSlice(big, 43, nodeId, w);
    w := w + nodeId;
    PutByte(w, 1, SCRATCH_LEN);
    big[75] := 1;
    w := w + [1];
    DomainsAgree();
    assert w == ProviderHeader(round, NodeId(nodeId));
    WriteU32Be(big, 76, count, w);
    w := w + U32Bytes(count);
    WriteSlots(big, bytes, lens, count, w);
    w := w + GatedSlots(bytes, lens, count, 4);
    WriteU64Be(big, 224, reservation, w);
    w := w + U64Bytes(reservation);
    CopyFromSlice(big, 232, nonce, w);
    w := w + nonce;
    FullBuffer(w);
    return big[..];
  }
}
