/** Fixed byte buffers that are zeroed and then filled in place, field after field. */
module Buffers {
  import opened Bytes

  /** The text's ASCII bytes. */
  function Ascii(text: string): (b: seq<Byte>)
    ensures |b| == |text|
  {
    seq(|text|, i requires 0 <= i < |text| => (text[i] as int) % 256)
  }

  /**
    `buf[at..at + |src|].copy_from_slice(src)`, into the part of the buffer that is still zero.
    `written` is what the buffer holds before `at`.
   */
  method CopyFromSlice(buf: array<Byte>, at: nat, src: seq<Byte>, ghost written: seq<Byte>)
    requires at == |written| && at + |src| <= buf.Length
    requires buf[..] == Padded(written, buf.Length)
    modifies buf
    ensures buf[..] == Padded(written + src, buf.Length)
  {
    assert src[..0] == [] && written + [] == written;
    for i := 0 to |src|
      invariant buf[..] == Padded(written + src[..i], buf.Length)
    {
      buf[at + i] := src[i];
      assert src[..i + 1] == src[..i] + [src[i]];
    }
    assert src[..|src|] == src;
  }

  /** Nothing is written to a zeroed buffer yet. */
  lemma ZeroedBuffer(buf: seq<Byte>)
    requires forall i :: 0 <= i < |buf| ==> buf[i] == 0
    ensures buf == Padded([], |buf|)
  {
  }

  /** Leaving the rest of a zeroed slot alone pads what was copied to its front. */
  lemma SkipPadding(written: seq<Byte>, text: seq<Byte>, width: nat, length: nat)
    requires |text| <= width && |written| + width <= length
    ensures Padded(written + text, length) == Padded(written + Padded(text, width), length)
  {
  }

  /** Writing one byte just after what was written. */
  lemma PutByte(written: seq<Byte>, b: Byte, length: nat)
    requires |written| < length
    ensures Padded(written, length)[|written| := b] == Padded(written + [b], length)
  {
  }

  /** The front of a padded buffer is what was written. */
  lemma PaddedFront(written: seq<Byte>, length: nat)
    requires |written| <= length
    ensures Padded(written, length)[..|written|] == written
  {
  }

  /** A full buffer holds exactly what was written. */
  lemma FullBuffer(written: seq<Byte>)
    ensures Padded(written, |written|) == written
  {
  }
}
