/**
 * Block sizing for PKCS #1 v1.5 encryption of stored secrets
 * (pkg/utils/rsa.go): `split` cuts a buffer into pieces of at most `lim`
 * bytes, with the encryption side using pieces of k - 11 bytes and the
 * decryption side pieces of k bytes, where k is the modulus length in
 * octets.  The encryption itself is out of scope.
 */
module RsaChunks {

  newtype byte = b: int | 0 <= b < 256

  /** The pieces joined back together. */
  function Concat(chunks: seq<seq<byte>>): seq<byte>
    decreases |chunks|
  {
    if chunks == [] then [] else chunks[0] + Concat(chunks[1..])
  }

  /** What `split` returns: full pieces of `lim` bytes while they last, then the rest if any. */
  function Chunks(buf: seq<byte>, lim: int): seq<seq<byte>>
    requires lim > 0
    decreases |buf|
  {
    if |buf| >= lim then [buf[..lim]] + Chunks(buf[lim..], lim)
    else if |buf| > 0 then [buf]
    else []
  }

  /** Pieces as `split` makes them: none empty, none longer than `lim`, all but the last exactly `lim`. */
  ghost predicate WellShaped(chunks: seq<seq<byte>>, lim: int) {
    && (forall i :: 0 <= i < |chunks| ==> 0 < |chunks[i]| <= lim)
    && (forall i :: 0 <= i < |chunks| - 1 ==> |chunks[i]| == lim)
  }

  /**
   * `split`: cuts off `lim` bytes at a time while at least `lim` remain,
   * then keeps what is left if it is not empty.  With `lim` zero or
   * negative `split` panics: a division by zero or a negative capacity when
   * the result is allocated, otherwise the first cut is out of range.
   */
  method Split(buf: seq<byte>, lim: int) returns (chunks: seq<seq<byte>>)
    requires lim > 0
    ensures chunks == Chunks(buf, lim)
    ensures Concat(chunks) == buf
  {
    chunks := [];
    var rest := buf;
    while |rest| >= lim
      invariant chunks + Chunks(rest, lim) == Chunks(buf, lim)
      decreases |rest|
    {
      assert Chunks(rest, lim) == [rest[..lim]] + Chunks(rest[lim..], lim);
      assert chunks + Chunks(rest, lim) == (chunks + [rest[..lim]]) + Chunks(rest[lim..], lim);
      chunks := chunks + [rest[..lim]];
      rest := rest[lim..];
    }
    if |rest| > 0 {
      chunks := chunks + [rest];
    }
    ChunksConcat(buf, lim);
  }

  lemma {:induction false} ConcatAppend(a: seq<seq<byte>>, b: seq<seq<byte>>)
    ensures Concat(a + b) == Concat(a) + Concat(b)
    decreases |a|
  {
    if a == [] {
      assert a + b == b;
    } else {
      assert (a + b)[1..] == a[1..] + b;
      ConcatAppend(a[1..], b);
    }
  }

  /** Joining the pieces gives the buffer back. */
  lemma {:induction false} ChunksConcat(buf: seq<byte>, lim: int)
    requires lim > 0
    ensures Concat(Chunks(buf, lim)) == buf
    decreases |buf|
  {
    if |buf| >= lim {
      ChunksConcat(buf[lim..], lim);
      ConcatAppend([buf[..lim]], Chunks(buf[lim..], lim));
      assert Concat([buf[..lim]]) == buf[..lim] + Concat([]);
    } else if |buf| > 0 {
      assert Concat([buf]) == buf + Concat([]);
    }
  }

  /** No piece is empty or longer than `lim`, and every piece but the last is exactly `lim`. */
  lemma {:induction false} ChunksShape(buf: seq<byte>, lim: int)
    requires lim > 0
    ensures WellShaped(Chunks(buf, lim), lim)
    decreases |buf|
  {
    if |buf| >= lim {
      ChunksShape(buf[lim..], lim);
      var c := Chunks(buf, lim);
      var tail := Chunks(buf[lim..], lim);
      assert c == [buf[..lim]] + tail;
      assert forall i :: 1 <= i < |c| ==> c[i] == tail[i - 1];
    }
  }

  /**
   * There are ceil(|buf| / lim) pieces: just enough pieces of `lim` bytes
   * to hold the buffer, and an empty buffer gives none.
   */
  lemma {:induction false} ChunksCount(buf: seq<byte>, lim: int)
    requires lim > 0
    ensures |buf| <= |Chunks(buf, lim)| * lim < |buf| + lim
    ensures Chunks(buf, lim) == [] <==> buf == []
    decreases |buf|
  {
    if |buf| >= lim {
      var n := |Chunks(buf[lim..], lim)|;
      ChunksCount(buf[lim..], lim);
      assert |Chunks(buf, lim)| * lim == n * lim + lim;
    }
  }

  /** `split` undoes joining: well-shaped pieces are cut back exactly as they were. */
  lemma {:induction false} ChunksOfConcat(chunks: seq<seq<byte>>, lim: int)
    requires lim > 0
    requires WellShaped(chunks, lim)
    ensures Chunks(Concat(chunks), lim) == chunks
    decreases |chunks|
  {
    if chunks != [] {
      var tail := chunks[1..];
      assert WellShaped(tail, lim) by {
        assert forall i :: 0 <= i < |tail| ==> tail[i] == chunks[i + 1];
      }
      ChunksOfConcat(tail, lim);
      var buf := Concat(chunks);
      assert buf == chunks[0] + Concat(tail);
      if |chunks| == 1 {
        assert Concat(tail) == [];
        assert buf == chunks[0];
        if |buf| >= lim {
          assert buf[..lim] == buf && buf[lim..] == [];
          assert Chunks(buf[lim..], lim) == [];
        }
      } else {
        assert |chunks[0]| == lim;
        assert buf[..lim] == chunks[0] && buf[lim..] == Concat(tail);
        ConcatLength(tail);
      }
    }
  }

  /** A join whose first piece is non-empty is non-empty. */
  lemma ConcatLength(chunks: seq<seq<byte>>)
    requires chunks != [] && 0 < |chunks[0]|
    ensures |Concat(chunks)| > 0
  {
  }

  /** k: the length in octets of an RSA modulus of `bitLen` bits (section 2 of RFC 8017). */
  function ModulusOctets(bitLen: nat): (k: nat)
    ensures 8 * (k - 1) < bitLen <= 8 * k || (bitLen == 0 && k == 0)
  {
    (bitLen + 7) / 8
  }

  /**
   * The plaintext piece size RSAEncryptByPublicKey uses.  Section 7.2.1 of
   * RFC 8017 allows at most k - 11 octets per PKCS #1 v1.5 block; the size
   * used never exceeds that, and equals it for a whole number of octets.
   */
  function EncryptBlockSize(bitLen: nat): (lim: int)
    ensures lim <= ModulusOctets(bitLen) - 11
    ensures bitLen % 8 == 0 ==> lim == ModulusOctets(bitLen) - 11
    ensures lim > 0 <==> bitLen >= 96
  {
    bitLen / 8 - 11
  }

  /** The ciphertext piece size RSADecryptByPrivateKey uses, as written. */
  function DecryptBlockSizeAsWritten(bitLen: nat): (lim: int)
    ensures lim == ModulusOctets(bitLen) <==> bitLen % 8 == 0
  {
    bitLen / 8
  }

  /** The ciphertext piece size as intended: one PKCS #1 v1.5 ciphertext is k octets long. */
  function DecryptBlockSize(bitLen: nat): (lim: int)
    ensures lim == ModulusOctets(bitLen)
    ensures bitLen % 8 == 0 ==> lim == DecryptBlockSizeAsWritten(bitLen)
  {
    ModulusOctets(bitLen)
  }

  /**
   * Every plaintext piece the encryption side makes is non-empty and fits
   * the PKCS #1 v1.5 limit, and the pieces join back into the plaintext.
   */
  lemma PlaintextPiecesFit(plain: seq<byte>, bitLen: nat)
    requires bitLen >= 96
    ensures var pieces := Chunks(plain, EncryptBlockSize(bitLen));
      && Concat(pieces) == plain
      && forall i :: 0 <= i < |pieces| ==> 0 < |pieces[i]| <= ModulusOctets(bitLen) - 11
  {
    ChunksConcat(plain, EncryptBlockSize(bitLen));
    ChunksShape(plain, EncryptBlockSize(bitLen));
  }

  /**
   * The decryption side cuts the joined ciphertexts back into the very
   * blocks the encryption side produced, one per plaintext piece.
   */
  lemma CiphertextsRecovered(ciphertexts: seq<seq<byte>>, bitLen: nat)
    requires bitLen > 0
    requires forall i :: 0 <= i < |ciphertexts| ==> |ciphertexts[i]| == ModulusOctets(bitLen)
    ensures Chunks(Concat(ciphertexts), DecryptBlockSize(bitLen)) == ciphertexts
  {
    ChunksOfConcat(ciphertexts, DecryptBlockSize(bitLen));
  }

  /**
   * As written, a 2047-bit modulus gives 256-octet ciphertexts but a
   * 255-octet decryption piece, so one ciphertext is cut in two.
   */
  lemma DecryptAsWrittenMissplits()
    ensures var ct := seq(256, _ => 0 as byte);
      && ModulusOctets(2047) == |ct|
      && Chunks(ct, DecryptBlockSizeAsWritten(2047)) == [ct[..255], ct[255..]]
      && Chunks(ct, DecryptBlockSizeAsWritten(2047)) != [ct]
  {
    var ct := seq(256, _ => 0 as byte);
    assert Chunks(ct[255..], 255) == [ct[255..]];
  }
}
