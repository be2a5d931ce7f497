/**
 The SHA-256 helper of the authentication server: digest a string and render
 the 32-byte digest as 64 lowercase hex characters followed by a NUL.

 The digest itself (OpenSSL's EVP interface) is a function-valued parameter;
 only the hex rendering and the NULL-on-failure paths are modelled.
 */
module Crypto {
  import opened Optional

  const SHA256_DIGEST_LENGTH: nat := 32

  /** An unsigned char. */
  newtype uint8 = x: int | 0 <= x < 256

  /** A lowercase hex digit, as "%x" prints it. */
  predicate IsHexChar(c: char) {
    '0' <= c <= '9' || 'a' <= c <= 'f'
  }

  /** The lowercase hex digit of a value below 16. */
  function HexDigit(n: int): (c: char)
    requires 0 <= n < 16
    ensures IsHexChar(c)
    ensures c <= '9' <==> n < 10
  {
    if n < 10 then ('0' as int + n) as char else ('a' as int + (n - 10)) as char
  }

  /** The value of a hex digit, or None for any other character. */
  function DigitValue(c: char): (r: Option<int>)
    ensures r.Some? <==> IsHexChar(c)
    ensures r.Some? ==> 0 <= r.value < 16 && HexDigit(r.value) == c
  {
    if '0' <= c <= '9' then Some(c as int - '0' as int)
    else if 'a' <= c <= 'f' then Some(c as int - 'a' as int + 10)
    else None
  }

  /** "%02x" of one byte: high nibble, then low nibble. */
  function ByteHex(b: uint8): (h: string)
    ensures |h| == 2 && IsHexChar(h[0]) && IsHexChar(h[1])
    ensures DigitValue(h[0]).Some? && DigitValue(h[1]).Some?
    ensures 16 * DigitValue(h[0]).value + DigitValue(h[1]).value == b as int
  {
    [HexDigit(b as int / 16), HexDigit(b as int % 16)]
  }

  /** A byte built from two nibbles renders as those two digits. */
  lemma ByteHexOfNibbles(hi: int, lo: int)
    requires 0 <= hi < 16 && 0 <= lo < 16
    ensures 0 <= hi * 16 + lo < 256
    ensures ByteHex((hi * 16 + lo) as uint8) == [HexDigit(hi), HexDigit(lo)]
  {
  }

  /** The hex rendering of a byte string, two characters per byte. */
  function Hex(d: seq<uint8>): (h: string)
    ensures |h| == 2 * |d|
    ensures forall i :: 0 <= i < |h| ==> IsHexChar(h[i])
    decreases |d|
  {
    if d == [] then [] else ByteHex(d[0]) + Hex(d[1..])
  }

  /** Characters 2i and 2i+1 of the rendering are the two digits of byte i. */
  lemma {:induction false} HexAt(d: seq<uint8>, i: int)
    requires 0 <= i < |d|
    ensures Hex(d)[2 * i] == HexDigit(d[i] as int / 16)
    ensures Hex(d)[2 * i + 1] == HexDigit(d[i] as int % 16)
    decreases |d|
  {
    if i > 0 {
      HexAt(d[1..], i - 1);
    }
  }

  /** Read a hex string back two characters at a time; None if it is not one. */
  function Unhex(h: string): (r: Option<seq<uint8>>)
    ensures r.Some? ==> Hex(r.value) == h
    decreases |h|
  {
    if h == [] then Some([])
    else if |h| == 1 then None
    else
      match (DigitValue(h[0]), DigitValue(h[1]), Unhex(h[2..]))
      case (Some(hi), Some(lo), Some(rest)) =>
        var b := (hi * 16 + lo) as uint8;
        ByteHexOfNibbles(hi, lo);
        assert ByteHex(b) == h[..2];
        assert Hex([b] + rest) == ByteHex(b) + Hex(rest) by {
          assert ([b] + rest)[1..] == rest;
        }
        Some([b] + rest)
      case _ => None
  }

  /** Reading a rendering back gives the bytes: the rendering loses nothing. */
  lemma {:induction false} UnhexHex(d: seq<uint8>)
    ensures Unhex(Hex(d)) == Some(d)
    decreases |d|
  {
    if d != [] {
      var h := Hex(d);
      UnhexHex(d[1..]);
      assert h[2..] == Hex(d[1..]);
      var b := d[0] as int;
      assert h[..2] == ByteHex(d[0]);
      assert DigitValue(h[0]) == Some(b / 16);
      assert DigitValue(h[1]) == Some(b % 16);
      assert [d[0]] + d[1..] == d;
    }
  }

  /** Distinct digests have distinct renderings. */
  lemma HexInjective(a: seq<uint8>, b: seq<uint8>)
    requires Hex(a) == Hex(b)
    ensures a == b
  {
    UnhexHex(a);
    UnhexHex(b);
  }

  /**
   The rendering loop: "%02x" of byte i is printed at offset 2i of a
   65-character buffer whose initial contents are arbitrary; each print also
   writes a NUL after its two digits, and the final NUL is stored at 64.
   */
  method FormatHex(hash: seq<uint8>, uninit: seq<char>) returns (hexHash: seq<char>)
    requires |hash| == SHA256_DIGEST_LENGTH
    requires |uninit| == 2 * SHA256_DIGEST_LENGTH + 1
    ensures |hexHash| == 2 * SHA256_DIGEST_LENGTH + 1
    ensures hexHash[2 * SHA256_DIGEST_LENGTH] == '\0'
    ensures forall i :: 0 <= i < SHA256_DIGEST_LENGTH ==>
              hexHash[2 * i] == HexDigit(hash[i] as int / 16)
              && hexHash[2 * i + 1] == HexDigit(hash[i] as int % 16)
    ensures forall i :: 0 <= i < 2 * SHA256_DIGEST_LENGTH ==> IsHexChar(hexHash[i])
    ensures hexHash[..2 * SHA256_DIGEST_LENGTH] == Hex(hash)
  {
    hexHash := uninit;
    var i := 0;
    while i < SHA256_DIGEST_LENGTH
      invariant 0 <= i <= SHA256_DIGEST_LENGTH
      invariant |hexHash| == 2 * SHA256_DIGEST_LENGTH + 1
      invariant forall j :: 0 <= j < i ==>
                  hexHash[2 * j] == HexDigit(hash[j] as int / 16)
                  && hexHash[2 * j + 1] == HexDigit(hash[j] as int % 16)
      invariant i > 0 ==> hexHash[2 * i] == '\0'
    {
      var digits := ByteHex(hash[i]);
      hexHash := hexHash[2 * i := digits[0]][2 * i + 1 := digits[1]][2 * i + 2 := '\0'];
      i := i + 1;
    }
    hexHash := hexHash[2 * SHA256_DIGEST_LENGTH := '\0'];
    forall k | 0 <= k < 2 * SHA256_DIGEST_LENGTH
      ensures hexHash[k] == Hex(hash)[k]
    {
      HexAt(hash, k / 2);
    }
  }

  /** The steps of the helper that can fail, each making it return NULL. */
  datatype Sha256Step =
    | HashAlloc      // malloc of the digest buffer
    | ContextNew     // EVP_MD_CTX_new
    | DigestInit     // EVP_DigestInit_ex
    | DigestUpdate   // EVP_DigestUpdate
    | DigestFinal    // EVP_DigestFinal_ex
    | HexAlloc       // malloc of the hex buffer

  /**
   Digest `input` and render it. `failing` holds the steps that fail; any
   failure yields None (NULL), never a partial string. On success the result
   is the NUL-terminated rendering of digest(input) and nothing else.
   */
  method Sha256(input: string, digest: string -> seq<uint8>, failing: set<Sha256Step>,
                uninit: seq<char>) returns (r: Option<seq<char>>)
    requires |digest(input)| == SHA256_DIGEST_LENGTH
    requires |uninit| == 2 * SHA256_DIGEST_LENGTH + 1
    ensures r.None? <==> failing != {}
    ensures r.Some? ==> |r.value| == 2 * SHA256_DIGEST_LENGTH + 1
    ensures r.Some? ==> r.value[2 * SHA256_DIGEST_LENGTH] == '\0'
    ensures r.Some? ==> r.value[..2 * SHA256_DIGEST_LENGTH] == Hex(digest(input))
    ensures r.Some? ==> Unhex(r.value[..2 * SHA256_DIGEST_LENGTH]) == Some(digest(input))
  {
    if HashAlloc in failing || ContextNew in failing || DigestInit in failing
       || DigestUpdate in failing || DigestFinal in failing {
      return None;
    }
    var hash := digest(input);
    if HexAlloc in failing {
      return None;
    }
    assert failing == {} by {
      forall st | st in failing ensures false {
        match st
        case HashAlloc =>
        case ContextNew =>
        case DigestInit =>
        case DigestUpdate =>
        case DigestFinal =>
        case HexAlloc =>
      }
    }
    var hexHash := FormatHex(hash, uninit);
    UnhexHex(hash);
    r := Some(hexHash);
  }
}
