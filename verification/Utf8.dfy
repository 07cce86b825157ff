/** Lengths of texts in UTF-8, and where a cut in their bytes falls between characters. */
module Utf8 {
  import opened Common

  /** Bytes of a character in UTF-8. */
  function Width(c: char): (n: nat)
    ensures 1 <= n <= 4
  {
    if c as int < 0x80 then 1 else if c as int < 0x800 then 2 else if c as int < 0x1_0000 then 3 else 4
  }

  function Bytes(s: string): (n: nat)
    ensures |s| <= n <= 4 * |s|
  {
    if s == "" then 0 else Bytes(Front(s)) + Width(Last(s))
  }

  lemma {:induction false} BytesOfConcat(a: string, b: string)
    ensures Bytes(a + b) == Bytes(a) + Bytes(b)
    decreases |b|
  {
    if b == "" {
      assert a + b == a;
    } else {
      assert Front(a + b) == a + Front(b) && Last(a + b) == Last(b);
      BytesOfConcat(a, Front(b));
    }
  }

  lemma BytesOfOne(c: char)
    ensures Bytes([c]) == Width(c)
  {
    assert Front([c]) == "" && Last([c]) == c;
  }

  /** The first `n` bytes of a text are whole characters. */
  predicate OnBoundary(s: string, n: nat) {
    exists k | 0 <= k <= |s| :: Bytes(s[..k]) == n
  }

  // ---------- The bytes themselves (RFC 3629, section 3) ----------

  function Encode(c: char): seq<int> {
    var n := c as int;
    if n < 0x80 then [n]
    else if n < 0x800 then [0xC0 + n / 0x40, 0x80 + n % 0x40]
    else if n < 0x1_0000 then [0xE0 + n / 0x1000, 0x80 + n / 0x40 % 0x40, 0x80 + n % 0x40]
    else [0xF0 + n / 0x4_0000, 0x80 + n / 0x1000 % 0x40, 0x80 + n / 0x40 % 0x40, 0x80 + n % 0x40]
  }

  function EncodeAll(s: string): seq<int> {
    if s == "" then [] else EncodeAll(Front(s)) + Encode(Last(s))
  }

  /** A byte that goes on with a character another one began. */
  predicate Continues(b: int) {
    0x80 <= b < 0xC0
  }

  /** A character's width is the number of its bytes; only its first one does not continue another. */
  lemma WidthIsEncoded(c: char)
    ensures |Encode(c)| == Width(c)
    ensures forall i :: 0 <= i < |Encode(c)| ==> 0 <= Encode(c)[i] < 0x100 && (Continues(Encode(c)[i]) <==> i > 0)
  {
  }

  lemma {:induction false} BytesAreEncoded(s: string)
    ensures |EncodeAll(s)| == Bytes(s)
  {
    if s == "" {
    } else {
      BytesAreEncoded(Front(s));
      WidthIsEncoded(Last(s));
    }
  }

  /** A cut falls between characters exactly if the byte behind it, if there is one, does not continue one. */
  lemma {:induction false} BoundaryIsLeadByte(s: string, n: nat)
    requires n <= Bytes(s)
    ensures |EncodeAll(s)| == Bytes(s)
    ensures OnBoundary(s, n) <==> n == Bytes(s) || !Continues(EncodeAll(s)[n])
  {
    BytesAreEncoded(s);
    if n == Bytes(s) {
      assert s[..|s|] == s;
    } else {
      var front, m := Front(s), Bytes(Front(s));
      BytesAreEncoded(front);
      WidthIsEncoded(Last(s));
      BoundaryInFront(s, n);
      if n < m {
        BoundaryIsLeadByte(front, n);
        assert EncodeAll(s)[n] == EncodeAll(front)[n];
      } else {
        assert EncodeAll(s)[n] == Encode(Last(s))[n - m];
        assert front[..|front|] == front;
        BytesOfParts(front);
      }
    }
  }

  /** A boundary before the end is one of the text without its last character. */
  lemma BoundaryInFront(s: string, n: nat)
    requires s != "" && n < Bytes(s)
    ensures OnBoundary(s, n) <==> OnBoundary(Front(s), n)
  {
    forall k | 0 <= k < |s| ensures s[..k] == Front(s)[..k] {}
    assert s[..|s|] == s;
  }

  lemma BytesOfParts(s: string)
    ensures forall k :: 0 <= k <= |s| ==> Bytes(s[..k]) <= Bytes(s)
  {
    hide Bytes;
    forall k | 0 <= k <= |s| ensures Bytes(s[..k]) <= Bytes(s) {
      BytesOfConcat(s[..k], s[k..]);
      assert s == s[..k] + s[k..];
    }
  }

  predicate Ascii(s: string) {
    forall i :: 0 <= i < |s| ==> Width(s[i]) == 1
  }

  lemma {:induction false} BytesOfAscii(s: string)
    requires Ascii(s)
    ensures Bytes(s) == |s|
  {
    if s == "" {
    } else {
      assert Width(s[|s| - 1]) == 1;
      BytesOfAscii(Front(s));
    }
  }

  /** Every cut of an ASCII text falls between characters. */
  lemma AsciiBoundaries(s: string, n: nat)
    requires Ascii(s) && n <= Bytes(s)
    ensures OnBoundary(s, n)
  {
    BytesOfAscii(s);
    BytesOfAscii(s[..n]);
  }

  // ---------- Texts that need not be encodable ----------

  /** What a text of the runtime is made of: a character, or half of a surrogate pair on its own. */
  type CodePoint = x: int | 0 <= x < 0x11_0000

  type Text = seq<CodePoint>

  predicate Surrogate(x: CodePoint) {
    0xD800 <= x < 0xE000
  }

  /** UTF-8 has no encoding of a surrogate. */
  predicate Encodable(t: Text) {
    forall i :: 0 <= i < |t| ==> !Surrogate(t[i])
  }

  function Chars(t: Text): (s: string)
    requires Encodable(t)
    ensures |s| == |t| && forall i :: 0 <= i < |t| ==> s[i] as int == t[i]
  {
    seq(|t|, i requires 0 <= i < |t| => t[i] as char)
  }

  function Points(s: string): (t: Text)
    ensures |t| == |s| && Encodable(t) && forall i :: 0 <= i < |s| ==> t[i] == s[i] as int
  {
    seq(|s|, i requires 0 <= i < |s| => s[i] as int)
  }

  /** The encodable texts are the strings of characters. */
  lemma CharsOfPoints(s: string, t: Text)
    ensures Chars(Points(s)) == s
    ensures Encodable(t) ==> Points(Chars(t)) == t
  {
  }
}
