/** Encoded lengths of texts, and the longest prefix of a text that fits a byte limit. */
module Utf8 {

  function Utf8Width(c: char): (w: nat)
    ensures 1 <= w <= 4
  {
    var code := c as int;
    if code < 0x80 then 1 else if code < 0x800 then 2 else if code < 0x1_0000 then 3 else 4
  }

  /** The encoding of a code point, section 3 of RFC 3629: a lead byte and continuation bytes of six bits. */
  function Encoded(code: nat): seq<int> {
    var high := code / 0x40;
    var higher := high / 0x40;
    if code < 0x80 then [code]
    else if code < 0x800 then [0xC0 + high, 0x80 + code % 0x40]
    else if code < 0x1_0000 then [0xE0 + higher, 0x80 + high % 0x40, 0x80 + code % 0x40]
    else [0xF0 + higher / 0x40, 0x80 + higher % 0x40, 0x80 + high % 0x40, 0x80 + code % 0x40]
  }

  /** The bits of a lead byte that are the code point's, by the encoding's length. */
  function Lead(bytes: seq<int>): int
    requires bytes != []
  {
    bytes[0] - if |bytes| == 1 then 0 else if |bytes| == 2 then 0xC0 else if |bytes| == 3 then 0xE0 else 0xF0
  }

  function Decoded(bytes: seq<int>, n: nat): int
    requires 1 <= n <= |bytes|
  {
    if n == 1 then Lead(bytes) else Decoded(bytes, n - 1) * 0x40 + (bytes[n - 1] - 0x80)
  }

  /** The width is the length of the encoding, which gives the character back. */
  lemma WidthIsEncoded(c: char)
    ensures var bytes := Encoded(c as int);
            && |bytes| == Utf8Width(c) && Decoded(bytes, |bytes|) == c as int
            && (forall k :: 1 <= k < |bytes| ==> 0x80 <= bytes[k] < 0xC0)
  {
    var bytes := Encoded(c as int);
    assert Decoded(bytes, 1) == Lead(bytes);
    if |bytes| > 1 { assert Decoded(bytes, 2) == Lead(bytes) * 0x40 + (bytes[1] - 0x80); }
    if |bytes| > 2 { assert Decoded(bytes, 3) == Decoded(bytes, 2) * 0x40 + (bytes[2] - 0x80); }
  }

  /** Encoded length of the first `n` characters. */
  function Utf8LengthUpTo(s: string, n: nat): nat
    requires n <= |s|
  {
    if n == 0 then 0 else Utf8LengthUpTo(s, n - 1) + Utf8Width(s[n - 1])
  }

  function Utf8Length(s: string): nat {
    Utf8LengthUpTo(s, |s|)
  }

  lemma {:induction false} LengthGrows(s: string, m: nat, n: nat)
    requires m < n <= |s|
    ensures Utf8LengthUpTo(s, m) < Utf8LengthUpTo(s, n)
  {
    if m < n - 1 { LengthGrows(s, m, n - 1); }
  }

  lemma {:induction false} LengthOfPrefix(s: string, n: nat, k: nat)
    requires k <= n <= |s|
    ensures Utf8LengthUpTo(s[..n], k) == Utf8LengthUpTo(s, k)
  {
    if k > 0 { LengthOfPrefix(s, n, k - 1); }
  }

  /** A byte offset at which a character begins or the text ends. */
  predicate IsBoundary(s: string, end: nat) {
    exists n :: 0 <= n <= |s| && Utf8LengthUpTo(s, n) == end
  }

  /** The longest prefix of the text that fits the limit. */
  ghost predicate IsCut(text: string, limit: nat, prefix: string) {
    && prefix <= text && Utf8Length(prefix) <= limit
    && forall n :: |prefix| < n <= |text| ==> Utf8LengthUpTo(text, n) > limit
  }

  /** The longest prefix that fits the limit, and whether anything was cut off. */
  method Bounded(text: string, limit: nat) returns (prefix: string, truncated: bool)
    ensures IsCut(text, limit, prefix)
    ensures truncated <==> Utf8Length(text) > limit
    ensures truncated <==> |prefix| < |text|
  {
    if Utf8Length(text) <= limit {
      return text, false;
    }
    var end: int := limit;
    assert Utf8LengthUpTo(text, 0) == 0;
    while !IsBoundary(text, end)
      invariant 0 <= end <= limit
      invariant forall k: nat :: end < k <= limit ==> !IsBoundary(text, k)
      decreases end
    {
      assert IsBoundary(text, Utf8LengthUpTo(text, 0));
      end := end - 1;
    }
    var n :| 0 <= n <= |text| && Utf8LengthUpTo(text, n) == end;
    forall m | n < m <= |text| ensures Utf8LengthUpTo(text, m) > limit {
      LengthGrows(text, n, m);
      assert IsBoundary(text, Utf8LengthUpTo(text, m));
    }
    LengthOfPrefix(text, n, n);
    return text[..n], true;
  }
}
