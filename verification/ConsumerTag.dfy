/** Capping a consumer tag to an AMQP shortstr (capConsumerTag in receiver/receiver.go):
    at most 255 bytes, section 4.2.5.3 of AMQP 0-9-1, cut between UTF-8 sequences. */
module ConsumerTags {
  type Byte = b: int | 0 <= b < 256

  const MAX_TAG := 255

  // ------------------------------------------ UTF-8, section 4 of RFC 3629

  predicate Tail(b: Byte) { 0x80 <= b <= 0xBF }

  // utf8.RuneStart: anything but a continuation byte.
  predicate RuneStart(b: Byte) { !Tail(b) }

  // The length of a sequence that starts with this byte; 0 when none does.
  function Width(b: Byte): nat {
    if b <= 0x7F then 1
    else if 0xC2 <= b <= 0xDF then 2
    else if 0xE0 <= b <= 0xEF then 3
    else if 0xF0 <= b <= 0xF4 then 4
    else 0
  }

  // The second byte is narrowed after these leads: overlong forms, surrogates, beyond U+10FFFF.
  predicate SecondFits(lead: Byte, second: Byte) {
    && (lead == 0xE0 ==> 0xA0 <= second)
    && (lead == 0xED ==> second <= 0x9F)
    && (lead == 0xF0 ==> 0x90 <= second)
    && (lead == 0xF4 ==> second <= 0x8F)
  }

  predicate Sequence(s: seq<Byte>) {
    && |s| > 0
    && Width(s[0]) == |s|
    && (forall i :: 1 <= i < |s| ==> Tail(s[i]))
    && (|s| > 1 ==> SecondFits(s[0], s[1]))
  }

  predicate ValidUtf8(s: seq<Byte>) {
    s == [] || (0 < Width(s[0]) <= |s| && Sequence(s[..Width(s[0])]) && ValidUtf8(s[Width(s[0])..]))
  }

  // A prefix of valid text is valid exactly when the cut does not land on a continuation byte.
  lemma {:induction false} PrefixValid(s: seq<Byte>, n: nat)
    requires ValidUtf8(s) && n < |s|
    ensures ValidUtf8(s[..n]) <==> RuneStart(s[n])
  {
    var w := Width(s[0]);
    assert s[..w][0] == s[0];
    if n == 0 {
    } else if n < w {
      assert s[..w][n] == s[n];
      assert s[..n][0] == s[0];
    } else if n == w {
      assert n < |s| ==> s[w..][0] == s[n];
      assert s[..n][..w] == s[..w] && s[..n][w..] == [];
    } else {
      PrefixValid(s[w..], n - w);
      assert s[..n][..w] == s[..w] && s[..n][w..] == s[w..][..n - w];
      assert s[..n][0] == s[0];
    }
  }

  // Four bytes in a row cannot all be continuations.
  lemma {:induction false} StartWithinFour(s: seq<Byte>, n: nat)
    requires ValidUtf8(s) && n + 3 < |s|
    ensures exists k :: n <= k <= n + 3 && RuneStart(s[k])
  {
    var w := Width(s[0]);
    assert s[..w][0] == s[0];
    if n == 0 {
      assert RuneStart(s[0]);
    } else if n >= w {
      StartWithinFour(s[w..], n - w);
      var k :| n - w <= k <= n - w + 3 && RuneStart(s[w..][k]);
      assert RuneStart(s[k + w]);
    } else {
      assert w <= n + 3;
      assert RuneStart(s[w]) by {
        assert s[w..][0] == s[w];
        assert s[w..][..Width(s[w])][0] == s[w];
      }
    }
  }

  // ------------------------------- what the bytes stand for, section 3 of RFC 3629

  // A character number: U+0000 to U+10FFFF without the surrogates.
  type Scalar = c: int | (0 <= c < 0xD800) || (0xE000 <= c <= 0x10FFFF)

  function Encode(c: Scalar): seq<Byte> {
    if c <= 0x7F then [c]
    else if c <= 0x7FF then [0xC0 + c / 64, 0x80 + c % 64]
    else if c <= 0xFFFF then [0xE0 + c / 4096, 0x80 + c / 64 % 64, 0x80 + c % 64]
    else [0xF0 + c / 262144, 0x80 + c / 4096 % 64, 0x80 + c / 64 % 64, 0x80 + c % 64]
  }

  function EncodeAll(text: seq<Scalar>): seq<Byte> {
    if text == [] then [] else Encode(text[0]) + EncodeAll(text[1..])
  }

  lemma EncodedIsSequence(c: Scalar)
    ensures Sequence(Encode(c))
  {
  }

  // Every sequence the table admits is the encoding of one character.
  lemma SequenceIsEncoded(s: seq<Byte>) returns (c: Scalar)
    requires Sequence(s)
    ensures Encode(c) == s
  {
    if |s| == 1 {
      c := s[0];
    } else if |s| == 2 {
      var a: int, b: int := s[0], s[1];
      c := (a - 0xC0) * 64 + (b - 0x80);
    } else if |s| == 3 {
      c := ThreeBytes(s);
    } else {
      c := FourBytes(s);
    }
  }

  lemma Digit(rest: nat, low: nat)
    requires low < 64
    ensures (rest * 64 + low) / 64 == rest && (rest * 64 + low) % 64 == low
  {
  }

  lemma ThreeBytes(s: seq<Byte>) returns (c: Scalar)
    requires Sequence(s) && |s| == 3
    ensures Encode(c) == s
  {
    var p: int, q: int, r: int := s[0] - 0xE0, s[1] - 0x80, s[2] - 0x80;
    var n := (p * 64 + q) * 64 + r;
    Digit(p * 64 + q, r);
    Digit(p, q);
    assert n / 4096 == n / 64 / 64;
    c := n;
  }

  lemma FourBytes(s: seq<Byte>) returns (c: Scalar)
    requires Sequence(s) && |s| == 4
    ensures Encode(c) == s
  {
    var p: int, q: int, r: int, t: int := s[0] - 0xF0, s[1] - 0x80, s[2] - 0x80, s[3] - 0x80;
    var n := ((p * 64 + q) * 64 + r) * 64 + t;
    Digit((p * 64 + q) * 64 + r, t);
    Digit(p * 64 + q, r);
    Digit(p, q);
    assert n / 4096 == n / 64 / 64 && n / 262144 == n / 64 / 64 / 64;
    c := n;
  }

  lemma {:induction false} EncodedIsValid(text: seq<Scalar>)
    ensures ValidUtf8(EncodeAll(text))
  {
    if text != [] {
      var first, rest := Encode(text[0]), EncodeAll(text[1..]);
      EncodedIsSequence(text[0]);
      EncodedIsValid(text[1..]);
      assert (first + rest)[..|first|] == first && (first + rest)[|first|..] == rest;
    }
  }

  lemma {:induction false} ValidIsEncoded(s: seq<Byte>) returns (text: seq<Scalar>)
    requires ValidUtf8(s)
    ensures EncodeAll(text) == s
  {
    if s == [] {
      return [];
    }
    var w := Width(s[0]);
    var c := SequenceIsEncoded(s[..w]);
    var rest := ValidIsEncoded(s[w..]);
    text := [c] + rest;
    assert text[1..] == rest && s == s[..w] + s[w..];
  }

  // The byte table of section 4 admits exactly what the encoding of section 3 yields.
  lemma ValidExactly(s: seq<Byte>)
    ensures ValidUtf8(s) <==> exists text :: EncodeAll(text) == s
  {
    if ValidUtf8(s) {
      var text := ValidIsEncoded(s);
    }
    if text :| EncodeAll(text) == s {
      EncodedIsValid(text);
    }
  }

  // What capping means: the longest valid prefix that a shortstr can carry.
  ghost predicate LongestValidPrefix(tag: seq<Byte>, capped: seq<Byte>) {
    && capped <= tag && |capped| <= MAX_TAG && ValidUtf8(capped)
    && forall n :: |capped| < n <= MAX_TAG && n <= |tag| ==> !ValidUtf8(tag[..n])
  }

  // capConsumerTag
  method CapConsumerTag(tag: seq<Byte>) returns (capped: seq<Byte>)
    ensures capped <= tag && |capped| <= 255
    ensures |tag| <= 255 ==> capped == tag
    ensures ValidUtf8(tag) ==> LongestValidPrefix(tag, capped)
    ensures ValidUtf8(tag) && |tag| > 255 ==> |capped| >= 252
    ensures |tag| > 255 ==> forall n :: |capped| < n <= 255 ==> 0x80 <= tag[n] <= 0xBF
    ensures |tag| > 255 && |capped| > 0 ==> !(0x80 <= tag[|capped|] <= 0xBF)
  {
    if |tag| <= MAX_TAG {
      assert tag[..|tag|] == tag;
      return tag;
    }
    var cut := MAX_TAG;
    while cut > 0 && !RuneStart(tag[cut])
      invariant 0 <= cut <= MAX_TAG
      invariant forall n :: cut < n <= MAX_TAG ==> Tail(tag[n])
    {
      cut := cut - 1;
    }
    capped := tag[..cut];
    if ValidUtf8(tag) {
      forall n | cut <= n <= MAX_TAG ensures ValidUtf8(tag[..n]) <==> RuneStart(tag[n]) {
        PrefixValid(tag, n);
      }
      StartWithinFour(tag, MAX_TAG - 3);
    }
  }

  // Capping twice is capping once, and a tag that fits is its own cap.
  lemma CappingIsIdempotent(tag: seq<Byte>, once: seq<Byte>, twice: seq<Byte>)
    requires LongestValidPrefix(tag, once) && LongestValidPrefix(once, twice)
    ensures twice == once
    ensures ValidUtf8(tag) && |tag| <= MAX_TAG ==> once == tag
  {
    assert once[..|once|] == once && tag[..|tag|] == tag;
  }

  // The cap is determined by the tag.
  lemma CapIsUnique(tag: seq<Byte>, a: seq<Byte>, b: seq<Byte>)
    requires LongestValidPrefix(tag, a) && LongestValidPrefix(tag, b)
    ensures a == b
  {
    assert a == tag[..|a|] && b == tag[..|b|];
  }
}
