/** The byte-by-byte UTF-8 check accepts exactly the encodings of Unicode text (section 3 of RFC 3629). */
module SseText {
  import opened Base
  import opened Sse
  import opened SseAgreement

  /** Unicode scalar values: code points other than surrogates. */
  type Scalar = u: int | 0 <= u < 0xD800 || 0xE000 <= u < 0x110000

  function Encode(u: Scalar): Bytes {
    if u < 0x80 then [u]
    else if u < 0x800 then [0xC0 + u / 64, 0x80 + u % 64]
    else if u < 0x10000 then [0xE0 + u / 4096, 0x80 + u / 64 % 64, 0x80 + u % 64]
    else [0xF0 + u / 262144, 0x80 + u / 4096 % 64, 0x80 + u / 64 % 64, 0x80 + u % 64]
  }

  function EncodeAll(us: seq<Scalar>): Bytes {
    if us == [] then [] else EncodeAll(Front(us)) + Encode(Last(us))
  }

  // ----- Encodings are accepted -----

  lemma {:induction false} RunOf(s: Bytes, b: Byte)
    ensures Utf8Run(s + [b]) == Utf8Step(Utf8Run(s), b)
  {
    assert Front(s + [b]) == s;
  }

  lemma {:induction false} LeadOfThree(u: Scalar)
    requires 0x800 <= u < 0x10000
    ensures var (b, x) := (0xE0 + u / 4096, 0x80 + u / 64 % 64);
            0xE0 <= b <= 0xEF && 0x80 <= x <= 0xBF && (b == 0xE0 ==> x >= 0xA0) && (b == 0xED ==> x <= 0x9F)
  {
  }

  lemma {:induction false} LeadOfFour(u: Scalar)
    requires 0x10000 <= u
    ensures var (b, x) := (0xF0 + u / 262144, 0x80 + u / 4096 % 64);
            0xF0 <= b <= 0xF4 && 0x80 <= x <= 0xBF && (b == 0xF0 ==> x >= 0x90) && (b == 0xF4 ==> x <= 0x8F)
  {
  }

  predicate Follows(b: int) { 0x80 <= b <= 0xBF }

  lemma {:induction false} ReadTwo(s: Bytes, a: Byte, b: Byte)
    requires Valid(s) && 0xC2 <= a <= 0xDF && Follows(b)
    ensures Valid(s + [a, b])
  {
    RunOf(s, a);
    RunOf(s + [a], b);
    assert s + [a] + [b] == s + [a, b];
  }

  lemma {:induction false} ReadThree(s: Bytes, a: Byte, b: Byte, c: Byte)
    requires Valid(s) && 0xE0 <= a <= 0xEF && Follows(b) && Follows(c)
    requires (a == 0xE0 ==> b >= 0xA0) && (a == 0xED ==> b <= 0x9F)
    ensures Valid(s + [a, b, c])
  {
    RunOf(s, a);
    RunOf(s + [a], b);
    RunOf(s + [a] + [b], c);
    assert s + [a] + [b] + [c] == s + [a, b, c];
  }

  lemma {:induction false} ReadFour(s: Bytes, a: Byte, b: Byte, c: Byte, d: Byte)
    requires Valid(s) && 0xF0 <= a <= 0xF4 && Follows(b) && Follows(c) && Follows(d)
    requires (a == 0xF0 ==> b >= 0x90) && (a == 0xF4 ==> b <= 0x8F)
    ensures Valid(s + [a, b, c, d])
  {
    RunOf(s, a);
    RunOf(s + [a], b);
    RunOf(s + [a] + [b], c);
    RunOf(s + [a] + [b] + [c], d);
    assert s + [a] + [b] + [c] + [d] == s + [a, b, c, d];
  }

  /** From between two characters, an encoding leads back to between two characters. */
  lemma {:induction false} EncodingIsRead(s: Bytes, u: Scalar)
    requires Valid(s)
    ensures Valid(s + Encode(u))
  {
    var e := Encode(u);
    if u < 0x80 {
      RunOf(s, u);
    } else if u < 0x800 {
      ReadTwo(s, e[0], e[1]);
    } else if u < 0x10000 {
      LeadOfThree(u);
      ReadThree(s, e[0], e[1], e[2]);
    } else {
      LeadOfFour(u);
      ReadFour(s, e[0], e[1], e[2], e[3]);
    }
  }

  lemma {:induction false} TextIsValid(us: seq<Scalar>)
    ensures Valid(EncodeAll(us))
  {
    if us != [] {
      TextIsValid(Front(us));
      EncodingIsRead(EncodeAll(Front(us)), Last(us));
    }
  }

  // ----- Nothing else is -----

  /** How the check came to wait for n more bytes: a lead byte, or one more byte of a longer character. */
  lemma {:induction false} WaitingFrom(s: Bytes)
    requires s != [] && Utf8Run(s).Due? && Utf8Run(s).n > 0
    ensures var (x, y, b) := (Utf8Run(s), Utf8Run(Front(s)), Last(s));
            || (y == START && Utf8Step(START, b) == x)
            || (y.Due? && y.n == x.n + 1 && y.lo <= b <= y.hi && x == Due(x.n, 0x80, 0xBF))
  {
    StartOnly(Front(s));
  }

  lemma {:induction false} StartOnly(s: Bytes)
    ensures Utf8Run(s).Due? ==> Utf8Run(s).n <= 3 && (Utf8Run(s).n == 0 ==> Utf8Run(s) == START)
  {
    if s != [] {
      StartOnly(Front(s));
    }
  }

  lemma {:induction false} TwoBytes(a: Byte, b: Byte) returns (u: Scalar)
    requires 0xC2 <= a <= 0xDF && Follows(b)
    ensures Encode(u) == [a, b]
  {
    u := (a - 0xC0) * 64 + (b - 0x80);
  }

  lemma {:induction false} ThreeBytes(a: Byte, b: Byte, c: Byte) returns (u: Scalar)
    requires 0xE0 <= a <= 0xEF && Follows(b) && Follows(c) && (a == 0xE0 ==> b >= 0xA0) && (a == 0xED ==> b <= 0x9F)
    ensures Encode(u) == [a, b, c]
  {
    var v := (a - 0xE0) * 4096 + (b - 0x80) * 64 + (c - 0x80);
    assert 0x800 <= v < 0x10000 && (v < 0xD800 || 0xE000 <= v);
    u := v;
    assert u / 4096 == a - 0xE0 && u / 64 == (a - 0xE0) * 64 + (b - 0x80);
  }

  lemma {:induction false} FourBytes(a: Byte, b: Byte, c: Byte, d: Byte) returns (u: Scalar)
    requires 0xF0 <= a <= 0xF4 && Follows(b) && Follows(c) && Follows(d)
    requires (a == 0xF0 ==> b >= 0x90) && (a == 0xF4 ==> b <= 0x8F)
    ensures Encode(u) == [a, b, c, d]
  {
    var v := (a - 0xF0) * 262144 + (b - 0x80) * 4096 + (c - 0x80) * 64 + (d - 0x80);
    assert 0x10000 <= v < 0x110000;
    u := v;
    assert u / 262144 == a - 0xF0 && u / 4096 == (a - 0xF0) * 64 + (b - 0x80);
    assert u / 64 == (a - 0xF0) * 4096 + (b - 0x80) * 64 + (c - 0x80);
  }

  /** The bytes of a character that is still incomplete, after text that is complete. */
  ghost predicate Begun(s: Bytes, k: nat) {
    && 1 <= k <= 3 && k <= |s| && Valid(s[..|s| - k])
    && Utf8Run(s).Due? && Utf8Run(s).n > 0
    && var p := s[|s| - k..];
       && (forall i :: 1 <= i < k ==> Follows(p[i]))
       && Utf8Run(s) == (if k == 1 then Utf8Step(START, p[0]) else Due(Utf8Run(s).n, 0x80, 0xBF))
       && Utf8Step(START, p[0]).Due? && Utf8Step(START, p[0]).n == Utf8Run(s).n + k - 1
       && (k > 1 ==> Utf8Step(START, p[0]).lo <= p[1] <= Utf8Step(START, p[0]).hi)
  }

  lemma {:induction false} WaitingIsBegun(s: Bytes) returns (k: nat)
    requires Utf8Run(s).Due? && Utf8Run(s).n > 0
    ensures Begun(s, k)
    decreases |s|
  {
    var f := Front(s);
    WaitingFrom(s);
    StartOnly(f);
    if Utf8Run(f) == START {
      k := 1;
    } else {
      var j := WaitingIsBegun(f);
      k := j + 1;
      assert f[..|f| - j] == s[..|s| - k];
      assert s[|s| - k..] == f[|f| - j..] + [Last(s)];
      Utf8Breaks(f);
    }
  }

  /** A valid text that is not empty ends with the encoding of one character. */
  lemma {:induction false} LastCharacter(s: Bytes) returns (before: Bytes, u: Scalar)
    requires s != [] && Valid(s)
    ensures Valid(before) && s == before + Encode(u)
  {
    var (f, b) := (Front(s), Last(s));
    assert s == f + [b];
    StartOnly(f);
    if Utf8Run(f) == START {
      before, u := f, b;
    } else {
      var k := WaitingIsBegun(f);
      before := f[..|f| - k];
      var p := f[|f| - k..] + [b];
      assert s == before + p;
      u := Character(p, k);
    }
  }

  lemma {:induction false} Character(p: Bytes, k: nat) returns (u: Scalar)
    requires 1 <= k <= 3 && |p| == k + 1 && forall i :: 1 <= i < |p| ==> Follows(p[i])
    requires var x := Utf8Step(START, p[0]); x.Due? && x.n == k && x.lo <= p[1] <= x.hi
    ensures Encode(u) == p
  {
    if k == 1 {
      u := TwoBytes(p[0], p[1]);
      assert p == [p[0], p[1]];
    } else if k == 2 {
      u := ThreeBytes(p[0], p[1], p[2]);
      assert p == [p[0], p[1], p[2]];
    } else {
      u := FourBytes(p[0], p[1], p[2], p[3]);
      assert p == [p[0], p[1], p[2], p[3]];
    }
  }

  lemma {:induction false} ValidIsText(s: Bytes) returns (us: seq<Scalar>)
    requires Valid(s)
    ensures EncodeAll(us) == s
    decreases |s|
  {
    if s == [] {
      us := [];
    } else {
      var before, u := LastCharacter(s);
      var vs := ValidIsText(before);
      us := vs + [u];
      assert Front(us) == vs;
    }
  }

  /** The check accepts exactly the encodings of Unicode text. */
  lemma {:induction false} ValidExactly(s: Bytes)
    ensures Valid(s) <==> exists us :: EncodeAll(us) == s
  {
    if Valid(s) {
      var us := ValidIsText(s);
    }
    forall us | EncodeAll(us) == s ensures Valid(s) {
      TextIsValid(us);
    }
  }
}
