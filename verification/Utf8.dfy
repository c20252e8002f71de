/** UTF-8 as in section 3 of RFC 3629, and the lossless cutting of long texts. */
module Utf8 {

  type Byte = x: int | 0 <= x < 256 witness 0

  /** A Unicode scalar value: any code point but the surrogates. */
  type Scalar = c: int | 0 <= c < 0xD800 || 0xE000 <= c < 0x110000 witness 0

  const MAX_FRAGMENT_BYTES: nat := 96 * 1024

  /** The test raw[i] & 0xC0 == 0x80. */
  predicate Continues(b: Byte) {
    b / 64 == 2
  }

  function Encode(c: Scalar): (e: seq<Byte>)
    ensures 1 <= |e| <= 4 && !Continues(e[0]) && forall i :: 1 <= i < |e| ==> Continues(e[i])
  {
    if c < 0x80 then [c]
    else if c < 0x800 then [0xC0 + c / 64, 0x80 + c % 64]
    else if c < 0x10000 then [0xE0 + c / 4096, 0x80 + (c / 64) % 64, 0x80 + c % 64]
    else [0xF0 + c / 262144, 0x80 + (c / 4096) % 64, 0x80 + (c / 64) % 64, 0x80 + c % 64]
  }

  datatype Found = NotFound | Found(c: Scalar, size: nat)

  function Tail(b: Byte): int {
    b - 0x80
  }

  /** The character that starts here, if a well-formed one does. */
  function First(s: seq<Byte>): (f: Found)
    ensures f.Found? ==> 1 <= f.size <= |s|
  {
    if s == [] then NotFound
    else if s[0] < 0x80 then Found(s[0], 1)
    else if 0xC2 <= s[0] < 0xE0 && |s| >= 2 && Continues(s[1]) then Found((s[0] - 0xC0) * 64 + Tail(s[1]), 2)
    else if 0xE0 <= s[0] < 0xF0 && |s| >= 3 && Continues(s[1]) && Continues(s[2]) then
      var c := (s[0] - 0xE0) * 4096 + Tail(s[1]) * 64 + Tail(s[2]);
      if c < 0x800 || 0xD800 <= c < 0xE000 then NotFound else Found(c, 3)
    else if 0xF0 <= s[0] < 0xF5 && |s| >= 4 && Continues(s[1]) && Continues(s[2]) && Continues(s[3]) then
      var c := (s[0] - 0xF0) * 262144 + Tail(s[1]) * 4096 + Tail(s[2]) * 64 + Tail(s[3]);
      if c < 0x10000 || c >= 0x110000 then NotFound else Found(c, 4)
    else NotFound
  }

  function EncodeAll(t: seq<Scalar>): seq<Byte> {
    if t == [] then [] else Encode(t[0]) + EncodeAll(t[1..])
  }

  datatype Decoded = Malformed | Text(text: seq<Scalar>)

  /** Strict decoding. */
  function Decode(s: seq<Byte>): Decoded {
    if s == [] then Text([])
    else if First(s).NotFound? then Malformed
    else
      match Decode(s[First(s).size..])
      case Malformed => Malformed
      case Text(rest) => Text([First(s).c] + rest)
  }

  /** Decoding with errors="ignore". */
  function DecodeIgnore(s: seq<Byte>): seq<Scalar> {
    if s == [] then []
    else if First(s).NotFound? then DecodeIgnore(s[1..])
    else [First(s).c] + DecodeIgnore(s[First(s).size..])
  }

  // ----- one character -----

  lemma FirstOfEncoded(c: Scalar, rest: seq<Byte>)
    ensures First(Encode(c) + rest) == Found(c, |Encode(c)|)
  {
    var e := Encode(c);
    var s := e + rest;
    assert forall i :: 0 <= i < |e| ==> s[i] == e[i];
    if c < 0x10000 {
      Digits3(c);
    } else {
      Digits4(c);
    }
  }

  lemma Digits3(c: nat)
    ensures c == (c / 4096) * 4096 + ((c / 64) % 64) * 64 + c % 64
  {
    assert c / 64 == (c / 4096) * 64 + (c / 64) % 64;
  }

  lemma Digits4(c: nat)
    ensures c == (c / 262144) * 262144 + ((c / 4096) % 64) * 4096 + ((c / 64) % 64) * 64 + c % 64
  {
    Digits3(c);
    assert c / 4096 == (c / 262144) * 64 + (c / 4096) % 64;
  }

  lemma Digits(high: int, low: int)
    requires 0 <= low < 64 && high >= 0
    ensures (high * 64 + low) / 64 == high && (high * 64 + low) % 64 == low
  {
  }

  lemma EncodedOfFirst(s: seq<Byte>)
    requires First(s).Found?
    ensures Encode(First(s).c) == s[..First(s).size]
  {
    var c := First(s).c;
    if First(s).size == 2 {
      Digits(s[0] - 0xC0, Tail(s[1]));
    } else if First(s).size == 3 {
      EncodedOfThree(s[0], s[1], s[2], c);
    } else if First(s).size == 4 {
      EncodedOfFour(s[0], s[1], s[2], s[3], c);
    }
  }

  lemma EncodedOfThree(b: Byte, b1: Byte, b2: Byte, c: Scalar)
    requires 0xE0 <= b < 0xF0 && Continues(b1) && Continues(b2) && 0x800 <= c
    requires c == (b - 0xE0) * 4096 + Tail(b1) * 64 + Tail(b2)
    ensures Encode(c) == [b, b1, b2]
  {
    var high := (b - 0xE0) * 64 + Tail(b1);
    Digits(high, Tail(b2));
    Digits(b - 0xE0, Tail(b1));
    assert c / 64 == high && c / 4096 == b - 0xE0;
  }

  lemma EncodedOfFour(b: Byte, b1: Byte, b2: Byte, b3: Byte, c: Scalar)
    requires 0xF0 <= b < 0xF5 && Continues(b1) && Continues(b2) && Continues(b3) && 0x10000 <= c
    requires c == (b - 0xF0) * 262144 + Tail(b1) * 4096 + Tail(b2) * 64 + Tail(b3)
    ensures Encode(c) == [b, b1, b2, b3]
  {
    var high := (b - 0xF0) * 4096 + Tail(b1) * 64 + Tail(b2);
    var higher := (b - 0xF0) * 64 + Tail(b1);
    Digits(high, Tail(b3));
    Digits(higher, Tail(b2));
    Digits(b - 0xF0, Tail(b1));
    assert c / 64 == high && c / 4096 == higher && c / 262144 == b - 0xF0;
  }

  /** A character cut short is no character. */
  lemma CutIsNothing(c: Scalar, n: nat)
    requires n < |Encode(c)|
    ensures n > 0 ==> First(Encode(c)[..n]).NotFound?
  {
  }

  lemma {:induction false} ContinuationsAreIgnored(s: seq<Byte>)
    requires forall i :: 0 <= i < |s| ==> Continues(s[i])
    ensures DecodeIgnore(s) == []
  {
    if s != [] {
      ContinuationsAreIgnored(s[1..]);
    }
  }

  // ----- whole texts -----

  lemma {:induction false} EncodeAllConcat(t: seq<Scalar>, u: seq<Scalar>)
    ensures EncodeAll(t + u) == EncodeAll(t) + EncodeAll(u)
  {
    hide Encode, EncodeAll;
    if t == [] {
      assert t + u == u && EncodeAll([]) == [] by { EncodeAllNone(); }
    } else {
      EncodeAllConcat(t[1..], u);
      assert (t + u)[1..] == t[1..] + u;
      EncodeAllOne(t);
      EncodeAllOne(t + u);
      Regroup(Encode(t[0]), EncodeAll(t[1..]), EncodeAll(u));
    }
  }

  lemma EncodeAllNone()
    ensures EncodeAll([]) == []
  {
  }

  lemma Regroup(a: seq<Byte>, b: seq<Byte>, c: seq<Byte>)
    ensures (a + b) + c == a + (b + c)
  {
  }

  /** Decoding undoes encoding, and only encodings decode. */
  lemma {:induction false} RoundTrip(t: seq<Scalar>)
    ensures Decode(EncodeAll(t)) == Text(t) && DecodeIgnore(EncodeAll(t)) == t
  {
    if t != [] {
      FirstOfEncoded(t[0], EncodeAll(t[1..]));
      RoundTrip(t[1..]);
      assert EncodeAll(t)[|Encode(t[0])|..] == EncodeAll(t[1..]);
    }
  }

  lemma {:induction false} DecodedIsEncoding(s: seq<Byte>)
    requires Decode(s).Text?
    ensures EncodeAll(Decode(s).text) == s
  {
    hide Encode, First;
    if s != [] {
      EncodedOfFirst(s);
      var rest := s[First(s).size..];
      DecodedIsEncoding(rest);
      assert s == s[..First(s).size] + rest;
      assert Decode(s).text[1..] == Decode(rest).text;
    }
  }

  /** A position at which a character may start, or the end. */
  predicate Boundary(s: seq<Byte>, i: nat) {
    i == |s| || (i < |s| && !Continues(s[i]))
  }

  /** In well-formed text a boundary splits whole characters. */
  lemma {:induction false} SplitAt(t: seq<Scalar>, i: nat) returns (k: nat)
    requires Boundary(EncodeAll(t), i)
    ensures k <= |t| && EncodeAll(t[..k]) == EncodeAll(t)[..i] && EncodeAll(t[k..]) == EncodeAll(t)[i..]
  {
    if i == 0 {
      k := 0;
      assert t[..0] == [] && t[0..] == t;
    } else {
      hide Encode, EncodeAll;
      var e, rest := Encode(t[0]), EncodeAll(t[1..]);
      EncodeAllOne(t);
      BoundaryAfter(e, rest, i);
      var j := SplitAt(t[1..], i - |e|);
      k := j + 1;
      EncodeAllOne(t[..k]);
      assert t[..k][1..] == t[1..][..j] && t[k..] == t[1..][j..];
      CutAfter(e, rest, i - |e|);
    }
  }

  lemma EncodeAllOne(t: seq<Scalar>)
    requires t != []
    ensures EncodeAll(t) == Encode(t[0]) + EncodeAll(t[1..])
  {
    hide Encode;
  }

  lemma BoundaryAfter(e: seq<Byte>, rest: seq<Byte>, i: nat)
    requires Boundary(e + rest, i) && i > 0 && forall j :: 1 <= j < |e| ==> Continues(e[j])
    ensures i >= |e| && Boundary(rest, i - |e|)
  {
    hide Continues;
    if i >= |e| {
      assert i < |e + rest| ==> (e + rest)[i] == rest[i - |e|];
    }
  }

  lemma CutAfter(e: seq<Byte>, rest: seq<Byte>, n: nat)
    requires n <= |rest|
    ensures (e + rest)[..|e| + n] == e + rest[..n] && (e + rest)[|e| + n..] == rest[n..]
  {
  }

  lemma {:induction false} EncodedEnds(t: seq<Scalar>, k: nat)
    requires k <= |t|
    ensures |EncodeAll(t[..k])| <= |EncodeAll(t)|
    ensures Boundary(EncodeAll(t), |EncodeAll(t[..k])|)
    ensures EncodeAll(t)[..|EncodeAll(t[..k])|] == EncodeAll(t[..k])
  {
    assert t == t[..k] + t[k..];
    EncodeAllConcat(t[..k], t[k..]);
    if k < |t| {
      assert EncodeAll(t[k..])[0] == Encode(t[k])[0];
    }
  }

  /** Cutting well-formed text anywhere and ignoring errors keeps the whole characters before
      the cut, as many as fit. */
  lemma {:induction false} CutKeepsWhole(t: seq<Scalar>, n: nat) returns (k: nat)
    requires n <= |EncodeAll(t)|
    ensures k <= |t| && DecodeIgnore(EncodeAll(t)[..n]) == t[..k] && |EncodeAll(t[..k])| <= n
    ensures k < |t| ==> n < |EncodeAll(t[..k])| + |Encode(t[k])|
  {
    hide Encode, First;
    var raw := EncodeAll(t);
    if t == [] {
      k := 0;
    } else {
      var e, rest := Encode(t[0]), EncodeAll(t[1..]);
      if n < |e| {
        k := 0;
        assert raw[..n] == e[..n];
        if n > 0 {
          CutIsNothing(t[0], n);
          ContinuationsAreIgnored(e[..n][1..]);
        }
      } else {
        var j := CutKeepsWhole(t[1..], n - |e|);
        k := j + 1;
        assert raw[..n] == e + rest[..n - |e|];
        FirstOfEncoded(t[0], rest[..n - |e|]);
        assert raw[..n][|e|..] == rest[..n - |e|];
        assert t[..k] == [t[0]] + t[1..][..j] && t[..k][1..] == t[1..][..j];
      }
    }
  }

  // ----- cutting a text into fragments -----

  function Concat(parts: seq<seq<Scalar>>): seq<Scalar> {
    if parts == [] then [] else Concat(parts[..|parts| - 1]) + parts[|parts| - 1]
  }

  /** Byte start and character k are the same place. */
  ghost predicate Aligned(text: seq<Scalar>, raw: seq<Byte>, k: nat, start: nat) {
    k <= |text| && start <= |raw| && raw[start..] == EncodeAll(text[k..])
  }

  /** The first character of the rest ends at a boundary at most four bytes on. */
  lemma FirstEnds(text: seq<Scalar>, raw: seq<Byte>, k: nat, start: nat) returns (first: nat)
    requires Aligned(text, raw, k, start) && start < |raw|
    ensures start < first <= start + 4 && first <= |raw| && Boundary(raw, first)
  {
    var rest := text[k..];
    first := start + |Encode(rest[0])|;
    EncodedEnds(rest, 1);
    assert rest[..1] == [rest[0]];
    assert EncodeAll([rest[0]]) == Encode(rest[0]) + EncodeAll([rest[0]][1..]);
    assert first < |raw| ==> raw[first] == raw[start..][first - start];
  }

  /** A cut at a boundary further on leaves whole characters before it. */
  lemma CutHere(text: seq<Scalar>, raw: seq<Byte>, k: nat, start: nat, end: nat) returns (m: nat)
    requires Aligned(text, raw, k, start) && start < end <= |raw| && Boundary(raw, end)
    ensures k <= m <= |text| && Aligned(text, raw, m, end)
    ensures Decode(raw[start..end]) == Text(text[k..m]) && EncodeAll(text[k..m]) == raw[start..end]
  {
    hide EncodeAll, Decode, DecodeIgnore;
    var rest := text[k..];
    assert end < |raw| ==> raw[start..][end - start] == raw[end];
    var j := SplitAt(rest, end - start);
    m := k + j;
    assert rest[..j] == text[k..m] && rest[j..] == text[m..];
    assert raw[start..][..end - start] == raw[start..end] && raw[start..][end - start..] == raw[end..];
    RoundTrip(text[k..m]);
  }

  lemma AllDone(text: seq<Scalar>, raw: seq<Byte>, k: nat)
    requires Aligned(text, raw, k, |raw|)
    ensures k == |text|
  {
  }

  /** _chunks: cut at most every 96 KiB, moving each cut back to a character boundary. */
  method Chunks(text: seq<Scalar>) returns (parts: seq<seq<Scalar>>)
    ensures Concat(parts) == text
    ensures forall p :: p in parts ==> 0 < |EncodeAll(p)| <= MAX_FRAGMENT_BYTES
  {
    hide Aligned, EncodeAll, Decode;
    var raw := EncodeAll(text);
    parts := [];
    var start: nat := 0;
    ghost var k: nat := 0;
    assert Aligned(text, raw, 0, 0) by { Begins(text); }
    while start < |raw|
      invariant start <= |raw| && k <= |text| && Concat(parts) == text[..k] && Aligned(text, raw, k, start)
      invariant forall p :: p in parts ==> 0 < |EncodeAll(p)| <= MAX_FRAGMENT_BYTES
      decreases |raw| - start
    {
      var end := if start + MAX_FRAGMENT_BYTES <= |raw| then start + MAX_FRAGMENT_BYTES else |raw|;
      ghost var first := FirstEnds(text, raw, k, start);
      while end < |raw| && Continues(raw[end])
        invariant first <= end <= |raw| && end - start <= MAX_FRAGMENT_BYTES
        decreases end
      {
        end := end - 1;
      }
      ghost var m := CutHere(text, raw, k, start, end);
      var part := Decode(raw[start..end]).text;
      assert text[..m] == text[..k] + part;
      assert (parts + [part])[..|parts|] == parts;
      parts := parts + [part];
      k := m;
      start := end;
    }
    AllDone(text, raw, k);
    assert text[..k] == text;
  }

  lemma Begins(text: seq<Scalar>)
    ensures Aligned(text, EncodeAll(text), 0, 0)
  {
    assert text[0..] == text;
  }
}
