/**
 What a header of the release-tarball reader says, told without the parser: the numbers in its fields
 are octal digits among white space, and its checksum protects every other byte.
 */
module TarHeaders {
  import opened Prelude
  import opened Tar
  import JsText
  import TarPaths

  // ------------------------------------------------------------ white space

  /** A character in UTF-8. */
  function Utf8(c: char): (s: Bytes)
    ensures 1 <= |s| <= 4
  {
    var n := c as int;
    if n < 0x80 then [n]
    else if n < 0x800 then [0xC0 + n / 64, 0x80 + n % 64]
    else if n < 0x10000 then [0xE0 + n / 4096, 0x80 + n / 64 % 64, 0x80 + n % 64]
    else [0xF0 + n / 262144, 0x80 + n / 4096 % 64, 0x80 + n / 64 % 64, 0x80 + n % 64]
  }

  function Encode(text: string): Bytes {
    if text == "" then [] else Encode(text[..|text| - 1]) + Utf8(text[|text| - 1])
  }

  lemma {:induction false} EncodeFirst(c: char, text: string)
    ensures Encode([c] + text) == Utf8(c) + Encode(text)
    decreases |text|
  {
    if text == "" {
      assert ([c] + text)[..0] == "";
    } else {
      var k := |text| - 1;
      assert ([c] + text)[..k + 1] == [c] + text[..k];
      EncodeFirst(c, text[..k]);
    }
  }

  predicate SpaceCode(u: Bytes) {
    || (|u| == 1 && (9 <= u[0] <= 13 || u[0] == 32))
    || u == [0xC2, 0xA0]
    || (|u| == 3 && WideSpace(u[0], u[1], u[2]))
  }

  lemma SpaceUtf8(c: char)
    requires JsText.IsSpace(c)
    ensures SpaceCode(Utf8(c))
  {}

  lemma Utf8Space(u: Bytes) returns (c: char)
    requires SpaceCode(u)
    ensures JsText.IsSpace(c) && Utf8(c) == u
  {
    if |u| == 1 {
      c := u[0] as char;
    } else if |u| == 2 {
      c := '\U{a0}';
    } else {
      var x: int, y: int, z: int := u[0], u[1], u[2];
      c := ((x - 0xE0) * 4096 + (y - 0x80) * 64 + (z - 0x80)) as char;
    }
  }

  /** The `n` bytes from place `i` on are a white-space character. */
  predicate SpaceAt(s: Bytes, i: int, n: int) {
    0 <= i < i + n <= |s| && SpaceCode(s[i..i + n])
  }

  lemma SpaceLengthIs(s: Bytes, i: nat, j: nat)
    requires i <= j <= |s|
    ensures var n := SpaceLength(s, i, j); n > 0 ==> SpaceAt(s, i, n)
  {}

  lemma SpaceLengthFound(s: Bytes, i: nat, j: nat, n: nat)
    requires i + n <= j <= |s| && SpaceAt(s, i, n)
    ensures SpaceLength(s, i, j) == n
  {
    var u := s[i..i + n];
    assert u[0] == s[i] && (n > 1 ==> u[1] == s[i + 1]) && (n > 2 ==> u[2] == s[i + 2]);
  }

  lemma {:induction false} TrimStartTakes(s: Bytes, i: nat) returns (text: string)
    requires i <= |s|
    ensures JsText.Blank(text) && Encode(text) == s[i..TrimStart(s, i)]
    decreases |s| - i
  {
    hide SpaceLength, SpaceCode, Utf8, JsText.IsSpace;
    var n := SpaceLength(s, i, |s|);
    text := "";
    if n > 0 {
      SpaceLengthIs(s, i, |s|);
      var c := Utf8Space(s[i..i + n]);
      var rest := TrimStartTakes(s, i + n);
      text := [c] + rest;
      EncodeFirst(c, rest);
      hide Encode;
      assert s[i..TrimStart(s, i)] == s[i..i + n] + s[i + n..TrimStart(s, i)];
    }
  }

  lemma {:induction false} TrimEndTakes(s: Bytes, i: nat, j: nat) returns (text: string)
    requires i <= j <= |s|
    ensures JsText.Blank(text) && Encode(text) == s[TrimEnd(s, i, j)..j]
    decreases j
  {
    hide SpaceLength, SpaceCode, Utf8, JsText.IsSpace;
    var n := LastSpace(s, i, j);
    text := "";
    if n > 0 {
      var c := Utf8Space(s[j - n..j]);
      var rest := TrimEndTakes(s, i, j - n);
      text := rest + [c];
      assert text[..|text| - 1] == rest;
      assert s[TrimEnd(s, i, j)..j] == s[TrimEnd(s, i, j)..j - n] + s[j - n..j];
    }
  }

  /** The white-space character that the trimming takes away next, or none. */
  lemma LastSpace(s: Bytes, i: nat, j: nat) returns (n: nat)
    requires i <= j <= |s|
    ensures n > 0 ==> i + n <= j && SpaceAt(s, j - n, n) && TrimEnd(s, i, j) == TrimEnd(s, i, j - n)
    ensures n == 0 ==> TrimEnd(s, i, j) == j
  {
    hide SpaceLength, SpaceCode;
    n := if i + 1 <= j && SpaceLength(s, j - 1, j) == 1 then 1
         else if i + 2 <= j && SpaceLength(s, j - 2, j) == 2 then 2
         else if i + 3 <= j && SpaceLength(s, j - 3, j) == 3 then 3 else 0;
    if n > 0 {
      SpaceLengthIs(s, j - n, j);
    }
  }

  lemma {:induction false} TrimStartSpaces(s: Bytes, i: nat, text: string, k: nat)
    requires i <= k <= |s| && JsText.Blank(text) && s[i..k] == Encode(text) && SpaceLength(s, k, |s|) == 0
    ensures TrimStart(s, i) == k
    decreases |text|
  {
    hide SpaceLength, SpaceCode, Utf8, JsText.IsSpace;
    if text != "" {
      var u, rest := Utf8(text[0]), Encode(text[1..]);
      assert text == [text[0]] + text[1..];
      EncodeFirst(text[0], text[1..]);
      SpaceUtf8(text[0]);
      hide Encode, TrimStart;
      Cut(s, i, k, u, rest);
      SpaceLengthFound(s, i, |s|, |u|);
      assert TrimStart(s, i) == TrimStart(s, i + |u|) by { OneSpace(s, i); }
      TrimStartSpaces(s, i + |u|, text[1..], k);
    }
  }

  lemma OneSpace(s: Bytes, i: nat)
    requires i <= |s| && SpaceLength(s, i, |s|) > 0
    ensures TrimStart(s, i) == TrimStart(s, i + SpaceLength(s, i, |s|))
  {
    hide SpaceLength;
  }

  lemma Cut(s: Bytes, i: nat, k: nat, u: Bytes, v: Bytes)
    requires i <= k <= |s| && s[i..k] == u + v
    ensures i + |u| <= k && s[i..i + |u|] == u && s[i + |u|..k] == v
  {
    assert s[i..k][..|u|] == u && s[i..k][|u|..] == v;
    assert s[i..i + |u|] == s[i..k][..|u|] && s[i + |u|..k] == s[i..k][|u|..];
  }

  /** Of the last bytes only one count is the code of a white-space character. */
  lemma OneCode(s: Bytes, j: nat, m: nat, n: nat)
    requires j <= |s| && SpaceAt(s, j - m, m) && SpaceAt(s, j - n, n)
    ensures m == n
  {
    var u, v := s[j - m..j], s[j - n..j];
    assert u[m - 1] == s[j - 1] && v[n - 1] == s[j - 1];
    assert m > 1 ==> u[m - 2] == s[j - 2];
    assert n > 1 ==> v[n - 2] == s[j - 2];
  }

  lemma {:induction false} TrimEndSpaces(s: Bytes, i: nat, j: nat, text: string, k: nat)
    requires i <= k <= j <= |s| && JsText.Blank(text) && s[k..j] == Encode(text)
    requires k == i || IsOctal(s[k - 1])
    ensures TrimEnd(s, i, j) == k
    decreases |text|
  {
    hide SpaceLength, SpaceCode, Utf8, JsText.IsSpace;
    if text == "" {
      DigitEnds(s, i, j);
    } else {
      var last := text[|text| - 1];
      var u, before := Utf8(last), Encode(text[..|text| - 1]);
      SpaceUtf8(last);
      hide TrimEnd;
      Cut(s, k, j, before, u);
      assert SpaceAt(s, j - |u|, |u|);
      TakesLast(s, i, j, |u|);
      TrimEndSpaces(s, i, j - |u|, text[..|text| - 1], k);
    }
  }

  lemma TakesLast(s: Bytes, i: nat, j: nat, n: nat)
    requires i + n <= j <= |s| && SpaceAt(s, j - n, n)
    ensures TrimEnd(s, i, j) == TrimEnd(s, i, j - n)
  {
    hide SpaceLength;
    SpaceLengthFound(s, j - n, j, n);
    var m := LastSpace(s, i, j);
    if m > 0 {
      OneCode(s, j, m, n);
    }
    hide SpaceAt;
  }

  lemma DigitEnds(s: Bytes, i: nat, j: nat)
    requires i <= j <= |s| && (j == i || IsOctal(s[j - 1]))
    ensures TrimEnd(s, i, j) == j
  {}

  // ---------------------------------------------------------------- numbers

  /** What the field holds before its first NUL. */
  predicate StringIs(field: Bytes, v: Bytes) {
    v <= field && 0 !in v && (|v| < |field| ==> field[|v|] == 0)
  }

  lemma StringExactly(block: Bytes, offset: nat, length: nat, v: Bytes)
    requires offset + length <= |block|
    ensures TarString(block, offset, length) == v <==> StringIs(block[offset..offset + length], v)
  {
    var field := block[offset..offset + length];
    var n := NulIndex(field);
    if StringIs(field, v) {
      assert |v| <= n && (|v| < |field| ==> field[|v|] == 0);
    }
  }

  /** Octal digits, perhaps none, with any white space before and after them. */
  ghost predicate NumberIs(field: Bytes, n: nat) {
    exists a: string, d: Bytes, b: string ::
      JsText.Blank(a) && JsText.Blank(b) && AllOctal(d) && Octal(d, |d|) == n
      && StringIs(field, Encode(a) + d + Encode(b))
  }

  lemma TrimSpaces(a: string, d: Bytes, b: string)
    requires JsText.Blank(a) && JsText.Blank(b) && AllOctal(d)
    ensures Trim(Encode(a) + d + Encode(b)) == d
  {
    hide Encode, Trim, JsText.Blank;
    if d == [] {
      Blanks(a, b);
      JoinBlank(a, b);
      TrimAll(a + b);
      assert Encode(a) + d + Encode(b) == Encode(a + b);
    } else {
      TrimAround(a, Encode(a), d, Encode(b), b);
    }
  }

  lemma JoinBlank(a: string, b: string)
    requires JsText.Blank(a) && JsText.Blank(b)
    ensures JsText.Blank(a + b)
  {
    hide JsText.IsSpace;
  }

  lemma TrimAll(text: string)
    requires JsText.Blank(text)
    ensures Trim(Encode(text)) == []
  {
    hide Encode, SpaceLength, TrimStart, TrimEnd, JsText.Blank;
    var s := Encode(text);
    assert s[0..|s|] == s;
    NoSpaceAt(s, |s|);
    TrimStartSpaces(s, 0, text, |s|);
  }

  lemma TrimAround(a: string, x: Bytes, d: Bytes, y: Bytes, b: string)
    requires JsText.Blank(a) && JsText.Blank(b) && x == Encode(a) && y == Encode(b)
    requires d != [] && AllOctal(d)
    ensures Trim(x + d + y) == d
  {
    hide Encode, SpaceLength, TrimStart, TrimEnd, JsText.Blank;
    var s := x + d + y;
    assert s[|x|] == d[0] && s[|x| + |d| - 1] == d[|d| - 1];
    assert s[0..|x|] == x;
    assert s[|x| + |d|..|s|] == y;
    assert s[|x|..|x| + |d|] == d;
    NoSpaceAt(s, |x|);
    TrimStartSpaces(s, 0, a, |x|);
    TrimEndSpaces(s, |x|, |s|, b, |x| + |d|);
  }

  lemma NoSpaceAt(s: Bytes, i: nat)
    requires i == |s| || (i < |s| && IsOctal(s[i]))
    ensures SpaceLength(s, i, |s|) == 0
  {}

  lemma {:induction false} Blanks(a: string, b: string)
    ensures Encode(a + b) == Encode(a) + Encode(b)
    decreases |b|
  {
    if b == "" {
      assert a + b == a;
    } else {
      assert (a + b)[..|a + b| - 1] == a + b[..|b| - 1];
      Blanks(a, b[..|b| - 1]);
    }
  }

  /** A field is read as a number exactly if it is one; otherwise the image is refused. */
  lemma NumberExactly(block: Bytes, offset: nat, length: nat)
    requires offset + length <= |block|
    ensures var r := TarNumber(block, offset, length);
      && (forall n: nat :: r == Ok(n) <==> NumberIs(block[offset..offset + length], n))
      && (r.Err? ==> r.error == InvalidNumber)
  {
    hide Encode, Trim, NumberIs;
    var field := block[offset..offset + length];
    var r, v := TarNumber(block, offset, length), TarString(block, offset, length);
    StringExactly(block, offset, length, v);
    forall n: nat | NumberIs(field, n) ensures r == Ok(n) {
      var d := NumberGives(field, n);
      StringExactly(block, offset, length, d.0);
    }
    if r.Ok? {
      NumberFound(field, v);
    }
  }

  /** The string that a number field holds, and its digits. */
  lemma NumberGives(field: Bytes, n: nat) returns (d: (Bytes, Bytes))
    requires NumberIs(field, n)
    ensures StringIs(field, d.0) && Trim(d.0) == d.1 && AllOctal(d.1) && Octal(d.1, |d.1|) == n
  {
    hide Encode, Trim, StringIs, JsText.Blank;
    var a: string, digits: Bytes, b: string :|
      JsText.Blank(a) && JsText.Blank(b) && AllOctal(digits) && Octal(digits, |digits|) == n
      && StringIs(field, Encode(a) + digits + Encode(b));
    TrimSpaces(a, digits, b);
    d := (Encode(a) + digits + Encode(b), digits);
  }

  lemma NumberFound(field: Bytes, v: Bytes)
    requires StringIs(field, v) && AllOctal(Trim(v))
    ensures NumberIs(field, Octal(Trim(v), |Trim(v)|))
  {
    hide Encode, TrimStart, TrimEnd, StringIs, JsText.Blank, AllOctal, Octal;
    var i := TrimStart(v, 0);
    var k := TrimEnd(v, i, |v|);
    var a := TrimStartTakes(v, 0);
    var b := TrimEndTakes(v, i, |v|);
    assert v == v[0..i] + v[i..k] + v[k..|v|];
    assert StringIs(field, Encode(a) + Trim(v) + Encode(b));
  }

  // ---------------------------------------------------------------- headers

  /** The sum of the first `n` bytes, those of the checksum field counted as spaces. */
  function SumOf(header: Bytes, n: nat): nat
    requires n <= |header|
  {
    if n == 0 then 0 else SumOf(header, n - 1) + if 148 <= n - 1 < 156 then 32 else header[n - 1]
  }

  lemma {:induction false} SumOfParts(header: Bytes, n: nat)
    requires n <= |header|
    ensures SumOf(header, n) ==
      if n <= 148 then Sum(header, 0, n)
      else if n <= 156 then Sum(header, 0, 148) + 32 * (n - 148)
      else Sum(header, 0, 148) + 256 + Sum(header, 156, n)
  {
    if n > 0 {
      SumOfParts(header, n - 1);
    }
  }

  /** A header in terms of its bytes. */
  ghost predicate HeaderIs(header: Bytes, path: Bytes, size: nat, kind: Bytes)
    requires |header| == BLOCK
  {
    && NumberIs(header[148..156], SumOf(header, BLOCK))
    && PathIs(header, path) && TarPaths.CleanPath(path)
    && NumberIs(header[124..136], size)
    && StringIs(header[156..157], kind)
  }

  /** The name, behind the prefix and a slash if there is a prefix. */
  ghost predicate PathIs(header: Bytes, path: Bytes)
    requires |header| == BLOCK
  {
    exists prefix, name ::
      StringIs(header[345..500], prefix) && StringIs(header[0..100], name)
      && path == if prefix == [] then name else prefix + [SLASH] + name
  }

  lemma PathExactly(header: Bytes, path: Bytes)
    requires |header| == BLOCK
    ensures PathIs(header, path) <==>
      var name, prefix := TarString(header, 0, 100), TarString(header, 345, 155);
      path == if prefix != [] then prefix + [SLASH] + name else name
  {
    hide StringIs, TarString;
    var name, prefix := TarString(header, 0, 100), TarString(header, 345, 155);
    StringExactly(header, 0, 100, name);
    StringExactly(header, 345, 155, prefix);
    if PathIs(header, path) {
      var p, n :| StringIs(header[345..500], p) && StringIs(header[0..100], n)
        && path == if p == [] then n else p + [SLASH] + n;
      StringExactly(header, 345, 155, p);
      StringExactly(header, 0, 100, n);
    }
  }

  /**
   A header is read exactly as its bytes say; if they say nothing, the error is the first of an
   unreadable or wrong checksum, an unclean path and an unreadable size.
   */
  lemma HeaderExactly(header: Bytes)
    requires |header| == BLOCK
    ensures var r := DecodeHeader(header);
      && (forall path, size: nat, kind :: r == Ok(Header(path, size, kind)) <==> HeaderIs(header, path, size, kind))
      && (r == Err(InvalidChecksum) <==>
            !NumberIs(header[148..156], SumOf(header, BLOCK)) && exists n: nat :: NumberIs(header[148..156], n))
      && (r == Err(UnsafePath) <==>
            && NumberIs(header[148..156], SumOf(header, BLOCK))
            && exists path :: PathIs(header, path) && !TarPaths.CleanPath(path))
      && (r.Err? ==> r.error in {InvalidNumber, InvalidChecksum, UnsafePath})
  {
    hide NumberIs, StringIs, PathIs, SafePath, TarString, TarNumber, SumOf, Sum, TarPaths.CleanPath;
    SumOfParts(header, BLOCK);
    assert Checksum(header) == SumOf(header, BLOCK);
    hide Checksum;
    var stored, size := TarNumber(header, 148, 8), TarNumber(header, 124, 12);
    NumberExactly(header, 148, 8);
    NumberExactly(header, 124, 12);
    assert forall n: nat :: NumberIs(header[148..156], n) <==> stored == Ok(n);
    assert forall n: nat :: NumberIs(header[124..136], n) <==> size == Ok(n);
    var name, prefix := TarString(header, 0, 100), TarString(header, 345, 155);
    var path := if prefix != [] then prefix + [SLASH] + name else name;
    forall p ensures PathIs(header, p) <==> p == path {
      PathExactly(header, p);
    }
    TarPaths.SafePathExactly(path);
    forall kind ensures StringIs(header[156..157], kind) <==> kind == TarString(header, 156, 1) {
      StringExactly(header, 156, 1, kind);
    }
  }

  lemma {:induction false} SumChanged(header: Bytes, i: nat, b: Byte, n: nat)
    requires n <= |header| && i < |header|
    ensures SumOf(header[i := b], n) == SumOf(header, n) + if i < n && !(148 <= i < 156) then b - header[i] else 0
  {
    if n > 0 {
      SumChanged(header, i, b, n - 1);
    }
  }

  /** No byte of an accepted header outside its checksum field can be changed unnoticed. */
  lemma ChangeNoticed(header: Bytes, i: nat, b: Byte)
    requires |header| == BLOCK && DecodeHeader(header).Ok?
    requires i < BLOCK && !(148 <= i < 156) && b != header[i]
    ensures DecodeHeader(header[i := b]) == Err(InvalidChecksum)
  {
    hide NumberIs, DecodeHeader, SumOf, TarNumber, PathIs, StringIs, TarPaths.CleanPath;
    var changed := header[i := b];
    SumChanged(header, i, b, BLOCK);
    assert changed[148..156] == header[148..156];
    SumIsStored(header);
    assert NumberIs(changed[148..156], SumOf(header, BLOCK)) && !NumberIs(changed[148..156], SumOf(changed, BLOCK));
    HeaderExactly(changed);
  }

  lemma SumIsStored(header: Bytes)
    requires |header| == BLOCK && DecodeHeader(header).Ok?
    ensures forall n: nat :: NumberIs(header[148..156], n) <==> n == SumOf(header, BLOCK)
  {
    hide NumberIs, DecodeHeader, SumOf, TarNumber, PathIs, StringIs, TarPaths.CleanPath;
    HeaderExactly(header);
    NumberExactly(header, 148, 8);
    var h := DecodeHeader(header).value;
    assert DecodeHeader(header) == Ok(Header(h.path, h.size, h.kind));
    assert HeaderIs(header, h.path, h.size, h.kind);
    var stored := TarNumber(header, 148, 8);
    assert forall n: nat :: NumberIs(header[148..156], n) <==> stored == Ok(n);
  }
}
