/** White space and `trim` as JavaScript defines them, on sequences of code points. */
module JsText {
  import opened Prelude

  /** A character that `\s` matches and `trim` removes. */
  predicate IsSpace(c: char) {
    var n := c as int;
    || 9 <= n <= 13 || n == 0x20 || n == 0xA0 || n == 0x1680 || 0x2000 <= n <= 0x200A
    || n == 0x2028 || n == 0x2029 || n == 0x202F || n == 0x205F || n == 0x3000 || n == 0xFEFF
  }

  /** The white space and line terminators of the language, one by one. */
  const WHITE_SPACE := {
    '\U{9}', '\U{a}', '\U{b}', '\U{c}', '\U{d}', '\U{20}', '\U{a0}', '\U{1680}',
    '\U{2000}', '\U{2001}', '\U{2002}', '\U{2003}', '\U{2004}', '\U{2005}', '\U{2006}', '\U{2007}',
    '\U{2008}', '\U{2009}', '\U{200a}', '\U{2028}', '\U{2029}', '\U{202f}', '\U{205f}', '\U{3000}', '\U{feff}'}

  lemma SpacesExactly(c: char)
    ensures IsSpace(c) <==> c in WHITE_SPACE
  {
    if IsSpace(c) {
      assert c == (c as int) as char;
    }
  }

  function TrimStart(s: string): (t: string)
    ensures t == [] || !IsSpace(t[0])
  {
    if s != [] && IsSpace(s[0]) then TrimStart(s[1..]) else s
  }

  function TrimEnd(s: string): (t: string)
    ensures t <= s && (t == [] || !IsSpace(t[|t| - 1]))
  {
    if s != [] && IsSpace(s[|s| - 1]) then TrimEnd(s[..|s| - 1]) else s
  }

  function Trim(s: string): (t: string)
    ensures t == [] || (!IsSpace(t[0]) && !IsSpace(t[|t| - 1]))
  {
    TrimEnd(TrimStart(s))
  }

  /** Nothing but white space. */
  ghost predicate Blank(s: string) {
    forall i :: 0 <= i < |s| ==> IsSpace(s[i])
  }

  lemma {:induction false} TrimStartPadded(a: string, rest: string)
    requires Blank(a) && (rest == [] || !IsSpace(rest[0]))
    ensures TrimStart(a + rest) == rest
    decreases |a|
  {
    if a == [] {
      assert a + rest == rest;
    } else {
      assert (a + rest)[1..] == a[1..] + rest;
      TrimStartPadded(a[1..], rest);
    }
  }

  lemma {:induction false} TrimEndPadded(v: string, b: string)
    requires Blank(b) && (v == [] || !IsSpace(v[|v| - 1]))
    ensures TrimEnd(v + b) == v
    decreases |b|
  {
    if b == [] {
      assert v + b == v;
    } else {
      assert (v + b)[..|v + b| - 1] == v + b[..|b| - 1];
      TrimEndPadded(v, b[..|b| - 1]);
    }
  }

  /** Trimming takes away the white space on both sides and nothing else. */
  lemma TrimPadded(a: string, v: string, b: string)
    requires Blank(a) && Blank(b)
    requires v == [] || (!IsSpace(v[0]) && !IsSpace(v[|v| - 1]))
    ensures Trim(a + v + b) == v
    ensures Clean(Some(a + v + b)) == if v == [] then None else Some(v)
  {
    if v == [] {
      TrimStartPadded(a + b, []);
      assert a + v + b == a + b + [];
    } else {
      TrimStartPadded(a, v + b);
      assert a + v + b == a + (v + b);
      TrimEndPadded(v, b);
    }
  }

  lemma TrimNothing(s: string)
    requires s == [] || (!IsSpace(s[0]) && !IsSpace(s[|s| - 1]))
    ensures Trim(s) == s
  {}

  /** `value?.trim() || undefined`. */
  function Clean(value: Option<string>): (r: Option<string>)
    ensures r.Some? ==> r.value != [] && Trim(r.value) == r.value
  {
    if value.Some? && Trim(value.value) != [] then
      TrimNothing(Trim(value.value));
      Some(Trim(value.value))
    else None
  }

  /** `a || b` on optional strings: the first that is present and not empty. */
  function FirstText(a: Option<string>, b: Option<string>): Option<string> {
    if a.Some? && a.value != [] then a else b
  }
}
