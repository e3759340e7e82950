/** The five replace passes of `escapeHtml` in apps/cli/src/session/export.ts. */
module HtmlEscape {

  /** `text.replace(/c/g, entity)`. */
  function ReplaceAll(text: string, c: char, entity: string): string {
    if text == [] then [] else (if text[0] == c then entity else [text[0]]) + ReplaceAll(text[1..], c, entity)
  }

  function EscapeHtml(text: string): string {
    var t1 := ReplaceAll(text, '&', "&amp;");
    var t2 := ReplaceAll(t1, '<', "&lt;");
    var t3 := ReplaceAll(t2, '>', "&gt;");
    var t4 := ReplaceAll(t3, '"', "&quot;");
    ReplaceAll(t4, '\'', "&#039;")
  }

  /** The entity of one character, in one step. */
  function Entity(c: char): string {
    if c == '&' then "&amp;"
    else if c == '<' then "&lt;"
    else if c == '>' then "&gt;"
    else if c == '"' then "&quot;"
    else if c == '\'' then "&#039;"
    else [c]
  }

  function OnePass(text: string): string {
    if text == [] then [] else Entity(text[0]) + OnePass(text[1..])
  }

  /** Reads entities back, from left to right. */
  function Unescape(text: string): string
    decreases |text|
  {
    if text == [] then []
    else if "&amp;" <= text then "&" + Unescape(text[5..])
    else if "&lt;" <= text then "<" + Unescape(text[4..])
    else if "&gt;" <= text then ">" + Unescape(text[4..])
    else if "&quot;" <= text then "\"" + Unescape(text[6..])
    else if "&#039;" <= text then "'" + Unescape(text[6..])
    else [text[0]] + Unescape(text[1..])
  }

  lemma {:induction false} ReplaceConcat(a: string, b: string, c: char, entity: string)
    ensures ReplaceAll(a + b, c, entity) == ReplaceAll(a, c, entity) + ReplaceAll(b, c, entity)
  {
    if a == [] {
      assert a + b == b;
    } else {
      assert (a + b)[0] == a[0] && (a + b)[1..] == a[1..] + b;
      ReplaceConcat(a[1..], b, c, entity);
    }
  }

  lemma {:induction false} ReplaceNone(text: string, c: char, entity: string)
    requires c !in text
    ensures ReplaceAll(text, c, entity) == text
  {
    if text != [] {
      ReplaceNone(text[1..], c, entity);
    }
  }

  lemma EscapeConcat(a: string, b: string)
    ensures EscapeHtml(a + b) == EscapeHtml(a) + EscapeHtml(b)
  {
    var a1, b1 := ReplaceAll(a, '&', "&amp;"), ReplaceAll(b, '&', "&amp;");
    var a2, b2 := ReplaceAll(a1, '<', "&lt;"), ReplaceAll(b1, '<', "&lt;");
    var a3, b3 := ReplaceAll(a2, '>', "&gt;"), ReplaceAll(b2, '>', "&gt;");
    var a4, b4 := ReplaceAll(a3, '"', "&quot;"), ReplaceAll(b3, '"', "&quot;");
    hide ReplaceAll;
    ReplaceConcat(a, b, '&', "&amp;");
    ReplaceConcat(a1, b1, '<', "&lt;");
    ReplaceConcat(a2, b2, '>', "&gt;");
    ReplaceConcat(a3, b3, '"', "&quot;");
    ReplaceConcat(a4, b4, '\'', "&#039;");
  }

  lemma ReplaceOne(c: char, entity: string)
    ensures ReplaceAll([c], c, entity) == entity
  {
    assert [c][1..] == [];
    assert entity + [] == entity;
  }

  /** A pass replaces a character by its entity, and no later pass changes an entity. */
  lemma EscapeOne(c: char)
    ensures EscapeHtml([c]) == Entity(c)
  {
    var t1 := if c == '&' then "&amp;" else [c];
    var t2 := if c == '<' then "&lt;" else t1;
    var t3 := if c == '>' then "&gt;" else t2;
    var t4 := if c == '"' then "&quot;" else t3;
    hide ReplaceAll;
    if c == '&' { ReplaceOne('&', "&amp;"); } else { ReplaceNone([c], '&', "&amp;"); }
    if c == '<' { ReplaceOne('<', "&lt;"); } else { ReplaceNone(t1, '<', "&lt;"); }
    if c == '>' { ReplaceOne('>', "&gt;"); } else { ReplaceNone(t2, '>', "&gt;"); }
    if c == '"' { ReplaceOne('"', "&quot;"); } else { ReplaceNone(t3, '"', "&quot;"); }
    if c == '\'' { ReplaceOne('\'', "&#039;"); } else { ReplaceNone(t4, '\'', "&#039;"); }
  }

  /** The five passes do what one character-by-character pass does. */
  lemma {:induction false} FivePassesAreOne(text: string)
    ensures EscapeHtml(text) == OnePass(text)
  {
    if text != [] {
      hide EscapeHtml, Entity;
      assert text == [text[0]] + text[1..];
      EscapeConcat([text[0]], text[1..]);
      EscapeOne(text[0]);
      FivePassesAreOne(text[1..]);
    }
  }

  lemma {:induction false} NoneLeft(text: string)
    ensures forall c :: c in OnePass(text) ==> c != '<' && c != '>' && c != '"' && c != '\''
  {
    if text != [] {
      NoneLeft(text[1..]);
      assert forall c :: c in Entity(text[0]) ==> c != '<' && c != '>' && c != '"' && c != '\'';
    }
  }

  /** Escaped text holds no character that ends an HTML text or a quoted attribute value. */
  lemma EscapedIsInert(text: string)
    ensures forall c :: c in EscapeHtml(text) ==> c != '<' && c != '>' && c != '"' && c != '\''
  {
    hide EscapeHtml;
    FivePassesAreOne(text);
    NoneLeft(text);
  }

  lemma NotPrefix(entity: string, text: string, k: nat)
    requires k < |entity| && k < |text| && entity[k] != text[k]
    ensures !(entity <= text)
  {}

  lemma UnescapeOne(c: char, rest: string)
    ensures Unescape(Entity(c) + rest) == [c] + Unescape(rest)
  {
    var text := Entity(c) + rest;
    var k := if |Entity(c)| == 1 then 0 else 1;
    assert text[k] == Entity(c)[k];
    assert text[|Entity(c)|..] == rest && Entity(c) <= text;
    if c != '&' {
      NotPrefix("&amp;", text, k);
      if c != '<' {
        NotPrefix("&lt;", text, k);
        if c != '>' {
          NotPrefix("&gt;", text, k);
          if c != '"' {
            NotPrefix("&quot;", text, k);
            if c != '\'' {
              NotPrefix("&#039;", text, k);
            }
          }
        }
      }
    }
  }

  lemma {:induction false} UnescapesOnePass(text: string)
    ensures Unescape(OnePass(text)) == text
  {
    if text != [] {
      hide Entity;
      UnescapeOne(text[0], OnePass(text[1..]));
      UnescapesOnePass(text[1..]);
    }
  }

  /** Nothing is lost: the escaped text determines the text. */
  lemma UnescapesBack(text: string)
    ensures Unescape(EscapeHtml(text)) == text
  {
    hide EscapeHtml;
    FivePassesAreOne(text);
    UnescapesOnePass(text);
  }
}
