/**
 The notation that the tokenizer of `McpCommand` reads, as a grammar: words of bare, escaped and
 quoted pieces with white space between, and a last word that may be left open.
 */
module CommandLines {
  import opened Prelude
  import opened JsText
  import opened McpCommand

  /** One character of a token, written as it is or after a backslash. */
  datatype Atom = Raw(c: char) | Esc(c: char)

  datatype Piece = Bare(atom: Atom) | Quoted(quote: char, inside: seq<Atom>)

  datatype Word = Word(pieces: seq<Piece>, gap: string)

  /** `open` is a quote without its end; `backslash` is one that nothing follows. */
  datatype Line = Line(lead: string, words: seq<Word>, last: seq<Piece>, open: Option<Piece>, backslash: bool)

  function WriteAtom(a: Atom): string {
    if a.Raw? then [a.c] else ['\\', a.c]
  }

  function WriteAtoms(atoms: seq<Atom>): string {
    if atoms == [] then "" else WriteAtoms(atoms[..|atoms| - 1]) + WriteAtom(atoms[|atoms| - 1])
  }

  function WritePiece(p: Piece): string {
    if p.Bare? then WriteAtom(p.atom) else [p.quote] + WriteAtoms(p.inside) + [p.quote]
  }

  function WritePieces(ps: seq<Piece>): string {
    if ps == [] then "" else WritePieces(ps[..|ps| - 1]) + WritePiece(ps[|ps| - 1])
  }

  function WriteWords(ws: seq<Word>): string {
    if ws == [] then ""
    else
      var w := ws[|ws| - 1];
      WriteWords(ws[..|ws| - 1]) + (WritePieces(w.pieces) + w.gap)
  }

  function WriteOpen(open: Option<Piece>): string {
    if open.Some? && open.value.Quoted? then [open.value.quote] + WriteAtoms(open.value.inside) else ""
  }

  function WriteEnd(backslash: bool): string {
    if backslash then "\\" else ""
  }

  function Write(line: Line): string {
    line.lead + WriteWords(line.words) + WritePieces(line.last) + WriteOpen(line.open) + WriteEnd(line.backslash)
  }

  /** The characters of the atoms; no backslash or quote of the notation is among them. */
  function Chars(atoms: seq<Atom>): string {
    seq(|atoms|, i requires 0 <= i < |atoms| => atoms[i].c)
  }

  function Reads(p: Piece): string {
    if p.Bare? then [p.atom.c] else Chars(p.inside)
  }

  function ReadsAll(ps: seq<Piece>): string {
    if ps == [] then "" else ReadsAll(ps[..|ps| - 1]) + Reads(ps[|ps| - 1])
  }

  /** The tokens of the closed words; an empty one is no token. */
  function Tokens(ws: seq<Word>): seq<string> {
    if ws == [] then [] else WithToken(Tokens(ws[..|ws| - 1]), ReadsAll(ws[|ws| - 1].pieces))
  }

  function WithToken(tokens: seq<string>, token: string): seq<string> {
    if token == "" then tokens else tokens + [token]
  }

  /** A backslash that nothing follows stands for itself. */
  function Meaning(line: Line): seq<string> {
    WithToken(Tokens(line.words),
              ReadsAll(line.last) + (if line.open.Some? then Reads(line.open.value) else "") + WriteEnd(line.backslash))
  }

  ghost predicate GoodAtoms(atoms: seq<Atom>, quote: char) {
    forall i :: 0 <= i < |atoms| && atoms[i].Raw? ==> atoms[i].c != quote && atoms[i].c != '\\'
  }

  ghost predicate GoodPiece(p: Piece) {
    if p.Bare? then p.atom.Raw? ==> !Special(p.atom.c)
    else (p.quote == '"' || p.quote == '\'') && GoodAtoms(p.inside, p.quote)
  }

  ghost predicate GoodPieces(ps: seq<Piece>) {
    forall i :: 0 <= i < |ps| ==> GoodPiece(ps[i])
  }

  ghost predicate GoodWord(w: Word) {
    w.pieces != [] && GoodPieces(w.pieces) && w.gap != [] && Blank(w.gap)
  }

  ghost predicate AreWords(ws: seq<Word>) {
    forall i :: 0 <= i < |ws| ==> GoodWord(ws[i])
  }

  ghost predicate Good(line: Line) {
    && Blank(line.lead) && GoodPieces(line.last)
    && AreWords(line.words)
    && (line.open.Some? ==> line.open.value.Quoted? && GoodPiece(line.open.value))
  }

  // ------------------------------------------------------------ reading

  /** The scan without the field that this tokenizer makes no use of. */
  predicate At(s: Scan, tokens: seq<string>, current: string, quote: Option<char>, escaping: bool) {
    s.tokens == tokens && s.current == current && s.quote == quote && s.escaping == escaping
  }

  lemma FeedAtom(s: Scan, a: Atom)
    requires !s.escaping
    requires a.Raw? ==> if s.quote.Some? then a.c != s.quote.value && a.c != '\\' else !Special(a.c)
    ensures At(FeedAll(false, s, WriteAtom(a)), s.tokens, s.current + [a.c], s.quote, false)
  {
    if a.Raw? {
      FeedOne(false, s, a.c);
    } else {
      assert WriteAtom(a) == ['\\'] + [a.c];
      FeedAppend(false, s, ['\\'], [a.c]);
      FeedOne(false, s, '\\');
      FeedOne(false, Feed(false, s, '\\'), a.c);
    }
  }

  lemma {:induction false} FeedAtoms(s: Scan, atoms: seq<Atom>)
    requires !s.escaping && s.quote.Some? && GoodAtoms(atoms, s.quote.value)
    ensures At(FeedAll(false, s, WriteAtoms(atoms)), s.tokens, s.current + Chars(atoms), s.quote, false)
  {
    hide Feed, FeedAll, WriteAtom;
    if atoms == [] {
      FeedNothing(s);
      assert s.current + Chars(atoms) == s.current;
    } else {
      var init, last := atoms[..|atoms| - 1], atoms[|atoms| - 1];
      FeedAtoms(s, init);
      FeedAppend(false, s, WriteAtoms(init), WriteAtom(last));
      FeedAtom(FeedAll(false, s, WriteAtoms(init)), last);
      assert Chars(atoms) == Chars(init) + [last.c];
      assert s.current + Chars(atoms) == s.current + Chars(init) + [last.c];
    }
  }

  lemma FeedOpen(s: Scan, p: Piece)
    requires !s.escaping && s.quote.None? && p.Quoted? && GoodPiece(p)
    ensures At(FeedAll(false, s, [p.quote] + WriteAtoms(p.inside)), s.tokens, s.current + Chars(p.inside), Some(p.quote), false)
  {
    FeedOne(false, s, p.quote);
    FeedAppend(false, s, [p.quote], WriteAtoms(p.inside));
    FeedAtoms(Feed(false, s, p.quote), p.inside);
  }

  lemma FeedPiece(s: Scan, p: Piece)
    requires !s.escaping && s.quote.None? && GoodPiece(p)
    ensures At(FeedAll(false, s, WritePiece(p)), s.tokens, s.current + Reads(p), None, false)
  {
    if p.Bare? {
      FeedAtom(s, p.atom);
    } else {
      FeedOpen(s, p);
      var inside := FeedAll(false, s, [p.quote] + WriteAtoms(p.inside));
      FeedAppend(false, s, [p.quote] + WriteAtoms(p.inside), [p.quote]);
      FeedOne(false, inside, p.quote);
    }
  }

  lemma {:induction false} FeedPieces(s: Scan, ps: seq<Piece>)
    requires !s.escaping && s.quote.None? && GoodPieces(ps)
    ensures At(FeedAll(false, s, WritePieces(ps)), s.tokens, s.current + ReadsAll(ps), None, false)
  {
    hide Feed, FeedAll, WritePiece, Reads, GoodPiece;
    if ps == [] {
      FeedNothing(s);
      assert s.current + "" == s.current;
    } else {
      var init, last := ps[..|ps| - 1], ps[|ps| - 1];
      FeedPieces(s, init);
      FeedAppend(false, s, WritePieces(init), WritePiece(last));
      FeedPiece(FeedAll(false, s, WritePieces(init)), last);
      assert s.current + ReadsAll(ps) == s.current + ReadsAll(init) + Reads(last);
    }
  }

  /** White space ends a token that is not empty. */
  lemma {:induction false} FeedBlank(s: Scan, gap: string)
    requires !s.escaping && s.quote.None? && Blank(gap)
    ensures gap != [] ==> At(FeedAll(false, s, gap), WithToken(s.tokens, s.current), "", None, false)
    decreases |gap|
  {
    if gap != [] {
      assert IsSpace(gap[0]);
      FeedBlank(Feed(false, s, gap[0]), gap[1..]);
    }
  }

  lemma {:induction false} FeedWords(s: Scan, ws: seq<Word>)
    requires At(s, [], "", None, false) && AreWords(ws)
    ensures At(FeedAll(false, s, WriteWords(ws)), Tokens(ws), "", None, false)
  {
    hide Feed, FeedAll;
    if ws == [] {
      FeedNothing(s);
    } else {
      var init, w := ws[..|ws| - 1], ws[|ws| - 1];
      FeedWords(s, init);
      var before := FeedAll(false, s, WriteWords(init));
      FeedPieces(before, w.pieces);
      FeedBlank(FeedAll(false, before, WritePieces(w.pieces)), w.gap);
      FeedAppend(false, before, WritePieces(w.pieces), w.gap);
      FeedAppend(false, s, WriteWords(init), WritePieces(w.pieces) + w.gap);
      assert "" + ReadsAll(w.pieces) == ReadsAll(w.pieces);
    }
  }

  lemma FeedNothing(s: Scan)
    ensures FeedAll(false, s, "") == s
  {}

  /** The last word up to its end. */
  lemma FeedTail(s: Scan, line: Line)
    requires Good(line) && !s.escaping && s.quote.None? && s.current == ""
    ensures Finish(false, FeedAll(false, s, WritePieces(line.last) + WriteOpen(line.open) + WriteEnd(line.backslash)))
      == WithToken(s.tokens, ReadsAll(line.last) + (if line.open.Some? then Reads(line.open.value) else "")
                             + WriteEnd(line.backslash))
  {
    hide Feed, FeedAll;
    var a, b, c := WritePieces(line.last), WriteOpen(line.open), WriteEnd(line.backslash);
    FeedPieces(s, line.last);
    assert "" + ReadsAll(line.last) == ReadsAll(line.last);
    var s1 := FeedAll(false, s, a);
    FeedAppend(false, s, a, b);
    var s2 := FeedAll(false, s1, b);
    var said := ReadsAll(line.last) + if line.open.Some? then Reads(line.open.value) else "";
    assert !s2.escaping && s2.current == said && s2.tokens == s.tokens by {
      if line.open.Some? {
        FeedOpen(s1, line.open.value);
      } else {
        FeedNothing(s1);
        assert said == ReadsAll(line.last);
      }
    }
    FeedAppend(false, s, a + b, c);
    FeedEnd(s2, line.backslash);
  }

  lemma FeedEnd(s: Scan, backslash: bool)
    requires !s.escaping
    ensures Finish(false, FeedAll(false, s, WriteEnd(backslash))) == WithToken(s.tokens, s.current + WriteEnd(backslash))
  {
    if backslash {
      FeedOne(false, s, '\\');
    } else {
      assert s.current + "" == s.current;
    }
  }

  /** Every line of the notation is read as its words, empty ones left out. */
  lemma ReadsLine(line: Line, input: string)
    requires Good(line) && Trim(input) == Write(line)
    ensures Parse(input) == Meaning(line)
  {
    hide Feed, FeedAll, Trim, Finish, Good, WriteWords, WritePieces, WriteOpen, WriteEnd, ReadsAll, Reads, Tokens;
    var words, tail := WriteWords(line.words), WritePieces(line.last) + WriteOpen(line.open) + WriteEnd(line.backslash);
    assert Write(line) == line.lead + words + tail;
    var s0 := FeedAll(false, START, line.lead);
    assert At(s0, [], "", None, false) && AreWords(line.words) by {
      LeadIsSkipped(line);
    }
    FeedWords(s0, line.words);
    FeedAppend(false, START, line.lead, words);
    FeedAppend(false, START, line.lead + words, tail);
    FeedTail(FeedAll(false, s0, words), line);
  }

  lemma LeadIsSkipped(line: Line)
    requires Good(line)
    ensures At(FeedAll(false, START, line.lead), [], "", None, false)
    ensures AreWords(line.words)
  {
    hide FeedAll, Feed;
    FeedBlank(START, line.lead);
    FeedNothing(START);
  }

  // ------------------------------------------------------- every text is a line

  lemma AddAtom(atoms: seq<Atom>, a: Atom, quote: char)
    requires GoodAtoms(atoms, quote) && (a.Raw? ==> a.c != quote && a.c != '\\')
    ensures GoodAtoms(atoms + [a], quote) && WriteAtoms(atoms + [a]) == WriteAtoms(atoms) + WriteAtom(a)
  {
    assert (atoms + [a])[..|atoms|] == atoms;
  }

  lemma AddPiece(ps: seq<Piece>, p: Piece)
    requires GoodPieces(ps) && GoodPiece(p)
    ensures GoodPieces(ps + [p]) && WritePieces(ps + [p]) == WritePieces(ps) + WritePiece(p)
  {
    assert (ps + [p])[..|ps|] == ps;
  }

  lemma AddWord(ws: seq<Word>, w: Word)
    requires AreWords(ws) && GoodWord(w)
    ensures AreWords(ws + [w])
    ensures WriteWords(ws + [w]) == WriteWords(ws) + (WritePieces(w.pieces) + w.gap)
  {
    assert (ws + [w])[..|ws|] == ws;
  }

  lemma CloseText(front: string, last: string, q: char, inside: string)
    ensures front + (last + ([q] + inside + [q])) + "" + "" == front + last + ([q] + inside) + "" + [q]
  {}

  lemma AtomText(front: string, q: char, inside: string, end: string, atom: string, c: char)
    requires atom == end + [c]
    ensures front + ([q] + (inside + atom)) + "" == front + ([q] + inside) + end + [c]
  {}

  /** The character that closes an open quote. */
  lemma AddClosing(line: Line, c: char) returns (next: Line)
    requires Good(line) && line.open.Some? && !line.backslash && c == line.open.value.quote
    ensures Good(next) && Write(next) == Write(line) + [c]
  {
    hide GoodPieces, WriteWords, WritePieces, WriteAtoms, GoodAtoms, GoodWord;
    var p := line.open.value;
    AddPiece(line.last, p);
    next := line.(last := line.last + [p], open := None);
    CloseText(line.lead + WriteWords(line.words), WritePieces(line.last), p.quote, WriteAtoms(p.inside));
  }

  /** A character inside an open quote. */
  lemma AddInside(line: Line, c: char) returns (next: Line)
    requires Good(line) && line.open.Some? && (line.backslash || (c != '\\' && c != line.open.value.quote))
    ensures Good(next) && Write(next) == Write(line) + [c]
  {
    hide GoodPieces, WriteWords, WritePieces, WriteAtoms, GoodAtoms, GoodWord;
    var p := line.open.value;
    var a := if line.backslash then Esc(c) else Raw(c);
    AddAtom(p.inside, a, p.quote);
    next := line.(open := Some(p.(inside := p.inside + [a])), backslash := false);
    AtomText(line.lead + WriteWords(line.words) + WritePieces(line.last), p.quote, WriteAtoms(p.inside),
             WriteEnd(line.backslash), WriteAtom(a), c);
  }

  lemma WidenGap(ws: seq<Word>, c: char) returns (wider: seq<Word>)
    requires ws != [] && AreWords(ws) && IsSpace(c)
    ensures AreWords(wider) && WriteWords(wider) == WriteWords(ws) + [c]
  {
    hide WritePieces, GoodPieces;
    var n := |ws| - 1;
    var w := ws[n].(gap := ws[n].gap + [c]);
    assert GoodWord(ws[n]);
    wider := ws[..n] + [w];
    AddWord(ws[..n], w);
    assert ws == ws[..n] + [ws[n]];
    assert WriteWords(ws) + [c] == WriteWords(ws[..n]) + (WritePieces(w.pieces) + w.gap);
  }

  /** White space outside quotes. */
  lemma AddSpace(line: Line, c: char) returns (next: Line)
    requires Good(line) && line.open.None? && !line.backslash && IsSpace(c)
    ensures Good(next) && Write(next) == Write(line) + [c]
  {
    hide GoodPieces, WritePieces, WriteWords;
    var words := line.words;
    WriteClosed(line);
    NothingWritten();
    if line.last != [] {
      var w := Word(line.last, [c]);
      AddWord(words, w);
      next := line.(words := words + [w], last := []);
    } else if words != [] {
      var wider := WidenGap(words, c);
      next := line.(words := wider);
    } else {
      next := line.(lead := line.lead + [c]);
    }
    WriteClosed(next);
    hide GoodWord, Write;
    assert WriteWords(next.words) + WritePieces(next.last) ==
      (if next.words == [] then "" else WriteWords(words) + WritePieces(line.last) + [c]);
  }

  lemma WriteClosed(line: Line)
    requires line.open.None? && !line.backslash
    ensures Write(line) == line.lead + (WriteWords(line.words) + WritePieces(line.last))
  {
    hide WriteWords, WritePieces;
  }

  lemma NothingWritten()
    ensures WritePieces([]) == "" && WriteWords([]) == "" && GoodPieces([])
  {}

  lemma AddChar(line: Line, c: char) returns (next: Line)
    requires Good(line)
    ensures Good(next) && Write(next) == Write(line) + [c]
  {
    hide GoodPieces, GoodWord, WriteWords, WritePieces;
    if !line.backslash && c == '\\' {
      next := line.(backslash := true);
    } else if line.open.Some? && !line.backslash && c == line.open.value.quote {
      next := AddClosing(line, c);
    } else if line.open.Some? {
      next := AddInside(line, c);
    } else if !line.backslash && (c == '"' || c == '\'') {
      next := line.(open := Some(Quoted(c, [])));
    } else if !line.backslash && IsSpace(c) {
      next := AddSpace(line, c);
    } else {
      var p := Bare(if line.backslash then Esc(c) else Raw(c));
      AddPiece(line.last, p);
      next := line.(last := line.last + [p], backslash := false);
    }
  }

  lemma {:induction false} LineOf(text: string) returns (line: Line)
    ensures Good(line) && Write(line) == text
    decreases |text|
  {
    if text == [] {
      line := Line("", [], [], None, false);
    } else {
      var k := |text| - 1;
      line := LineOf(text[..k]);
      hide Good, Write;
      line := AddChar(line, text[k]);
      assert text == text[..k] + [text[k]];
    }
  }

  /** Whatever is typed has a reading in the notation, and the tokenizer gives exactly its words. */
  lemma ReadsEverything(input: string) returns (line: Line)
    ensures Good(line) && Trim(input) == Write(line) && Parse(input) == Meaning(line)
  {
    line := LineOf(Trim(input));
    ReadsLine(line, input);
  }

  /** An escaped space at the very end is trimmed away, and its backslash stays. */
  lemma EscapedSpaceAtEnd(arg: string)
    requires Plain(arg)
    ensures Parse(arg + "\\ ") == [arg + "\\"]
  {
    var s := Scan([], arg, None, false, true);
    TrimPadded([], arg + "\\", " ");
    assert [] + (arg + "\\") + " " == arg + "\\ ";
    FeedQuoted(false, [], arg);
    FeedAppend(false, START, arg, "\\");
    FeedOne(false, s, '\\');
  }
}
