/**
 The printer of the ustar format and what the parser promises: printing and parsing gives back
 the files, and whatever the parser accepts is a proper archive.
 */
module TarRoundTrip {
  import opened Prelude
  import opened Tar

  // --- Printer -------------------------------------------------------------------------------

  /** The header fields the parser does not look at: mode, uid and gid; mtime; linkname to devminor. */
  datatype Meta = Meta(owner: Bytes, mtime: Bytes, rest: Bytes) {
    predicate Valid() {
      |owner| == 24 && |mtime| == 12 && |rest| == 188
    }
  }

  /**
   How a number stands in its field: spaces, octal digits, spaces, and then the end of the field or
   a NUL with anything after it.
   */
  datatype Form = Form(lead: nat, digits: nat, trail: nat, rest: Bytes)

  datatype Item = Item(path: Bytes, data: Bytes, meta: Meta, sizeForm: Form, sumForm: Form)

  function Zeros(n: nat): (z: Bytes)
    ensures |z| == n && AllZero(z)
  {
    seq<Byte>(n, _ => 0)
  }

  function Pow8(k: nat): (p: nat)
    ensures p > 0
  {
    if k == 0 then 1 else 8 * Pow8(k - 1)
  }

  /** `n` in `k` octal digits with leading zeros. */
  function OctalField(n: nat, k: nat): (s: Bytes)
    requires n < Pow8(k)
    ensures |s| == k && AllOctal(s)
  {
    if k == 0 then [] else OctalField(n / 8, k - 1) + [ZERO_DIGIT + n % 8]
  }

  /** The first slash from position `i` on, or the length of the path. */
  function SlashFrom(path: Bytes, i: nat): (k: nat)
    requires i <= |path|
    ensures i <= k <= |path| && (k < |path| ==> path[k] == SLASH)
    ensures forall j :: i <= j < k ==> path[j] != SLASH
    decreases |path| - i
  {
    if i == |path| || path[i] == SLASH then i else SlashFrom(path, i + 1)
  }

  function Blanks(n: nat): (s: Bytes)
    ensures |s| == n && forall i :: 0 <= i < n ==> s[i] == 32
  {
    seq<Byte>(n, _ => 32)
  }

  /** The form can hold the number in a field of this width; no digits at all stand for zero. */
  predicate Fits(n: nat, f: Form, width: nat) {
    && f.lead + f.digits + f.trail + |f.rest| == width
    && n < Pow8(f.digits)
    && (f.rest == [] || f.rest[0] == 0)
  }

  function NumberField(n: nat, f: Form): (s: Bytes)
    requires n < Pow8(f.digits)
    ensures |s| == f.lead + f.digits + f.trail + |f.rest|
  {
    Blanks(f.lead) + OctalField(n, f.digits) + Blanks(f.trail) + f.rest
  }

  /** Where a path too long for the name field is split: the first slash that leaves a short name. */
  function SplitPoint(path: Bytes): (k: nat)
    requires |path| > 100
    ensures k <= |path|
  {
    SlashFrom(path, |path| - 101)
  }

  function Name(path: Bytes): Bytes {
    if |path| <= 100 || SplitPoint(path) == |path| then path else path[SplitPoint(path) + 1..]
  }

  function Prefix(path: Bytes): Bytes {
    if |path| <= 100 || SplitPoint(path) == |path| then [] else path[..SplitPoint(path)]
  }

  /** The path fits the name and prefix fields, and the size its field. */
  predicate FieldsFit(item: Item) {
    && item.meta.Valid()
    && |Name(item.path)| <= 100 && |Prefix(item.path)| <= 155
    && Fits(|item.data|, item.sizeForm, 12)
  }

  predicate Printable(item: Item) {
    FieldsFit(item) && Fits(HeaderSum(item), item.sumForm, 8)
  }

  /** A path is printable exactly if some slash, or none, leaves both fields short enough. */
  lemma SplitIsComplete(path: Bytes)
    requires path != [] && path[0] != SLASH
    ensures |Name(path)| <= 100 && |Prefix(path)| <= 155 <==>
      |path| <= 100 || exists k :: 0 <= k <= 155 && k < |path| <= k + 101 && path[k] == SLASH
  {
    if |path| > 100 && SplitPoint(path) < |path| {
      assert path[SplitPoint(path)] == SLASH;
    }
  }

  function Before(item: Item): (b: Bytes)
    requires FieldsFit(item)
    ensures |b| == 148
  {
    var name := Name(item.path);
    name + Zeros(100 - |name|) + item.meta.owner + NumberField(|item.data|, item.sizeForm) + item.meta.mtime
  }

  function After(item: Item): (b: Bytes)
    requires FieldsFit(item)
    ensures |b| == 356
  {
    var prefix := Prefix(item.path);
    [ZERO_DIGIT] + item.meta.rest + prefix + Zeros(155 - |prefix|) + Zeros(12)
  }

  function HeaderSum(item: Item): (n: nat)
    requires FieldsFit(item)
    ensures n < Pow8(6)
  {
    SumBound(Before(item), 0, 148);
    SumBound(After(item), 0, 356);
    assert Pow8(6) == 262144;
    Sum(Before(item), 0, 148) + 256 + Sum(After(item), 0, 356)
  }

  function PrintHeader(item: Item): (h: Bytes)
    requires Printable(item)
    ensures |h| == BLOCK
  {
    Before(item) + NumberField(HeaderSum(item), item.sumForm) + After(item)
  }

  function PrintItem(item: Item): (b: Bytes)
    requires Printable(item)
    ensures |b| == BLOCK + Padded(|item.data|)
  {
    PrintHeader(item) + item.data + Zeros(Padded(|item.data|) - |item.data|)
  }

  function PrintItems(items: seq<Item>): Bytes
    requires forall i :: 0 <= i < |items| ==> Printable(items[i])
  {
    if items == [] then [] else PrintItem(items[0]) + PrintItems(items[1..])
  }

  /** The entries one after another, then the two zero blocks that end an archive. */
  function Print(items: seq<Item>): Bytes
    requires forall i :: 0 <= i < |items| ==> Printable(items[i])
  {
    PrintItems(items) + Zeros(2 * BLOCK)
  }

  // --- Fields --------------------------------------------------------------------------------

  lemma {:induction false} SumBound(s: Bytes, lo: nat, hi: nat)
    requires lo <= hi <= |s|
    ensures Sum(s, lo, hi) <= 255 * (hi - lo)
    decreases hi
  {
    if lo < hi {
      SumBound(s, lo, hi - 1);
    }
  }

  lemma {:induction false} SumShift(s: Bytes, t: Bytes, lo: nat, n: nat)
    requires lo + n <= |s| && n <= |t| && s[lo..lo + n] == t[..n]
    ensures Sum(s, lo, lo + n) == Sum(t, 0, n)
    decreases n
  {
    if n > 0 {
      assert s[lo..lo + n][n - 1] == t[..n][n - 1];
      assert s[lo..lo + (n - 1)] == s[lo..lo + n][..n - 1] == t[..n][..n - 1] == t[..n - 1];
      SumShift(s, t, lo, n - 1);
    }
  }

  lemma {:induction false} NulAfter(v: Bytes, tail: Bytes)
    requires forall i :: 0 <= i < |v| ==> v[i] != 0
    requires tail == [] || tail[0] == 0
    ensures NulIndex(v + tail) == |v|
  {
    if v == [] {
      assert v + tail == tail;
    } else {
      assert (v + tail)[1..] == v[1..] + tail;
      NulAfter(v[1..], tail);
    }
  }

  lemma ReadString(block: Bytes, offset: nat, length: nat, v: Bytes, tail: Bytes)
    requires offset + length <= |block| && block[offset..offset + length] == v + tail
    requires forall i :: 0 <= i < |v| ==> v[i] != 0
    requires tail == [] || tail[0] == 0
    ensures TarString(block, offset, length) == v
  {
    NulAfter(v, tail);
  }

  lemma {:induction false} OctalRoundTrip(n: nat, k: nat)
    requires n < Pow8(k)
    ensures Octal(OctalField(n, k), k) == n
  {
    if k > 0 {
      OctalRoundTrip(n / 8, k - 1);
      OctalPrefix(OctalField(n, k), OctalField(n / 8, k - 1), k - 1);
    }
  }

  lemma {:induction false} OctalPrefix(s: Bytes, t: Bytes, n: nat)
    requires n <= |s| && n <= |t| && s[..n] == t[..n]
    ensures Octal(s, n) == Octal(t, n)
  {
    if n > 0 {
      assert s[..n - 1] == s[..n][..n - 1] == t[..n][..n - 1] == t[..n - 1];
      assert s[n - 1] == s[..n][n - 1] == t[..n][n - 1];
      OctalPrefix(s, t, n - 1);
    }
  }

  lemma {:induction false} TrimStartBlanks(s: Bytes, i: nat, k: nat)
    requires i <= k <= |s| && (forall j :: i <= j < k ==> s[j] == 32) && (k < |s| ==> IsOctal(s[k]))
    ensures TrimStart(s, i) == k
    decreases k - i
  {
    if i < k {
      TrimStartBlanks(s, i + 1, k);
    }
  }

  lemma {:induction false} TrimEndBlanks(s: Bytes, i: nat, k: nat, j: nat)
    requires i <= k <= j <= |s| && (forall x :: k <= x < j ==> s[x] == 32) && (i < k ==> IsOctal(s[k - 1]))
    ensures TrimEnd(s, i, j) == k
    decreases j
  {
    if k < j {
      TrimEndBlanks(s, i, k, j - 1);
    }
  }

  /** Spaces around digits are trimmed, and nothing is left of spaces alone. */
  lemma TrimBlanks(v: Bytes, lead: nat, trail: nat)
    requires AllOctal(v)
    ensures Trim(Blanks(lead) + v + Blanks(trail)) == v
  {
    var s := Blanks(lead) + v + Blanks(trail);
    if v == [] {
      TrimStartBlanks(s, 0, |s|);
    } else {
      assert s[lead] == v[0] && s[lead + |v| - 1] == v[|v| - 1];
      TrimStartBlanks(s, 0, lead);
      TrimEndBlanks(s, lead, lead + |v|, |s|);
      assert s[lead..lead + |v|] == v;
    }
  }

  /** Every form of a number is read as that number. */
  lemma ReadNumber(block: Bytes, offset: nat, length: nat, n: nat, f: Form)
    requires Fits(n, f, length)
    requires offset + length <= |block| && block[offset..offset + length] == NumberField(n, f)
    ensures TarNumber(block, offset, length) == Ok(n)
  {
    var digits := OctalField(n, f.digits);
    var text := Blanks(f.lead) + digits + Blanks(f.trail);
    ReadString(block, offset, length, text, f.rest);
    TrimBlanks(digits, f.lead, f.trail);
    OctalRoundTrip(n, f.digits);
  }

  /** A slice that lies in one part of a three-part sequence is a slice of that part. */
  lemma Slices(a: Bytes, f: Bytes, b: Bytes, i: nat, j: nat)
    requires i <= j
    ensures j <= |a| ==> (a + f + b)[i..j] == a[i..j]
    ensures j <= |f| ==> (a + f + b)[|a| + i..|a| + j] == f[i..j]
    ensures j <= |b| ==> (a + f + b)[|a| + |f| + i..|a| + |f| + j] == b[i..j]
  {}

  lemma BeforeFields(item: Item)
    requires Printable(item)
    ensures Before(item)[0..100] == Name(item.path) + Zeros(100 - |Name(item.path)|)
    ensures Before(item)[124..136] == NumberField(|item.data|, item.sizeForm)
  {
    hide Name, NumberField;
    var name := Name(item.path) + Zeros(100 - |Name(item.path)|);
    var size := NumberField(|item.data|, item.sizeForm);
    assert Before(item) == (name + item.meta.owner) + size + item.meta.mtime;
    Slices(name + item.meta.owner, size, item.meta.mtime, 0, 12);
    assert (name + item.meta.owner)[0..100] == name;
    Slices(name + item.meta.owner, size, item.meta.mtime, 0, 100);
  }

  lemma AfterFields(item: Item)
    requires Printable(item)
    ensures After(item)[0..1] == [ZERO_DIGIT]
    ensures After(item)[189..344] == Prefix(item.path) + Zeros(155 - |Prefix(item.path)|)
  {
    hide Prefix;
    var prefix := Prefix(item.path) + Zeros(155 - |Prefix(item.path)|);
    assert After(item) == ([ZERO_DIGIT] + item.meta.rest) + prefix + Zeros(12);
    Slices([ZERO_DIGIT] + item.meta.rest, prefix, Zeros(12), 0, 155);
  }

  /** The five fields of a printed header that the parser reads. */
  lemma PrintedFields(item: Item)
    requires Printable(item)
    ensures var h := PrintHeader(item); var name := Name(item.path); var prefix := Prefix(item.path);
      && h[0..100] == name + Zeros(100 - |name|)
      && h[124..136] == NumberField(|item.data|, item.sizeForm)
      && h[148..156] == NumberField(HeaderSum(item), item.sumForm)
      && h[156..157] == [ZERO_DIGIT]
      && h[345..500] == prefix + Zeros(155 - |prefix|)
  {
    hide Before, After, Name, Prefix, NumberField, HeaderSum;
    var sum := NumberField(HeaderSum(item), item.sumForm);
    BeforeFields(item);
    AfterFields(item);
    Slices(Before(item), sum, After(item), 0, 100);
    Slices(Before(item), sum, After(item), 124, 136);
    Slices(Before(item), sum, After(item), 0, 8);
    Slices(Before(item), sum, After(item), 0, 1);
    Slices(Before(item), sum, After(item), 189, 344);
  }

  lemma PrintedSum(item: Item)
    requires Printable(item)
    ensures Checksum(PrintHeader(item)) == HeaderSum(item)
  {
    var h := PrintHeader(item);
    assert h[0..148] == Before(item)[..148];
    assert h[156..512] == After(item)[..356];
    SumShift(h, Before(item), 0, 148);
    SumShift(h, After(item), 156, 356);
  }

  /** Splitting a safe path over the two fields loses nothing. */
  lemma SplitJoins(path: Bytes)
    requires SafePath(path)
    ensures var name := Name(path); var prefix := Prefix(path);
      && path == (if prefix != [] then prefix + [SLASH] + name else name)
      && (forall i :: 0 <= i < |name| ==> name[i] != 0)
      && (forall i :: 0 <= i < |prefix| ==> prefix[i] != 0)
  {
    if |path| > 100 && SplitPoint(path) < |path| {
      assert path[SplitPoint(path)] == SLASH && SplitPoint(path) != 0;
      assert path == path[..SplitPoint(path)] + [SLASH] + path[SplitPoint(path) + 1..];
    }
  }

  lemma PrintedHeader(item: Item)
    requires Printable(item) && SafePath(item.path)
    ensures DecodeHeader(PrintHeader(item)) == Ok(Header(item.path, |item.data|, [ZERO_DIGIT]))
    ensures !AllZero(PrintHeader(item))
  {
    hide SafePath, Sum, Octal, NumberField, Trim, Name, Prefix, HeaderSum, PrintHeader, TarNumber, TarString, Checksum;
    var h := PrintHeader(item);
    var name := Name(item.path);
    var prefix := Prefix(item.path);
    PrintedFields(item);
    PrintedSum(item);
    SplitJoins(item.path);
    ReadNumber(h, 148, 8, HeaderSum(item), item.sumForm);
    ReadString(h, 0, 100, name, Zeros(100 - |name|));
    ReadString(h, 345, 155, prefix, Zeros(155 - |prefix|));
    ReadNumber(h, 124, 12, |item.data|, item.sizeForm);
    assert h[156..157] == [ZERO_DIGIT] + [];
    ReadString(h, 156, 1, [ZERO_DIGIT], []);
    assert h[156] == h[156..157][0];
  }

  // --- Round trip ----------------------------------------------------------------------------

  predicate Distinct(items: seq<Item>) {
    forall i, j :: 0 <= i < j < |items| ==> items[i].path != items[j].path
  }

  predicate AllPrintable(items: seq<Item>) {
    forall i :: 0 <= i < |items| ==> Printable(items[i]) && SafePath(items[i].path)
  }

  /** `found` is `files` with the items added. */
  ghost predicate Extended(files: Files, items: seq<Item>, found: Files) {
    && (forall p :: p in found <==> p in files || exists i :: 0 <= i < |items| && items[i].path == p)
    && (forall p :: p in files ==> found[p] == files[p])
    && (forall i :: 0 <= i < |items| ==> found[items[i].path] == items[i].data)
  }

  lemma EntrySlices(done: Bytes, header: Bytes, data: Bytes, pad: Bytes, tail: Bytes)
    ensures var tar := done + (header + data + pad) + tail; var start := |done| + |header|;
      tar[|done|..start] == header && tar[start..start + |data|] == data
  {
    var tar := done + (header + data + pad) + tail;
    assert tar == done + header + (data + pad + tail);
    Slices(done, header, data + pad + tail, 0, |header|);
    assert tar == (done + header) + data + (pad + tail);
    Slices(done + header, data, pad + tail, 0, |data|);
  }

  /** Where the header and the data of a printed entry stand. */
  lemma ItemSlices(done: Bytes, item: Item, tail: Bytes)
    requires Printable(item)
    ensures var tar := done + PrintItem(item) + tail; var start := |done| + BLOCK;
      tar[|done|..start] == PrintHeader(item) && tar[start..start + |item.data|] == item.data
  {
    hide PrintHeader, Printable, Padded;
    EntrySlices(done, PrintHeader(item), item.data, Zeros(Padded(|item.data|) - |item.data|), tail);
  }

  /** One printed entry, wherever it stands, moves the parser past it and adds its file. */
  lemma ParseItem(done: Bytes, item: Item, tail: Bytes, files: Files)
    requires Printable(item) && SafePath(item.path) && item.path !in files
    ensures var tar := done + PrintItem(item) + tail;
      ParseFrom(tar, |done|, files) ==
      ParseFrom(tar, |done + PrintItem(item)|, files[item.path := item.data])
  {
    hide DecodeHeader, SafePath, PrintHeader, PrintItem, Printable, Padded, AllZero;
    ItemSlices(done, item, tail);
    PrintedHeader(item);
    SizeBound(item);
  }

  lemma {:induction false} Pow8Grows(j: nat, k: nat)
    requires j <= k
    ensures Pow8(j) <= Pow8(k)
    decreases k
  {
    if j < k {
      Pow8Grows(j, k - 1);
    }
  }

  lemma SizeBound(item: Item)
    requires Printable(item)
    ensures |item.data| <= MAX_SAFE_INTEGER
  {
    Pow8Grows(item.sizeForm.digits, 12);
    assert Pow8(12) == 68719476736;
  }

  /** The forms that archivers write: eleven digits and a NUL, and six digits, a NUL and a space. */
  lemma UsualForms(item: Item)
    requires item.meta.Valid() && |Name(item.path)| <= 100 && |Prefix(item.path)| <= 155
    requires item.sizeForm == Form(0, 11, 0, [0]) && item.sumForm == Form(0, 6, 0, [0, 32])
    ensures Printable(item) <==> |item.data| < 8589934592
  {
    assert Pow8(11) == 8589934592;
  }

  lemma PrintSplit(done: Bytes, items: seq<Item>)
    requires AllPrintable(items) && items != []
    ensures var tar := done + PrintItems(items) + Zeros(2 * BLOCK);
      && tar == done + PrintItem(items[0]) + (PrintItems(items[1..]) + Zeros(2 * BLOCK))
      && tar == (done + PrintItem(items[0])) + PrintItems(items[1..]) + Zeros(2 * BLOCK)
  {
    hide PrintItem, Printable;
    Reassociate(done, PrintItem(items[0]), PrintItems(items[1..]), Zeros(2 * BLOCK));
  }

  lemma Reassociate(a: Bytes, b: Bytes, c: Bytes, d: Bytes)
    ensures a + (b + c) + d == a + b + (c + d) && a + (b + c) + d == (a + b) + c + d
  {}

  lemma ExtendedFirst(files: Files, items: seq<Item>, found: Files)
    requires items != [] && Distinct(items)
    requires items[0].path !in files && forall i :: 0 <= i < |items| ==> items[i].path !in files
    requires Extended(files[items[0].path := items[0].data], items[1..], found)
    ensures Extended(files, items, found)
  {
    assert items[0].path in files[items[0].path := items[0].data];
  }

  lemma ParseNone(done: Bytes, files: Files)
    requires files != map[]
    ensures ParseFrom(done + [] + Zeros(2 * BLOCK), |done|, files) == Ok(files) && Extended(files, [], files)
  {
    var tar := done + [] + Zeros(2 * BLOCK);
    hide DecodeHeader;
    assert tar[|done|..|done| + BLOCK] == Zeros(2 * BLOCK)[..BLOCK];
  }

  lemma {:induction false} ParseItems(done: Bytes, items: seq<Item>, files: Files)
    requires AllPrintable(items) && Distinct(items)
    requires forall i :: 0 <= i < |items| ==> items[i].path !in files
    requires items != [] || files != map[]
    ensures var r := ParseFrom(done + PrintItems(items) + Zeros(2 * BLOCK), |done|, files);
      r.Ok? && Extended(files, items, r.value)
    decreases |items|
  {
    hide SafePath, Printable, PrintItem, ParseFrom, Extended;
    if items == [] {
      ParseNone(done, files);
    } else {
      var item := items[0];
      var rest := PrintItems(items[1..]) + Zeros(2 * BLOCK);
      PrintSplit(done, items);
      ParseItem(done, item, rest, files);
      assert item.path in files[item.path := item.data];
      ParseItems(done + PrintItem(item), items[1..], files[item.path := item.data]);
      var r := ParseFrom(done + PrintItems(items) + Zeros(2 * BLOCK), |done|, files);
      ExtendedFirst(files, items, r.value);
    }
  }

  /** Printing any non-empty list of distinct safe paths and parsing the image gives the files back. */
  lemma RoundTrip(items: seq<Item>)
    requires items != [] && AllPrintable(items) && Distinct(items)
    ensures Parse(Print(items)).Ok?
    ensures Extended(map[], items, Parse(Print(items)).value)
  {
    hide PrintItems, ParseFrom, Printable, Extended, AllZero, SafePath;
    ParseItems([], items, map[]);
    EmptyFront(PrintItems(items), Zeros(2 * BLOCK));
  }

  lemma EmptyFront(a: Bytes, b: Bytes)
    ensures [] + a + b == a + b
  {}

  // --- Accepted images -----------------------------------------------------------------------

  datatype Entry = Entry(path: Bytes, start: nat, size: nat, isFile: bool)

  ghost predicate ZeroBlock(tar: Bytes, offset: nat)
    requires offset + BLOCK <= |tar|
  {
    forall i :: offset <= i < offset + BLOCK ==> tar[i] == 0
  }

  lemma ZeroBlockExactly(tar: Bytes, offset: nat)
    requires offset + BLOCK <= |tar|
    ensures AllZero(tar[offset..offset + BLOCK]) <==> ZeroBlock(tar, offset)
  {
    var block := tar[offset..offset + BLOCK];
    assert forall i :: offset <= i < offset + BLOCK ==> tar[i] == block[i - offset];
  }

  /** From `offset` on the image consists of exactly these entries and then a zero block. */
  ghost predicate Lists(tar: Bytes, offset: nat, entries: seq<Entry>)
    decreases |entries|
  {
    && offset + BLOCK <= |tar|
    && (if entries == [] then ZeroBlock(tar, offset)
        else
          var e := entries[0];
          var h := DecodeHeader(tar[offset..offset + BLOCK]);
          && !ZeroBlock(tar, offset)
          && h.Ok? && h.value.path == e.path && h.value.size == e.size
          && (if e.isFile then h.value.kind == [] || h.value.kind == [ZERO_DIGIT] else h.value.kind == [53])
          && e.start == offset + BLOCK && e.start + e.size <= |tar| && e.size <= MAX_SAFE_INTEGER
          && Lists(tar, e.start + Padded(e.size), entries[1..]))
  }

  /** The files of the entries, `None` when a path comes twice or is already there. */
  function Collect(tar: Bytes, entries: seq<Entry>, files: Files): Option<Files>
    requires forall i :: 0 <= i < |entries| ==> entries[i].start + entries[i].size <= |tar|
    decreases |entries|
  {
    if entries == [] then Some(files)
    else
      var e := entries[0];
      if !e.isFile then Collect(tar, entries[1..], files)
      else if e.path in files then None
      else Collect(tar, entries[1..], files[e.path := tar[e.start..e.start + e.size]])
  }

  ghost predicate ListedInImage(tar: Bytes, entries: seq<Entry>) {
    && (forall i :: 0 <= i < |entries| ==>
          entries[i].start + entries[i].size <= |tar| && SafePath(entries[i].path))
    && (forall i, j :: 0 <= i < j < |entries| ==> entries[i].start + entries[i].size < entries[j].start)
  }

  lemma DecodedPath(header: Bytes)
    requires |header| == BLOCK
    ensures DecodeHeader(header).Ok? ==> SafePath(DecodeHeader(header).value.path)
  {
    hide SafePath, Checksum, TarNumber, TarString;
  }

  lemma ListedFirst(tar: Bytes, offset: nat, entries: seq<Entry>)
    requires entries != []
    ensures var e := entries[0];
      Lists(tar, offset, entries) ==>
        && offset < e.start && e.start + e.size <= |tar| && SafePath(e.path)
        && Lists(tar, e.start + Padded(e.size), entries[1..])
  {
    hide DecodeHeader, SafePath;
    if Lists(tar, offset, entries) {
      DecodedPath(tar[offset..offset + BLOCK]);
    }
  }

  lemma {:induction false} ListedInside(tar: Bytes, offset: nat, entries: seq<Entry>)
    ensures Lists(tar, offset, entries) ==>
      && (forall i :: 0 <= i < |entries| ==> offset < entries[i].start)
      && ListedInImage(tar, entries)
    decreases |entries|
  {
    hide Lists, SafePath;
    if entries != [] {
      var e := entries[0];
      var rest := entries[1..];
      ListedFirst(tar, offset, entries);
      ListedInside(tar, e.start + Padded(e.size), rest);
      assert forall i :: 0 < i < |entries| ==> entries[i] == rest[i - 1];
    }
  }

  /** An image that lists is accepted, and yields its files, unless a path comes twice or none is a file. */
  lemma {:induction false} ListedParses(tar: Bytes, offset: nat, entries: seq<Entry>, files: Files)
    requires forall i :: 0 <= i < |entries| ==> entries[i].start + entries[i].size <= |tar|
    ensures var found := Collect(tar, entries, files);
      Lists(tar, offset, entries) ==>
      ParseFrom(tar, offset, files) ==
      if found.None? then Err(Duplicate) else if found.value == map[] then Err(Incomplete) else Ok(found.value)
    decreases |entries|
  {
    hide DecodeHeader, AllZero, ZeroBlock;
    if offset + BLOCK <= |tar| {
      ZeroBlockExactly(tar, offset);
    }
    if entries != [] && Lists(tar, offset, entries) {
      var e := entries[0];
      var next := e.start + Padded(e.size);
      if !e.isFile {
        ListedParses(tar, next, entries[1..], files);
      } else if e.path !in files {
        ListedParses(tar, next, entries[1..], files[e.path := tar[e.start..e.start + e.size]]);
      }
    }
  }

  /** An accepted image lists. */
  lemma {:induction false} ParsedLists(tar: Bytes, offset: nat, files: Files) returns (entries: seq<Entry>)
    ensures ParseFrom(tar, offset, files).Ok? ==> Lists(tar, offset, entries)
    decreases |tar| - offset
  {
    hide DecodeHeader, AllZero, ZeroBlock;
    if offset + BLOCK <= |tar| {
      ZeroBlockExactly(tar, offset);
    }
    entries := [];
    if ParseFrom(tar, offset, files).Ok? && !AllZero(tar[offset..offset + BLOCK]) {
      var Header(path, size, kind) := DecodeHeader(tar[offset..offset + BLOCK]).value;
      var start := offset + BLOCK;
      var isFile := kind != [53];
      var rest := ParsedLists(tar, start + Padded(size),
                              if isFile then files[path := tar[start..start + size]] else files);
      entries := [Entry(path, start, size, isFile)] + rest;
      assert entries[1..] == rest;
    }
  }

  predicate SomeFile(entries: seq<Entry>) {
    exists i :: 0 <= i < |entries| && entries[i].isFile
  }

  predicate DistinctFiles(entries: seq<Entry>, files: Files) {
    && (forall i :: 0 <= i < |entries| && entries[i].isFile ==> entries[i].path !in files)
    && (forall i, j :: 0 <= i < j < |entries| && entries[i].isFile && entries[j].isFile ==>
          entries[i].path != entries[j].path)
  }

  lemma DistinctFirst(tar: Bytes, entries: seq<Entry>, files: Files, data: Bytes)
    requires entries != []
    ensures var e := entries[0];
      DistinctFiles(entries, files) <==>
      if e.isFile then e.path !in files && DistinctFiles(entries[1..], files[e.path := data])
      else DistinctFiles(entries[1..], files)
  {
    var e := entries[0];
    var rest := entries[1..];
    var files' := if e.isFile then files[e.path := data] else files;
    if (e.isFile ==> e.path !in files) && DistinctFiles(rest, files') {
      forall i | 0 <= i < |entries| && entries[i].isFile ensures entries[i].path !in files {
        assert i > 0 ==> entries[i] == rest[i - 1];
      }
      forall i, j | 0 <= i < j < |entries| && entries[i].isFile && entries[j].isFile
        ensures entries[i].path != entries[j].path
      {
        assert entries[j] == rest[j - 1] && (i > 0 ==> entries[i] == rest[i - 1]);
      }
    }
  }

  lemma {:induction false} CollectedDistinct(tar: Bytes, entries: seq<Entry>, files: Files)
    requires forall i :: 0 <= i < |entries| ==> entries[i].start + entries[i].size <= |tar|
    ensures Collect(tar, entries, files).Some? <==> DistinctFiles(entries, files)
    decreases |entries|
  {
    if entries != [] {
      var e := entries[0];
      var data := tar[e.start..e.start + e.size];
      DistinctFirst(tar, entries, files, data);
      hide DistinctFiles;
      if !e.isFile {
        CollectedDistinct(tar, entries[1..], files);
      } else if e.path !in files {
        CollectedDistinct(tar, entries[1..], files[e.path := data]);
      }
    }
  }

  /** What collecting means: each file path maps to its slice of the image. */
  lemma {:induction false} Collected(tar: Bytes, entries: seq<Entry>, files: Files)
    requires forall i :: 0 <= i < |entries| ==> entries[i].start + entries[i].size <= |tar|
    requires Collect(tar, entries, files).Some?
    ensures Gathered(tar, entries, files, Collect(tar, entries, files).value)
    decreases |entries|
  {
    if entries != [] {
      var e := entries[0];
      var rest := entries[1..];
      var files' := if e.isFile then files[e.path := tar[e.start..e.start + e.size]] else files;
      var found := Collect(tar, entries, files).value;
      assert Collect(tar, rest, files') == Some(found);
      hide Collect;
      Collected(tar, rest, files');
      assert forall i :: 0 < i < |entries| ==> entries[i] == rest[i - 1];
    }
  }

  ghost predicate Gathered(tar: Bytes, entries: seq<Entry>, files: Files, found: Files)
    requires forall i :: 0 <= i < |entries| ==> entries[i].start + entries[i].size <= |tar|
  {
    && (forall p :: p in found <==>
          p in files || exists i :: 0 <= i < |entries| && entries[i].isFile && entries[i].path == p)
    && (forall p :: p in files && p in found ==> found[p] == files[p])
    && (forall i :: 0 <= i < |entries| && entries[i].isFile ==>
          found[entries[i].path] == tar[entries[i].start..entries[i].start + entries[i].size])
  }

  /**
   The parser accepts an image exactly if it lists entries up to a zero block, some file among
   them and no file path twice. Every entry then lies inside the image, apart from the others,
   under a safe path, and the result maps each file path to its slice.
   */
  lemma Accepted(tar: Bytes)
    ensures Parse(tar).Ok? <==>
      exists entries :: Lists(tar, 0, entries) && DistinctFiles(entries, map[]) && SomeFile(entries)
    ensures forall entries :: Lists(tar, 0, entries) ==>
      ListedInImage(tar, entries) && (Parse(tar).Ok? <==> DistinctFiles(entries, map[]) && SomeFile(entries))
    ensures forall entries :: Lists(tar, 0, entries) && Parse(tar).Ok? ==>
      ListedInImage(tar, entries) && Gathered(tar, entries, map[], Parse(tar).value)
  {
    hide Lists, DistinctFiles;
    forall entries: seq<Entry> | Lists(tar, 0, entries)
      ensures ListedInImage(tar, entries)
      ensures Parse(tar).Ok? <==> DistinctFiles(entries, map[]) && SomeFile(entries)
      ensures Parse(tar).Ok? ==> Gathered(tar, entries, map[], Parse(tar).value)
    {
      ListedInside(tar, 0, entries);
      ListedParses(tar, 0, entries, map[]);
      CollectedDistinct(tar, entries, map[]);
      if DistinctFiles(entries, map[]) {
        Collected(tar, entries, map[]);
        var found := Collect(tar, entries, map[]).value;
        if i :| 0 <= i < |entries| && entries[i].isFile {
          assert entries[i].path in found;
        }
      }
    }
    if Parse(tar).Ok? {
      var entries := ParsedLists(tar, 0, map[]);
    }
  }
}
