/** What one changed byte of an accepted release tarball does, depending on where it is. */
module TarDamage {
  import opened Prelude
  import opened Tar
  import opened TarRoundTrip
  import opened TarHeaders

  /** The byte is in the header of the entry, outside its checksum field. */
  predicate InHeader(e: Entry, p: nat) {
    e.start - BLOCK <= p < e.start && !(e.start - BLOCK + 148 <= p < e.start - BLOCK + 156)
  }

  predicate InBlock(offset: nat, p: nat) {
    offset <= p < offset + BLOCK
  }

  /** Where the list of entries ends, and its zero block begins. */
  function EndOf(offset: nat, entries: seq<Entry>): nat
    decreases |entries|
  {
    if entries == [] then offset else EndOf(entries[0].start + Padded(entries[0].size), entries[1..])
  }

  /** The byte is in no header and not in the zero block. */
  predicate Outside(offset: nat, entries: seq<Entry>, p: nat) {
    (forall i :: 0 <= i < |entries| ==> !(entries[i].start - BLOCK <= p < entries[i].start))
    && !InBlock(EndOf(offset, entries), p)
  }

  lemma ZeroField(block: Bytes, offset: nat, length: nat)
    requires offset + length <= |block| && AllZero(block[offset..offset + length])
    ensures TarNumber(block, offset, length) == Ok(0)
  {}

  /** An accepted header is not all zero in its checksum field. */
  lemma SumFieldNotZero(header: Bytes)
    requires |header| == BLOCK && DecodeHeader(header).Ok?
    ensures exists i :: 148 <= i < 156 && header[i] != 0
  {
    hide Sum, TarNumber, TarString, SafePath;
    if forall i :: 148 <= i < 156 ==> header[i] == 0 {
      ZeroField(header, 148, 8);
    }
  }

  lemma DamagedBlock(tar: Bytes, offset: nat, p: nat, b: Byte)
    requires offset + BLOCK <= |tar| && InBlock(offset, p)
    requires DecodeHeader(tar[offset..offset + BLOCK]).Ok?
    requires !(offset + 148 <= p < offset + 156) && b != tar[p]
    ensures !AllZero(tar[p := b][offset..offset + BLOCK])
    ensures DecodeHeader(tar[p := b][offset..offset + BLOCK]) == Err(InvalidChecksum)
  {
    hide DecodeHeader;
    var header := tar[offset..offset + BLOCK];
    assert tar[p := b][offset..offset + BLOCK] == header[p - offset := b];
    ChangeNoticed(header, p - offset, b);
    SumFieldNotZero(header);
    var i :| 148 <= i < 156 && header[i] != 0;
    assert tar[p := b][offset..offset + BLOCK][i] == header[i];
  }

  lemma SameSlice(tar: Bytes, p: nat, b: Byte, lo: nat, hi: nat)
    requires p < |tar| && lo <= hi <= |tar| && !(lo <= p < hi)
    ensures tar[p := b][lo..hi] == tar[lo..hi]
  {}

  lemma {:induction false} HeaderDamageFrom(tar: Bytes, offset: nat, entries: seq<Entry>, files: Files, k: nat, p: nat, b: Byte)
    requires Lists(tar, offset, entries) && DistinctFiles(entries, files)
    requires k < |entries| && InHeader(entries[k], p) && p < |tar| && b != tar[p]
    ensures ParseFrom(tar[p := b], offset, files) == Err(InvalidChecksum)
    decreases |entries|
  {
    hide DistinctFiles, Lists, ParseFrom;
    var e, rest := entries[0], entries[1..];
    if k == 0 {
      FirstDamaged(tar, offset, entries, files, p, b);
    } else {
      var next := e.start + Padded(e.size);
      ListedFirst(tar, offset, entries);
      assert rest[k - 1] == entries[k];
      BehindHeader(tar, next, rest, k - 1);
      var data := tar[e.start..e.start + e.size];
      DistinctFirst(tar, entries, files, data);
      FirstIsNew(entries, files);
      StepOver(tar, offset, entries, files, p, b);
      HeaderDamageFrom(tar, next, rest, if e.isFile then files[e.path := data] else files, k - 1, p, b);
    }
  }

  lemma FirstDamaged(tar: Bytes, offset: nat, entries: seq<Entry>, files: Files, p: nat, b: Byte)
    requires Lists(tar, offset, entries) && entries != [] && InHeader(entries[0], p) && p < |tar| && b != tar[p]
    ensures ParseFrom(tar[p := b], offset, files) == Err(InvalidChecksum)
  {
    hide DecodeHeader;
    DamagedBlock(tar, offset, p, b);
  }

  /** The first entry is read as before when the byte lies behind it. */
  lemma StepOver(tar: Bytes, offset: nat, entries: seq<Entry>, files: Files, p: nat, b: Byte)
    requires Lists(tar, offset, entries) && entries != [] && entries[0].start + entries[0].size <= p < |tar|
    requires entries[0].isFile ==> entries[0].path !in files
    ensures var e := entries[0];
      ParseFrom(tar[p := b], offset, files) ==
      ParseFrom(tar[p := b], e.start + Padded(e.size), if e.isFile then files[e.path := tar[e.start..e.start + e.size]] else files)
  {
    hide DecodeHeader, ZeroBlock, AllZero;
    var e := entries[0];
    ZeroBlockExactly(tar, offset);
    SameSlice(tar, p, b, offset, offset + BLOCK);
    SameSlice(tar, p, b, e.start, e.start + e.size);
  }

  lemma FirstIsNew(entries: seq<Entry>, files: Files)
    requires entries != [] && DistinctFiles(entries, files)
    ensures entries[0].isFile ==> entries[0].path !in files
  {}

  /** The headers of listed entries lie behind the place the list begins at. */
  lemma {:induction false} BehindHeader(tar: Bytes, offset: nat, entries: seq<Entry>, k: nat)
    requires Lists(tar, offset, entries) && k < |entries|
    ensures offset <= entries[k].start - BLOCK && entries[k].start <= |tar|
    decreases |entries|
  {
    hide DecodeHeader;
    if k > 0 {
      BehindHeader(tar, entries[0].start + Padded(entries[0].size), entries[1..], k - 1);
    }
  }

  /** A changed header byte outside a checksum field is always noticed. */
  lemma HeaderDamage(tar: Bytes, entries: seq<Entry>, k: nat, p: nat, b: Byte)
    requires Lists(tar, 0, entries) && Parse(tar).Ok?
    requires k < |entries| && InHeader(entries[k], p) && p < |tar| && b != tar[p]
    ensures Parse(tar[p := b]) == Err(InvalidChecksum)
  {
    hide Lists, DistinctFiles, ParseFrom;
    Accepted(tar);
    HeaderDamageFrom(tar, 0, entries, map[], k, p, b);
  }

  /** A change outside headers and zero block leaves the list as it is. */
  lemma {:induction false} ListsStill(tar: Bytes, offset: nat, entries: seq<Entry>, p: nat, b: Byte)
    requires Lists(tar, offset, entries) && p < |tar| && Outside(offset, entries, p)
    ensures Lists(tar[p := b], offset, entries)
    decreases |entries|
  {
    hide DecodeHeader, ZeroBlock;
    SameSlice(tar, p, b, offset, offset + BLOCK);
    ZeroBlockExactly(tar, offset);
    ZeroBlockExactly(tar[p := b], offset);
    if entries != [] {
      ListsStill(tar, entries[0].start + Padded(entries[0].size), entries[1..], p, b);
    }
  }

  function With(data: Bytes, i: nat, b: Byte): Bytes
    requires i < |data|
  {
    data[i := b]
  }

  /** The byte is in the data of the entry. */
  predicate InData(e: Entry, p: nat) {
    e.isFile && e.start <= p < e.start + e.size
  }

  /** A changed byte of a file changes that byte of that file and nothing else. */
  lemma DataDamage(tar: Bytes, entries: seq<Entry>, k: nat, p: nat, b: Byte)
    requires Lists(tar, 0, entries) && Parse(tar).Ok? && p < |tar|
    requires k < |entries| && InData(entries[k], p)
    ensures var path, at := entries[k].path, p - entries[k].start; var found := Parse(tar).value;
      && path in found && at < |found[path]|
      && Parse(tar[p := b]) == Ok(found[path := With(found[path], at, b)])
  {
    hide Lists, DistinctFiles, ParseFrom, Gathered;
    Accepted(tar);
    OutsideData(tar, entries, k, p);
    ListsStill(tar, 0, entries, p, b);
    Accepted(tar[p := b]);
    GatheredDamage(tar, entries, k, p, b, Parse(tar).value, Parse(tar[p := b]).value);
  }

  lemma OutsideData(tar: Bytes, entries: seq<Entry>, k: nat, p: nat)
    requires Lists(tar, 0, entries) && k < |entries| && InData(entries[k], p)
    ensures Outside(0, entries, p)
  {
    OutsideFrom(tar, 0, entries, k, p);
  }

  lemma {:induction false} OutsideFrom(tar: Bytes, offset: nat, entries: seq<Entry>, k: nat, p: nat)
    requires Lists(tar, offset, entries) && k < |entries| && entries[k].start <= p < entries[k].start + Padded(entries[k].size)
    ensures Outside(offset, entries, p) && p >= offset
    decreases |entries|
  {
    hide DecodeHeader;
    var next := entries[0].start + Padded(entries[0].size);
    var rest := entries[1..];
    forall i | 0 <= i < |rest| ensures next <= rest[i].start - BLOCK {
      BehindHeader(tar, next, rest, i);
    }
    EndBehind(tar, next, rest);
    assert forall i :: 0 < i < |entries| ==> entries[i] == rest[i - 1];
    if k > 0 {
      OutsideFrom(tar, next, rest, k - 1, p);
    }
  }

  lemma {:induction false} EndBehind(tar: Bytes, offset: nat, entries: seq<Entry>)
    requires Lists(tar, offset, entries)
    ensures EndOf(offset, entries) >= offset
    decreases |entries|
  {
    hide DecodeHeader;
    if entries != [] {
      EndBehind(tar, entries[0].start + Padded(entries[0].size), entries[1..]);
    }
  }

  lemma OwnSlice(tar: Bytes, e: Entry, p: nat, b: Byte)
    requires e.start + e.size <= |tar| && InData(e, p)
    ensures tar[p := b][e.start..e.start + e.size] == With(tar[e.start..e.start + e.size], p - e.start, b)
  {}

  lemma OtherSlice(tar: Bytes, entries: seq<Entry>, k: nat, p: nat, b: Byte, i: nat)
    requires ListedInImage(tar, entries) && k < |entries| && InData(entries[k], p) && p < |tar|
    requires i < |entries| && i != k
    ensures tar[p := b][entries[i].start..entries[i].start + entries[i].size]
         == tar[entries[i].start..entries[i].start + entries[i].size]
  {
    hide SafePath;
    assert i < k ==> entries[i].start + entries[i].size < entries[k].start;
    assert k < i ==> entries[k].start + entries[k].size < entries[i].start;
    SameSlice(tar, p, b, entries[i].start, entries[i].start + entries[i].size);
  }

  lemma GatheredDamage(tar: Bytes, entries: seq<Entry>, k: nat, p: nat, b: Byte, found: Files, found': Files)
    requires ListedInImage(tar, entries) && DistinctFiles(entries, map[]) && p < |tar|
    requires k < |entries| && InData(entries[k], p)
    requires Gathered(tar, entries, map[], found) && Gathered(tar[p := b], entries, map[], found')
    ensures var path, at := entries[k].path, p - entries[k].start;
      && path in found && at < |found[path]| && found' == found[path := With(found[path], at, b)]
  {
    hide SafePath, With, ListedInImage, DistinctFiles;
    var e := entries[k];
    InImage(tar, entries, k);
    OwnSlice(tar, e, p, b);
    var expected := found[e.path := With(found[e.path], p - e.start, b)];
    assert forall path :: path in found <==> path in found';
    forall path | path in found' ensures path in expected && found'[path] == expected[path] {
      var i :| 0 <= i < |entries| && entries[i].isFile && entries[i].path == path;
      if i != k {
        assert path != e.path by { OtherPath(entries, i, k); }
        OtherSlice(tar, entries, k, p, b, i);
      }
    }
    assert found'.Keys == expected.Keys;
  }

  lemma InImage(tar: Bytes, entries: seq<Entry>, k: nat)
    requires ListedInImage(tar, entries) && k < |entries|
    ensures entries[k].start + entries[k].size <= |tar|
  {
    hide SafePath;
  }

  lemma OtherPath(entries: seq<Entry>, i: nat, k: nat)
    requires DistinctFiles(entries, map[]) && i < |entries| && k < |entries| && i != k
    requires entries[i].isFile && entries[k].isFile
    ensures entries[i].path != entries[k].path
  {}
}
