/**
 The release-tarball reader of apps/cli/script/verify-release.ts on bytes, and a printer written
 from the section "ustar Interchange Format" of the pax utility in IEEE Std 1003.1-2017.
 */
module Tar {
  import opened Prelude

  type Byte = b: int | 0 <= b < 256
  type Bytes = seq<Byte>

  const BLOCK := 512
  const SLASH: Byte := 47
  const ZERO_DIGIT: Byte := 48
  const MAX_SAFE_INTEGER := 0x1F_FFFF_FFFF_FFFF

  datatype Error =
    | UnsafePath | InvalidNumber | InvalidChecksum | Truncated | Duplicate | Unsupported | Incomplete

  // --- Strings and numbers -------------------------------------------------------------------

  function NulIndex(s: Bytes): (n: nat)
    ensures n <= |s| && (forall i :: 0 <= i < n ==> s[i] != 0) && (n < |s| ==> s[n] == 0)
  {
    if s == [] || s[0] == 0 then 0 else 1 + NulIndex(s[1..])
  }

  function TarString(block: Bytes, offset: nat, length: nat): Bytes
    requires offset + length <= |block|
  {
    var bytes := block[offset..offset + length];
    bytes[..NulIndex(bytes)]
  }

  /** Length of the white-space character, in UTF-8, that `s[i..j]` starts with, 0 if none. */
  function SpaceLength(s: Bytes, i: nat, j: nat): (n: nat)
    requires i <= j <= |s|
    ensures n <= j - i
  {
    if i == j then 0
    else if 9 <= s[i] <= 13 || s[i] == 32 then 1
    else if i + 2 <= j && s[i] == 0xC2 && s[i + 1] == 0xA0 then 2
    else if i + 3 <= j && WideSpace(s[i], s[i + 1], s[i + 2]) then 3
    else 0
  }

  predicate WideSpace(a: Byte, b: Byte, c: Byte) {
    || (a == 0xE1 && b == 0x9A && c == 0x80)
    || (a == 0xE2 && b == 0x80 && (0x80 <= c <= 0x8A || c == 0xA8 || c == 0xA9 || c == 0xAF))
    || (a == 0xE2 && b == 0x81 && c == 0x9F)
    || (a == 0xE3 && b == 0x80 && c == 0x80)
    || (a == 0xEF && b == 0xBB && c == 0xBF)
  }

  /** Where `s` starts once leading white space is trimmed from position `i` on. */
  function TrimStart(s: Bytes, i: nat): (k: nat)
    requires i <= |s|
    ensures i <= k <= |s|
    decreases |s| - i
  {
    if SpaceLength(s, i, |s|) == 0 then i else TrimStart(s, i + SpaceLength(s, i, |s|))
  }

  /** Where `s[i..]` ends once trailing white space is trimmed back from position `j`. */
  function TrimEnd(s: Bytes, i: nat, j: nat): (k: nat)
    requires i <= j <= |s|
    ensures i <= k <= j
    decreases j
  {
    if i + 1 <= j && SpaceLength(s, j - 1, j) == 1 then TrimEnd(s, i, j - 1)
    else if i + 2 <= j && SpaceLength(s, j - 2, j) == 2 then TrimEnd(s, i, j - 2)
    else if i + 3 <= j && SpaceLength(s, j - 3, j) == 3 then TrimEnd(s, i, j - 3)
    else j
  }

  function Trim(s: Bytes): Bytes {
    var i := TrimStart(s, 0);
    s[i..TrimEnd(s, i, |s|)]
  }

  predicate IsOctal(b: Byte) {
    48 <= b <= 55
  }

  predicate AllOctal(s: Bytes) {
    forall i :: 0 <= i < |s| ==> IsOctal(s[i])
  }

  function Digit(b: Byte): nat {
    if IsOctal(b) then b - ZERO_DIGIT else 0
  }

  /** The value of the first `n` octal digits of `s`. */
  function Octal(s: Bytes, n: nat): nat
    requires n <= |s|
  {
    if n == 0 then 0 else 8 * Octal(s, n - 1) + Digit(s[n - 1])
  }

  function TarNumber(block: Bytes, offset: nat, length: nat): Result<nat, Error>
    requires offset + length <= |block|
  {
    var value := Trim(TarString(block, offset, length));
    if AllOctal(value) then Ok(Octal(value, |value|)) else Err(InvalidNumber)
  }

  // --- Paths ---------------------------------------------------------------------------------

  predicate IsLetter(b: Byte) {
    65 <= b <= 90 || 97 <= b <= 122
  }

  function Upper(b: Byte): Byte {
    if 97 <= b <= 122 then b - 32 else b
  }

  /** The parts of a path between its slashes. */
  function Parts(path: Bytes): (parts: seq<Bytes>)
    ensures |parts| >= 1
  {
    if path == [] then [[]]
    else
      var rest := Parts(path[1..]);
      if path[0] == SLASH then [[]] + rest else [[path[0]] + rest[0]] + rest[1..]
  }

  /** CON, PRN, AUX or NUL. */
  predicate PlainDevice(a: Byte, b: Byte, c: Byte) {
    || (a == 67 && b == 79 && c == 78)
    || (a == 80 && b == 82 && c == 78)
    || (a == 65 && b == 85 && c == 88)
    || (a == 78 && b == 85 && c == 76)
  }

  /** COM or LPT, which a digit from 1 to 9 completes. */
  predicate NumberedDevice(a: Byte, b: Byte, c: Byte) {
    (a == 67 && b == 79 && c == 77) || (a == 76 && b == 80 && c == 84)
  }

  /** A device name of Windows in any case, alone or before a dot. */
  predicate DeviceName(part: Bytes) {
    && |part| >= 3
    && var (a, b, c) := (Upper(part[0]), Upper(part[1]), Upper(part[2]));
    || (PlainDevice(a, b, c) && (|part| == 3 || part[3] == 46))
    || (NumberedDevice(a, b, c) && |part| >= 4 && 49 <= part[3] <= 57 && (|part| == 4 || part[4] == 46))
  }

  /** One of the characters `<>:"|?*`. */
  predicate Forbidden(b: Byte) {
    b == 60 || b == 62 || b == 58 || b == 34 || b == 124 || b == 63 || b == 42
  }

  predicate SafePart(part: Bytes) {
    && part != [] && part != [46] && part != [46, 46]
    && (forall i :: 0 <= i < |part| ==> !Forbidden(part[i]))
    && part[|part| - 1] != 46 && part[|part| - 1] != 32
    && !DeviceName(part)
  }

  /** The bytes of `package/`. */
  const PACKAGE: Bytes := [112, 97, 99, 107, 97, 103, 101, 47]

  predicate SafePath(path: Bytes) {
    && path != []
    && (forall i :: 0 <= i < |path| ==> path[i] != 92 && path[i] != 0)
    && path[0] != SLASH
    && !(|path| >= 2 && IsLetter(path[0]) && path[1] == 58)
    && PACKAGE <= path
    && (forall i :: 0 <= i < |Parts(path)| ==> SafePart(Parts(path)[i]))
  }

  // --- The parser ----------------------------------------------------------------------------

  function Sum(s: Bytes, lo: nat, hi: nat): nat
    requires lo <= hi <= |s|
  {
    if lo == hi then 0 else Sum(s, lo, hi - 1) + s[hi - 1]
  }

  /** The byte sum of a header whose checksum field is read as eight spaces. */
  function Checksum(header: Bytes): nat
    requires |header| == BLOCK
  {
    Sum(header, 0, 148) + 8 * 32 + Sum(header, 156, BLOCK)
  }

  predicate AllZero(s: Bytes) {
    forall i :: 0 <= i < |s| ==> s[i] == 0
  }

  datatype Header = Header(path: Bytes, size: nat, kind: Bytes)

  function DecodeHeader(header: Bytes): Result<Header, Error>
    requires |header| == BLOCK
  {
    var stored := TarNumber(header, 148, 8);
    if stored.Err? then Err(stored.error)
    else if Checksum(header) != stored.value then Err(InvalidChecksum)
    else
      var name := TarString(header, 0, 100);
      var prefix := TarString(header, 345, 155);
      var path := if prefix != [] then prefix + [SLASH] + name else name;
      if !SafePath(path) then Err(UnsafePath)
      else
        var size := TarNumber(header, 124, 12);
        if size.Err? then Err(size.error) else Ok(Header(path, size.value, TarString(header, 156, 1)))
  }

  function Padded(size: nat): (n: nat)
    ensures size <= n < size + BLOCK && n % BLOCK == 0
  {
    (size + BLOCK - 1) / BLOCK * BLOCK
  }

  type Files = map<Bytes, Bytes>

  /** What is left to do from `offset` on, with the files found so far. */
  function ParseFrom(tar: Bytes, offset: nat, files: Files): Result<Files, Error>
    decreases |tar| - offset
  {
    if offset + BLOCK > |tar| then Err(Incomplete)
    else
      var header := tar[offset..offset + BLOCK];
      if AllZero(header) then if files == map[] then Err(Incomplete) else Ok(files)
      else
        var h := DecodeHeader(header);
        if h.Err? then Err(h.error)
        else
          var start := offset + BLOCK;
          var end := start + h.value.size;
          if h.value.size > MAX_SAFE_INTEGER || end > |tar| then Err(Truncated)
          else if h.value.kind == [] || h.value.kind == [ZERO_DIGIT] then
            if h.value.path in files then Err(Duplicate)
            else ParseFrom(tar, start + Padded(h.value.size), files[h.value.path := tar[start..end]])
          else if h.value.kind != [53] then Err(Unsupported)
          else ParseFrom(tar, start + Padded(h.value.size), files)
  }

  function Parse(tar: Bytes): Result<Files, Error> {
    ParseFrom(tar, 0, map[])
  }

  method ComputeChecksum(header: Bytes) returns (checksum: nat)
    requires |header| == BLOCK
    ensures checksum == Checksum(header)
  {
    checksum := 0;
    for i := 0 to BLOCK
      invariant checksum == if i <= 148 then Sum(header, 0, i)
                            else if i <= 156 then Sum(header, 0, 148) + 32 * (i - 148)
                            else Sum(header, 0, 148) + 8 * 32 + Sum(header, 156, i)
    {
      checksum := checksum + if 148 <= i < 156 then 32 else header[i];
    }
  }

  method ReadHeader(header: Bytes) returns (r: Result<Header, Error>)
    requires |header| == BLOCK
    ensures r == DecodeHeader(header)
  {
    var stored := TarNumber(header, 148, 8);
    if stored.Err? {
      return Err(stored.error);
    }
    var checksum := ComputeChecksum(header);
    if checksum != stored.value {
      return Err(InvalidChecksum);
    }
    var name := TarString(header, 0, 100);
    var prefix := TarString(header, 345, 155);
    var path := if prefix != [] then prefix + [SLASH] + name else name;
    if !SafePath(path) {
      return Err(UnsafePath);
    }
    var size := TarNumber(header, 124, 12);
    if size.Err? {
      return Err(size.error);
    }
    r := Ok(Header(path, size.value, TarString(header, 156, 1)));
  }

  /** `parseTarballEntries`: the loop over the blocks computes `Parse`. */
  method ParseTarballEntries(tar: Bytes) returns (r: Result<Files, Error>)
    ensures r == Parse(tar)
  {
    hide DecodeHeader;
    var files: Files := map[];
    var offset := 0;
    var ended := false;
    while offset + BLOCK <= |tar|
      invariant !ended && ParseFrom(tar, offset, files) == Parse(tar)
      decreases |tar| - offset
    {
      var header := tar[offset..offset + BLOCK];
      if AllZero(header) {
        ended := true;
        break;
      }
      var h := ReadHeader(header);
      if h.Err? {
        return Err(h.error);
      }
      var Header(path, size, kind) := h.value;
      var start := offset + BLOCK;
      var end := start + size;
      if size > MAX_SAFE_INTEGER || end > |tar| {
        return Err(Truncated);
      }
      if kind == [] || kind == [ZERO_DIGIT] {
        if path in files {
          return Err(Duplicate);
        }
        files := files[path := tar[start..end]];
      } else if kind != [53] {
        return Err(Unsupported);
      }
      offset := start + Padded(size);
    }
    if !ended || files == map[] {
      return Err(Incomplete);
    }
    r := Ok(files);
  }
}
