/**
 Which paths the release-tarball reader takes, said of the bytes of the whole path: what may not stand
 where. `Tar.SafePath` looks at the parts between slashes one by one.
 */
module TarPaths {
  import opened Prelude
  import opened Tar

  /** `path[a..b]` is what stands between two slashes, or between one and an end of the path. */
  predicate IsPart(path: Bytes, a: int, b: int) {
    && 0 <= a <= b <= |path|
    && (a == 0 || path[a - 1] == SLASH) && (b == |path| || path[b] == SLASH)
    && forall i :: a <= i < b ==> path[i] != SLASH
  }

  /** The parts are what stands between slashes. */
  lemma {:induction false} PartsExactly(path: Bytes, part: Bytes)
    ensures part in Parts(path) <==> exists a, b :: IsPart(path, a, b) && path[a..b] == part
    ensures exists b :: IsPart(path, 0, b) && path[..b] == Parts(path)[0]
    ensures part in Parts(path)[1..] <==> exists a, b :: a > 0 && IsPart(path, a, b) && path[a..b] == part
    decreases |path|
  {
    if path == [] {
      assert IsPart(path, 0, 0) && path[0..0] == [];
    } else {
      var rest := path[1..];
      PartsExactly(rest, part);
      var first :| IsPart(rest, 0, first) && rest[..first] == Parts(rest)[0];
      if path[0] == SLASH {
        assert IsPart(path, 0, 0) && path[..0] == [];
        FirstPart(path, 0, 0);
        LaterParts(path, part);
        assert Parts(path) == [[]] + Parts(rest) && Parts(path)[1..] == Parts(rest);
      } else {
        assert IsPart(path, 0, first + 1) && path[..first + 1] == [path[0]] + rest[..first];
        LaterParts(path, part);
        assert Parts(path)[1..] == Parts(rest)[1..];
      }
      PartsSplit(path, part);
    }
  }

  lemma PartsSplit(path: Bytes, part: Bytes)
    ensures part in Parts(path) <==> part == Parts(path)[0] || part in Parts(path)[1..]
  {
    var ps := Parts(path);
    assert ps == [ps[0]] + ps[1..];
  }

  /** Only one part begins at a place. */
  lemma FirstPart(path: Bytes, b: int, c: int)
    requires IsPart(path, 0, b) && IsPart(path, 0, c)
    ensures b == c
  {}

  /** A later part of the path is a part of the rest, later or right after a slash. */
  lemma LaterParts(path: Bytes, part: Bytes)
    requires path != []
    ensures (exists a, b :: a > 0 && IsPart(path, a, b) && path[a..b] == part) <==>
      exists a, b :: (a > 0 || path[0] == SLASH) && IsPart(path[1..], a, b) && path[1..][a..b] == part
  {
    var rest := path[1..];
    forall a, b | a > 0 && IsPart(path, a, b) && path[a..b] == part
      ensures (a - 1 > 0 || path[0] == SLASH) && IsPart(rest, a - 1, b - 1) && rest[a - 1..b - 1] == part
    {}
    forall a, b | (a > 0 || path[0] == SLASH) && IsPart(rest, a, b) && rest[a..b] == part
      ensures a + 1 > 0 && IsPart(path, a + 1, b + 1) && path[a + 1..b + 1] == part
    {}
  }

  // ---------------------------------------------------------- the whole path

  predicate BeginsAt(path: Bytes, i: int) {
    0 <= i <= |path| && (i == 0 || path[i - 1] == SLASH)
  }

  predicate EndsAt(path: Bytes, i: int) {
    0 <= i <= |path| && (i == |path| || path[i] == SLASH)
  }

  predicate Among(b: Byte, chars: string) {
    exists i :: 0 <= i < |chars| && chars[i] as int == b
  }

  const DEVICES := ["CON", "PRN", "AUX", "NUL",
                    "COM1", "COM2", "COM3", "COM4", "COM5", "COM6", "COM7", "COM8", "COM9",
                    "LPT1", "LPT2", "LPT3", "LPT4", "LPT5", "LPT6", "LPT7", "LPT8", "LPT9"]

  /** The word is that text, in upper or lower case. */
  predicate SameText(word: Bytes, text: string) {
    |word| == |text| && forall i :: 0 <= i < |word| ==> Upper(word[i]) == text[i] as int
  }

  predicate IsDevice(word: Bytes) {
    exists k :: 0 <= k < |DEVICES| && SameText(word, DEVICES[k])
  }

  /**
   The path begins with `package/`; none of its characters is NUL, a backslash or reserved on Windows;
   no two of its slashes are neighbours and none is last; no dot or space stands before a slash or at
   the end; and no device name stands between a slash and a dot, a slash or the end.
   */
  ghost predicate CleanPath(path: Bytes) {
    && |path| >= 8 && (forall i :: 0 <= i < 8 ==> path[i] == "package/"[i] as int)
    && (forall i :: 0 <= i < |path| ==> path[i] != 0 && !Among(path[i], "\\<>:\"|?*"))
    && (forall i :: BeginsAt(path, i) ==> !EndsAt(path, i))
    && (forall i :: 0 < i && EndsAt(path, i) ==> !Among(path[i - 1], ". "))
    && (forall i, j :: BeginsAt(path, i) && i <= j && (EndsAt(path, j) || DotAt(path, j)) ==> !IsDevice(path[i..j]))
  }

  predicate DotAt(path: Bytes, j: int) {
    0 <= j < |path| && path[j] == 46
  }

  lemma AmongForbidden(b: Byte)
    ensures Among(b, "\\<>:\"|?*") <==> b == 92 || Forbidden(b)
    ensures Among(b, ". ") <==> b == 46 || b == 32
  {
    var chars, dots := "\\<>:\"|?*", ". ";
    assert |chars| == 8 && chars[0] == '\\' && chars[1] == '<' && chars[2] == '>' && chars[3] == ':'
      && chars[4] == '"' && chars[5] == '|' && chars[6] == '?' && chars[7] == '*';
    assert |dots| == 2 && dots[0] == '.' && dots[1] == ' ';
  }

  /** A part is refused as a device name exactly if one of the names stands before its end or a dot. */
  lemma DeviceExactly(part: Bytes)
    ensures DeviceName(part) <==>
      exists j :: 0 <= j <= |part| && (j == |part| || part[j] == 46) && IsDevice(part[..j])
  {
    if DeviceName(part) {
      var j := if PlainDevice(Upper(part[0]), Upper(part[1]), Upper(part[2])) && (|part| == 3 || part[3] == 46) then 3 else 4;
      DeviceWord(part[..j]);
      assert IsDevice(part[..j]);
    }
    forall j | 0 <= j <= |part| && (j == |part| || part[j] == 46) && IsDevice(part[..j]) ensures DeviceName(part) {
      DeviceWord(part[..j]);
    }
  }

  /** The names, letter by letter. */
  lemma DeviceWord(word: Bytes)
    ensures IsDevice(word) <==>
      && 3 <= |word| <= 4
      && var (a, b, c) := (Upper(word[0]), Upper(word[1]), Upper(word[2]));
      if |word| == 3 then PlainDevice(a, b, c) else NumberedDevice(a, b, c) && 49 <= word[3] <= 57
  {
    if 3 <= |word| <= 4 {
      var (a, b, c) := (Upper(word[0]), Upper(word[1]), Upper(word[2]));
      if |word| == 3 && PlainDevice(a, b, c) {
        var k := if a == 67 then 0 else if a == 80 then 1 else if a == 65 then 2 else 3;
        assert SameText(word, DEVICES[k]);
      } else if |word| == 4 && NumberedDevice(a, b, c) && 49 <= word[3] <= 57 {
        var k := (if a == 67 then 4 else 13) + (word[3] - 49);
        assert |DEVICES[k]| == 4 && DEVICES[k][3] as int == word[3];
        assert SameText(word, DEVICES[k]);
      }
    }
  }

  ghost predicate PartsSafe(path: Bytes) {
    forall a, b :: IsPart(path, a, b) ==> SafePart(path[a..b])
  }

  lemma PartsSafeExactly(path: Bytes)
    ensures (forall i :: 0 <= i < |Parts(path)| ==> SafePart(Parts(path)[i])) <==> PartsSafe(path)
  {
    hide SafePart, Parts;
    if forall i :: 0 <= i < |Parts(path)| ==> SafePart(Parts(path)[i]) {
      forall a, b | IsPart(path, a, b) ensures SafePart(path[a..b]) {
        PartsExactly(path, path[a..b]);
      }
    }
    if PartsSafe(path) {
      forall i | 0 <= i < |Parts(path)| ensures SafePart(Parts(path)[i]) {
        PartsExactly(path, Parts(path)[i]);
      }
    }
  }

  /** The part that begins at a place. */
  lemma {:induction false} PartFrom(path: Bytes, a: nat, from: nat) returns (b: nat)
    requires a <= from <= |path| && BeginsAt(path, a) && forall i :: a <= i < from ==> path[i] != SLASH
    ensures IsPart(path, a, b) && from <= b
    decreases |path| - from
  {
    if from == |path| || path[from] == SLASH {
      b := from;
    } else {
      b := PartFrom(path, a, from + 1);
    }
  }

  /** The part that a place is in, or ends. */
  lemma {:induction false} PartAround(path: Bytes, i: nat, from: nat) returns (a: nat, b: nat)
    requires from <= i <= |path| && forall k :: from <= k < i ==> path[k] != SLASH
    ensures IsPart(path, a, b) && a <= from && i <= b && (EndsAt(path, i) ==> b == i)
    decreases from
  {
    if BeginsAt(path, from) {
      a := from;
      b := PartFrom(path, a, i);
    } else {
      a, b := PartAround(path, i, from - 1);
    }
  }

  lemma SafeMeansClean(path: Bytes)
    requires PartsSafe(path) && PACKAGE <= path && forall i :: 0 <= i < |path| ==> path[i] != 92 && path[i] != 0
    ensures CleanPath(path)
  {
    forall i | 0 <= i < |path| ensures path[i] != 0 && !Among(path[i], "\\<>:\"|?*") {
      AmongForbidden(path[i]);
      if path[i] != SLASH {
        var a, b := PartAround(path, i, i);
        assert path[a..b][i - a] == path[i];
      }
    }
    forall i | BeginsAt(path, i) ensures !EndsAt(path, i) {
      assert path[i..i] == [] && !SafePart(path[i..i]);
      assert EndsAt(path, i) ==> IsPart(path, i, i);
    }
    forall i | 0 < i && EndsAt(path, i) ensures !Among(path[i - 1], ". ") {
      AmongForbidden(path[i - 1]);
      var a, b := PartAround(path, i, i);
      assert path[a..b] != [];
      assert path[a..b][b - a - 1] == path[i - 1];
    }
    forall i, j | BeginsAt(path, i) && i <= j && (EndsAt(path, j) || DotAt(path, j)) ensures !IsDevice(path[i..j]) {
      NoDeviceAt(path, i, j);
    }
    PackageText(path);
  }

  lemma PackageText(path: Bytes)
    ensures PACKAGE <= path <==> |path| >= 8 && forall i :: 0 <= i < 8 ==> path[i] == "package/"[i] as int
  {
    var text := "package/";
    assert text[0] == 'p' && text[1] == 'a' && text[2] == 'c' && text[3] == 'k'
      && text[4] == 'a' && text[5] == 'g' && text[6] == 'e' && text[7] == '/';
    assert forall i :: 0 <= i < 8 ==> text[i] as int == PACKAGE[i];
    if |path| >= 8 && forall i :: 0 <= i < 8 ==> path[i] == text[i] as int {
      assert path[..8] == PACKAGE;
    }
  }

  lemma NoDeviceAt(path: Bytes, i: int, j: int)
    requires PartsSafe(path) && BeginsAt(path, i) && i <= j && (EndsAt(path, j) || DotAt(path, j))
    ensures !IsDevice(path[i..j])
  {
    var b := PartFrom(path, i, i);
    if j <= b {
      DeviceExactly(path[i..b]);
      assert path[i..b][..j - i] == path[i..j];
      assert j < b ==> path[i..b][j - i] == path[j];
    } else {
      assert path[i..j][b - i] == SLASH;
      NoSlashInDevice(path[i..j], b - i);
    }
  }

  lemma NoSlashInDevice(word: Bytes, k: nat)
    requires k < |word| && word[k] == SLASH
    ensures !IsDevice(word)
  {
    DeviceWord(word);
  }

  lemma CleanMeansSafe(path: Bytes)
    requires CleanPath(path)
    ensures PartsSafe(path)
  {
    hide CleanPath, SafePart;
    forall a, b | IsPart(path, a, b) ensures SafePart(path[a..b]) {
      CleanPart(path, a, b);
      NoDeviceIn(path, a, b);
      CleanIsSafe(path[a..b]);
    }
  }

  lemma CleanIsSafe(part: Bytes)
    requires part != [] && part[|part| - 1] != 46 && part[|part| - 1] != 32 && !DeviceName(part)
    requires forall i :: 0 <= i < |part| ==> !Forbidden(part[i])
    ensures SafePart(part)
  {
    hide DeviceName, Forbidden;
  }

  lemma CleanPart(path: Bytes, a: int, b: int)
    requires CleanPath(path) && IsPart(path, a, b)
    ensures a < b && path[b - 1] != 46 && path[b - 1] != 32
    ensures forall i :: 0 <= i < b - a ==> !Forbidden(path[a..b][i])
  {
    hide IsDevice, Among, Forbidden;
    assert BeginsAt(path, a) && EndsAt(path, b);
    AmongForbidden(path[b - 1]);
    forall i | 0 <= i < b - a ensures !Forbidden(path[a..b][i]) {
      AmongForbidden(path[a + i]);
    }
  }

  lemma NoDeviceIn(path: Bytes, a: int, b: int)
    requires CleanPath(path) && IsPart(path, a, b)
    ensures !DeviceName(path[a..b])
  {
    hide IsDevice, Among, DeviceName;
    var part := path[a..b];
    assert BeginsAt(path, a) && EndsAt(path, b);
    DeviceExactly(part);
    forall j | 0 <= j <= |part| && (j == |part| || part[j] == 46) ensures !IsDevice(part[..j]) {
      assert part[..j] == path[a..a + j];
      assert j < |part| ==> DotAt(path, a + j);
    }
  }

  /** The parts between slashes are all safe exactly if the path as a whole is clean. */
  lemma SafePathExactly(path: Bytes)
    ensures SafePath(path) <==> CleanPath(path)
  {
    PartsSafeExactly(path);
    hide SafePart, Parts, PartsSafe, Among, IsDevice;
    if SafePath(path) {
      SafeMeansClean(path);
      assert CleanPath(path);
    }
    if CleanPath(path) {
      CleanMeansSafe(path);
      forall i | 0 <= i < |path| ensures path[i] != 92 && path[i] != 0 {
        AmongForbidden(path[i]);
      }
      PackageText(path);
      assert path[..8] == PACKAGE && path[0] == 112 && path[1] == 97;
      assert PACKAGE <= path;
      assert forall i :: 0 <= i < |Parts(path)| ==> SafePart(Parts(path)[i]);
      assert forall i :: 0 <= i < |path| ==> path[i] != 92 && path[i] != 0;
      assert SafePath(path);
    }
  }
}
