/** File-name and path helpers of liblava/file/file_utils.cpp: the
    case-insensitive extension test and the removal of a sub-path from a
    path string. Strings are sequences of characters; `::tolower` is the
    C-locale rule that folds only the ASCII letters A-Z. */
module FileUtils {
  import opened Wrappers

  /** `size_t` is 64 bits wide: arithmetic on it wraps modulo SIZE_T_RANGE. */
  const SIZE_T_RANGE: int := 0x1_0000_0000_0000_0000
  /** `std::string::npos`, the largest `size_t`. */
  const NPOS: int := SIZE_T_RANGE - 1

  // ---------------------------------------------------------------------
  // Case folding
  // ---------------------------------------------------------------------

  predicate IsAsciiUpper(c: char) {
    'A' <= c <= 'Z'
  }

  predicate IsAsciiLower(c: char) {
    'a' <= c <= 'z'
  }

  /** `::tolower` in the C locale. */
  function ToLowerChar(c: char): (r: char)
    ensures IsAsciiUpper(c) ==> IsAsciiLower(r) && r as int == c as int + 32
    ensures !IsAsciiUpper(c) ==> r == c
  {
    if IsAsciiUpper(c) then (c as int + 32) as char else c
  }

  /** `::toupper` in the C locale, used only to state case insensitivity. */
  function ToUpperChar(c: char): (r: char)
    ensures IsAsciiLower(c) ==> IsAsciiUpper(r) && r as int == c as int - 32
    ensures !IsAsciiLower(c) ==> r == c
  {
    if IsAsciiLower(c) then (c as int - 32) as char else c
  }

  /** `std::transform(s.begin(), s.end(), s.begin(), ::tolower)`. */
  function ToLower(s: string): (r: string)
    ensures |r| == |s|
    ensures forall i :: 0 <= i < |s| ==> r[i] == ToLowerChar(s[i])
  {
    seq(|s|, i requires 0 <= i < |s| => ToLowerChar(s[i]))
  }

  function ToUpper(s: string): (r: string)
    ensures |r| == |s|
    ensures forall i :: 0 <= i < |s| ==> r[i] == ToUpperChar(s[i])
  {
    seq(|s|, i requires 0 <= i < |s| => ToUpperChar(s[i]))
  }

  /** Two strings that differ at most in the case of ASCII letters. */
  predicate SameUpToCase(a: string, b: string) {
    ToLower(a) == ToLower(b)
  }

  // ---------------------------------------------------------------------
  // extension(name, name)
  // ---------------------------------------------------------------------

  /** `s.find_last_of(c)`: the position of the last `c`, None for npos. */
  function FindLastOf(s: string, c: char): (r: Option<nat>)
    ensures r.None? <==> c !in s
    ensures r.Some? ==> r.value < |s| && s[r.value] == c && c !in s[r.value + 1..]
  {
    if |s| == 0 then None
    else if s[|s| - 1] == c then Some(|s| - 1)
    else
      var r := FindLastOf(s[..|s| - 1], c);
      assert s[..|s| - 1] + [s[|s| - 1]] == s;
      if r.Some? then
        assert s[r.value + 1..] == s[..|s| - 1][r.value + 1..] + [s[|s| - 1]];
        r
      else r
  }

  /** `fn.find_last_of('.') + 1` in `size_t` arithmetic: npos + 1 wraps to 0,
      so a name without a dot is compared as a whole. */
  function ExtensionStart(fileName: string): (start: nat)
    ensures start <= |fileName|
    ensures '.' !in fileName ==> start == 0
    ensures '.' in fileName ==> 0 < start && fileName[start - 1] == '.' && '.' !in fileName[start..]
  {
    match FindLastOf(fileName, '.')
    case None => (NPOS + 1) % SIZE_T_RANGE
    case Some(p) => p + 1
  }

  /** `extension(file_name, extension)`: the text after the last dot of the
      file name equals the extension, both lower-cased. */
  function Extension(fileName: string, ext: string): bool {
    ToLower(fileName[ExtensionStart(fileName)..]) == ToLower(ext)
  }

  lemma FindLastOfSplit(prefix: string, suffix: string)
    requires '.' !in suffix
    ensures FindLastOf(prefix + ['.'] + suffix, '.') == Some(|prefix|)
  {
    var s := prefix + ['.'] + suffix;
    assert s[|prefix|] == '.';
  }

  /** The extension is exactly what follows the last dot: whatever comes
      before it never matters. */
  lemma {:induction false} ExtensionAfterLastDot(prefix: string, suffix: string, ext: string)
    requires '.' !in suffix
    ensures Extension(prefix + ['.'] + suffix, ext) <==> SameUpToCase(suffix, ext)
  {
    FindLastOfSplit(prefix, suffix);
    assert (prefix + ['.'] + suffix)[|prefix| + 1..] == suffix;
  }

  /** A name without a dot is compared whole. */
  lemma {:induction false} ExtensionWithoutDot(fileName: string, ext: string)
    requires '.' !in fileName
    ensures Extension(fileName, ext) <==> SameUpToCase(fileName, ext)
  {
    assert fileName[ExtensionStart(fileName)..] == fileName;
  }

  lemma ExtensionIgnoresPrefix(prefix1: string, prefix2: string, suffix: string, ext: string)
    requires '.' !in suffix
    ensures Extension(prefix1 + ['.'] + suffix, ext) == Extension(prefix2 + ['.'] + suffix, ext)
  {
    ExtensionAfterLastDot(prefix1, suffix, ext);
    ExtensionAfterLastDot(prefix2, suffix, ext);
  }

  lemma ToLowerCharIsDot(c: char)
    ensures ToLowerChar(c) == '.' <==> c == '.'
  {
  }

  /** Names that agree up to case have their last dot in the same place. */
  lemma {:induction false} FindLastDotUpToCase(a: string, b: string)
    requires SameUpToCase(a, b)
    ensures FindLastOf(a, '.') == FindLastOf(b, '.')
    decreases |a|
  {
    if |a| > 0 {
      assert ToLowerChar(a[|a| - 1]) == ToLowerChar(b[|a| - 1]);
      ToLowerCharIsDot(a[|a| - 1]);
      ToLowerCharIsDot(b[|a| - 1]);
      var a', b' := a[..|a| - 1], b[..|a| - 1];
      assert ToLower(a') == ToLower(b') by {
        forall i | 0 <= i < |a'| ensures ToLower(a')[i] == ToLower(b')[i] {
          assert ToLowerChar(a[i]) == ToLower(a)[i];
        }
      }
      FindLastDotUpToCase(a', b');
    }
  }

  /** `extension` is case-insensitive in both arguments. */
  lemma {:induction false} ExtensionCaseInsensitive(f1: string, f2: string, e1: string, e2: string)
    requires SameUpToCase(f1, f2) && SameUpToCase(e1, e2)
    ensures Extension(f1, e1) == Extension(f2, e2)
  {
    FindLastDotUpToCase(f1, f2);
    var k := ExtensionStart(f1);
    assert k == ExtensionStart(f2);
    assert ToLower(f1[k..]) == ToLower(f2[k..]) by {
      forall i | 0 <= i < |f1| - k ensures ToLower(f1[k..])[i] == ToLower(f2[k..])[i] {
        assert ToLower(f1)[k + i] == ToLower(f2)[k + i];
      }
    }
  }

  lemma {:induction false} ToUpperSameUpToCase(s: string)
    ensures SameUpToCase(ToUpper(s), s)
  {
    forall i | 0 <= i < |s| ensures ToLower(ToUpper(s))[i] == ToLower(s)[i] {
      assert ToLowerChar(ToUpperChar(s[i])) == ToLowerChar(s[i]);
    }
  }

  /** Upper-casing the file name or the extension does not change the answer. */
  lemma ExtensionOfUpperCase(fileName: string, ext: string)
    ensures Extension(ToUpper(fileName), ToUpper(ext)) == Extension(fileName, ext)
  {
    ToUpperSameUpToCase(fileName);
    ToUpperSameUpToCase(ext);
    ExtensionCaseInsensitive(ToUpper(fileName), fileName, ToUpper(ext), ext);
  }

  /** Only ASCII letters are folded: an extension that differs from the
      file's in a character outside ASCII, say `Ä` against `ä`, never
      matches, whatever the case of the other characters. */
  lemma {:induction false} ExtensionFoldsOnlyAscii(prefix: string, suffix: string, ext: string, i: nat)
    requires '.' !in suffix
    requires i < |suffix| && i < |ext| && suffix[i] != ext[i]
    requires suffix[i] as int > 0x7f || ext[i] as int > 0x7f
    ensures !Extension(prefix + ['.'] + suffix, ext)
  {
    ExtensionAfterLastDot(prefix, suffix, ext);
    assert ToLower(suffix)[i] != ToLower(ext)[i];
  }

  // ---------------------------------------------------------------------
  // extension(name, names)
  // ---------------------------------------------------------------------

  /** `extension(filename, extensions)`: true as soon as one listed extension
      matches, false for an empty list. */
  method ExtensionAny(fileName: string, extensions: seq<string>) returns (r: bool)
    ensures r <==> exists i :: 0 <= i < |extensions| && Extension(fileName, extensions[i])
    ensures extensions == [] ==> !r
  {
    for i := 0 to |extensions|
      invariant forall k :: 0 <= k < i ==> !Extension(fileName, extensions[k])
    {
      if Extension(fileName, extensions[i]) {
        return true;
      }
    }
    return false;
  }

  // ---------------------------------------------------------------------
  // remove_existing_path
  // ---------------------------------------------------------------------

  predicate OccursAt(s: string, sub: string, p: nat) {
    p + |sub| <= |s| && s[p..p + |sub|] == sub
  }

  predicate IsFirstOccurrence(s: string, sub: string, p: nat) {
    OccursAt(s, sub, p) && forall q :: 0 <= q < p ==> !OccursAt(s, sub, q)
  }

  /** `s.find(sub, from)`: the first position at or after `from` where `sub`
      occurs, None for npos. */
  function FindFrom(s: string, sub: string, from: nat): (r: Option<nat>)
    ensures r.Some? ==> from <= r.value && OccursAt(s, sub, r.value)
    ensures r.Some? ==> forall q :: from <= q < r.value ==> !OccursAt(s, sub, q)
    ensures r.None? ==> forall q: nat :: from <= q ==> !OccursAt(s, sub, q)
    decreases |s| - from
  {
    if from + |sub| > |s| then None
    else if s[from..from + |sub|] == sub then Some(from)
    else FindFrom(s, sub, from + 1)
  }

  /** `std::replace(s.begin(), s.end(), from, to)`. */
  function ReplaceChar(s: string, from: char, to: char): (r: string)
    ensures |r| == |s|
    ensures forall i :: 0 <= i < |s| ==> r[i] == (if s[i] == from then to else s[i])
  {
    seq(|s|, i requires 0 <= i < |s| => if s[i] == from then to else s[i])
  }

  /** What is left of the target after the erase: on Windows every backslash
      is also turned into a slash. */
  function AfterErase(target: string, pos: nat, len: nat, onWindows: bool): string
    requires pos + len <= |target|
  {
    var erased := target[..pos] + target[pos + len..];
    if onWindows then ReplaceChar(erased, '\\', '/') else erased
  }

  /** `remove_existing_path(target, path)`: `target` is passed by reference,
      so its new value is returned beside the result. `onWindows` stands for
      the `_WIN32` build. */
  method RemoveExistingPath(target: string, path: string, onWindows: bool)
    returns (found: bool, newTarget: string)
    ensures found <==> exists p: nat :: OccursAt(target, path, p)
    ensures !found ==> newTarget == target
    ensures found ==> exists p: nat :: IsFirstOccurrence(target, path, p)
                                      && newTarget == AfterErase(target, p, |path|, onWindows)
    ensures found ==> |newTarget| == |target| - |path|
    ensures path == [] ==> found && (!onWindows ==> newTarget == target)
  {
    var pos := FindFrom(target, path, 0);
    if pos.Some? {
      var p := pos.value;
      newTarget := target[..p] + target[p + |path|..];
      if onWindows {
        newTarget := ReplaceChar(newTarget, '\\', '/');
      }
      assert IsFirstOccurrence(target, path, p);
      if path == [] {
        assert p == 0 by { assert OccursAt(target, path, 0); }
        assert target[..0] + target[0..] == target;
      }
      return true, newTarget;
    }
    return false, target;
  }
}
