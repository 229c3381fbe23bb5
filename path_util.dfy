/**
 * The path and string helpers of util/util.cpp: extension, basename and base
 * path split at the last '.' or '/', and a prefix test built on strncmp.
 */
module PathUtil {
  import opened Wrappers

  /** `s.find_last_of(c)`: None plays the part of `std::string::npos`. */
  function FindLast(s: string, c: char): (r: Option<nat>)
    ensures r.None? <==> c !in s
    ensures r.Some? ==> r.value < |s| && s[r.value] == c && c !in s[r.value + 1..]
  {
    if |s| == 0 then None
    else if s[|s| - 1] == c then Some(|s| - 1)
    else
      var r := FindLast(s[..|s| - 1], c);
      assert r.Some? ==> s[r.value + 1..] == s[..|s| - 1][r.value + 1..] + [s[|s| - 1]];
      r
  }

  /** `get_file_extension`: everything after the last '.', or "" when there is none. */
  function FileExtension(fname: string): (ext: string)
    ensures '.' !in fname ==> ext == ""
    ensures '.' !in ext
    ensures '.' in fname ==>
      |ext| < |fname| && fname == fname[..|fname| - |ext| - 1] + "." + ext
  {
    match FindLast(fname, '.')
    case None => ""
    case Some(k) =>
      assert fname == fname[..k] + "." + fname[k + 1..];
      fname[k + 1..]
  }

  /** `get_file_basename`: everything after the last '/', or the whole path when there is none. */
  function FileBasename(path: string): (name: string)
    ensures '/' !in path ==> name == path
    ensures '/' !in name
    ensures |name| <= |path| && path[|path| - |name|..] == name
  {
    match FindLast(path, '/')
    case None => path
    case Some(k) => path[k + 1..]
  }

  /**
   * `get_file_basepath`: everything before the last '/'. With no '/' the whole
   * path comes back, not "."; the caller (main.cpp) compares against the input
   * to detect that case.
   */
  function FileBasepath(path: string): (base: string)
    ensures '/' !in path ==> base == path
    ensures '/' in path ==> |base| < |path| && path[..|base|] == base && path[|base|] == '/'
    ensures '/' in path ==> '/' !in path[|base| + 1..]
  {
    match FindLast(path, '/')
    case None => path
    case Some(k) => path[..k]
  }

  /** Round trip: for a path with a '/', base path, '/' and basename spell the path again. */
  lemma BasepathBasenameRoundTrip(path: string)
    requires '/' in path
    ensures FileBasepath(path) + "/" + FileBasename(path) == path
  {
    var k := FindLast(path, '/').value;
    assert FileBasepath(path) == path[..k];
    assert FileBasename(path) == path[k + 1..];
    assert path == path[..k] + [path[k]] + path[k + 1..];
  }

  /** The character `c_str()` exposes at index i: past the end it is the NUL terminator. */
  function CharAt(s: string, i: nat): char {
    if i < |s| then s[i] else '\0'
  }

  /**
   * `strncmp(a.c_str(), b.c_str(), n) == 0`, compared from index i on: equal
   * when n characters matched or both strings ended (a NUL) before that.
   */
  function StrnEqual(a: string, b: string, i: nat, n: nat): (r: bool)
    ensures i < n && CharAt(a, i) != CharAt(b, i) ==> !r
    ensures i < n && CharAt(a, i) == '\0' && CharAt(b, i) == '\0' ==> r
    decreases n - i
  {
    i >= n || (CharAt(a, i) == CharAt(b, i) && (CharAt(a, i) == '\0' || StrnEqual(a, b, i + 1, n)))
  }

  /** `starts_with`: strncmp over the prefix's length. */
  function StartsWith(str: string, prefix: string): (r: bool)
    ensures |prefix| == 0 ==> r
    ensures |prefix| > 0 && CharAt(str, 0) != prefix[0] ==> !r
  {
    StrnEqual(str, prefix, 0, |prefix|)
  }

  lemma {:induction false} StrnEqualIsSliceEqual(str: string, prefix: string, i: nat)
    requires '\0' !in str && '\0' !in prefix
    requires i <= |prefix| && i <= |str|
    ensures StrnEqual(str, prefix, i, |prefix|) <==>
      |prefix| <= |str| && str[i..|prefix|] == prefix[i..]
    decreases |prefix| - i
  {
    if i < |prefix| {
      assert CharAt(prefix, i) == prefix[i] != '\0';
      if i < |str| {
        StrnEqualIsSliceEqual(str, prefix, i + 1);
        assert CharAt(str, i) == str[i] != '\0';
        if |prefix| <= |str| {
          assert str[i..|prefix|] == [str[i]] + str[i + 1..|prefix|];
          assert prefix[i..] == [prefix[i]] + prefix[i + 1..];
          if str[i..|prefix|] == prefix[i..] {
            assert str[i] == str[i..|prefix|][0] == prefix[i..][0] == prefix[i];
            assert str[i + 1..|prefix|] == str[i..|prefix|][1..] == prefix[i..][1..] == prefix[i + 1..];
          }
        }
      }
    }
  }

  /**
   * For NUL-free strings, starts_with holds exactly when the first |prefix|
   * characters of str are the prefix: an empty prefix always matches and a
   * prefix longer than str never does.
   */
  lemma StartsWithIsPrefix(str: string, prefix: string)
    requires '\0' !in str && '\0' !in prefix
    ensures StartsWith(str, prefix) <==> |prefix| <= |str| && str[..|prefix|] == prefix
  {
    StrnEqualIsSliceEqual(str, prefix, 0);
  }

  /** strncmp stops at a NUL: an embedded NUL ends the comparison early. */
  lemma StartsWithStopsAtNul()
    ensures StartsWith("a", "a\0b")
  {
    assert StrnEqual("a", "a\0b", 1, 3);
  }
}
