/** The few string operations both stages use on file names: Python's `os.path.join`,
    `os.path.splitext`, `str.lower` and `str.endswith`, on POSIX paths. */
module Paths {

  predicate StartsWith(s: string, prefix: string) {
    |prefix| <= |s| && s[..|prefix|] == prefix
  }

  /** `s.endswith(suffix)`. */
  predicate EndsWith(s: string, suffix: string) {
    |suffix| <= |s| && s[|s| - |suffix|..] == suffix
  }

  /** `s.endswith(tuple)`: true when any of the suffixes matches. */
  predicate EndsWithAny(s: string, suffixes: seq<string>) {
    exists k :: 0 <= k < |suffixes| && EndsWith(s, suffixes[k])
  }

  function LowerChar(c: char): char {
    if 'A' <= c <= 'Z' then (c as int + 32) as char else c
  }

  /** `s.lower()` restricted to ASCII letters. */
  function Lower(s: string): (r: string)
    ensures |r| == |s|
    ensures forall i :: 0 <= i < |s| ==> r[i] == LowerChar(s[i])
  {
    seq(|s|, i requires 0 <= i < |s| => LowerChar(s[i]))
  }

  /** `os.path.join(a, b)` (posixpath): an absolute `b` replaces `a`, otherwise one
      separator is inserted unless `a` is empty or already ends with one. */
  function Join(a: string, b: string): (r: string)
    ensures StartsWith(b, "/") ==> r == b
    ensures !StartsWith(b, "/") ==> EndsWith(r, b)
  {
    if StartsWith(b, "/") then b
    else if a == [] || EndsWith(a, "/") then a + b
    else a + "/" + b
  }

  /** Index of the last occurrence of `c` in `s`, or -1 (Python's `str.rfind`). */
  function RFind(s: string, c: char): (r: int)
    ensures -1 <= r < |s|
    ensures 0 <= r ==> s[r] == c
    ensures forall j :: r < j < |s| ==> s[j] != c
  {
    if s == [] then -1
    else if s[|s| - 1] == c then |s| - 1
    else RFind(s[..|s| - 1], c)
  }

  /** Is there a character other than '.' in s[lo..hi]? */
  predicate HasNonDot(s: string, lo: int, hi: int)
    requires 0 <= lo <= hi <= |s|
  {
    exists i :: lo <= i < hi && s[i] != '.'
  }

  /** The root returned by `os.path.splitext(p)[0]` (posixpath): the last '.' after the last
      '/' starts the extension, unless every character before it in the final component is a
      dot (so ".bashrc" and "..png" keep their leading dots and have no extension). */
  function Stem(p: string): (stem: string)
    ensures StartsWith(p, stem)
    ensures stem != p ==> p[|stem|] == '.'
    ensures stem != p ==> '.' !in p[|stem| + 1..] && '/' !in p[|stem| + 1..]
  {
    var sep := RFind(p, '/');
    var dot := RFind(p, '.');
    if dot > sep && HasNonDot(p, sep + 1, dot) then p[..dot] else p
  }

  /** Appending an extension and taking the stem again gives the name back. */
  lemma StemOfExtended(base: string, ext: string)
    requires '/' !in base && '.' !in ext && '/' !in ext
    requires HasNonDot(base, 0, |base|)
    ensures Stem(base + "." + ext) == base
  {
    var p := base + "." + ext;
    var dot := RFind(p, '.');
    assert p[|base|] == '.';
    assert dot == |base| by {
      forall j | |base| < j < |p| ensures p[j] != '.' {
        assert p[j] == ext[j - |base| - 1];
      }
    }
    assert RFind(p, '/') == -1 by {
      forall j | 0 <= j < |p| ensures p[j] != '/' {
        if j < |base| { assert p[j] == base[j]; } else if j > |base| { assert p[j] == ext[j - |base| - 1]; }
      }
    }
    var i :| 0 <= i < |base| && base[i] != '.';
    assert p[i] == base[i];
    assert p[..dot] == base;
  }
}
