/**
 * The few JavaScript string operations the date formatters rely on:
 * the white-space class shared by `\s` and `String.prototype.trim`,
 * `trim` itself, the case folding of a regular expression with the `i`
 * flag (and no `u` flag), and `s.replace(/^marker\s*\/i, "")`.
 */
module JsText {

  /** A character that `\s` matches and `trim` removes (WhiteSpace and LineTerminator). */
  predicate IsSpace(c: char) {
    var n := c as int;
    n == 0x09 || n == 0x0A || n == 0x0B || n == 0x0C || n == 0x0D || n == 0x20 ||
    n == 0xA0 || n == 0x1680 || (0x2000 <= n <= 0x200A) || n == 0x2028 || n == 0x2029 ||
    n == 0x202F || n == 0x205F || n == 0x3000 || n == 0xFEFF
  }

  predicate AllSpaces(s: string) {
    forall i :: 0 <= i < |s| ==> IsSpace(s[i])
  }

  /** Neither the first nor the last character is white space. */
  predicate IsTrimmed(s: string) {
    s == [] || (!IsSpace(s[0]) && !IsSpace(s[|s| - 1]))
  }

  /** Removes the leading white space: the result is the longest suffix that does not start with it. */
  function TrimStart(s: string): (r: string)
    ensures |r| <= |s| && r == s[|s| - |r|..]
    ensures AllSpaces(s[..|s| - |r|])
    ensures r != [] ==> !IsSpace(r[0])
  {
    if s != [] && IsSpace(s[0]) then TrimStart(s[1..]) else s
  }

  /** Removes the trailing white space: the result is the longest prefix that does not end with it. */
  function TrimEnd(s: string): (r: string)
    ensures |r| <= |s| && r == s[..|r|]
    ensures AllSpaces(s[|r|..])
    ensures r != [] ==> !IsSpace(r[|r| - 1])
  {
    if s != [] && IsSpace(s[|s| - 1]) then TrimEnd(s[..|s| - 1]) else s
  }

  /** `s` is `r` with only white space before position `i` and after `r`. */
  predicate SurroundedBySpaces(s: string, i: int, r: string) {
    0 <= i <= |s| - |r| && r == s[i..i + |r|] && AllSpaces(s[..i]) && AllSpaces(s[i + |r|..])
  }

  /** `s.trim()`: a trimmed slice of `s` (that only white space is removed is `TrimRemovesOnlySpaces`). */
  function Trim(s: string): (r: string)
    ensures IsTrimmed(r)
    ensures |r| <= |s|
  {
    var t := TrimStart(s);
    var r := TrimEnd(t);
    assert r != [] ==> r[0] == t[0];
    r
  }

  /** What `trim` drops on either side is white space; `i` is where the result starts in `s`. */
  lemma TrimRemovesOnlySpaces(s: string) returns (i: nat)
    ensures SurroundedBySpaces(s, i, Trim(s))
  {
    var t := TrimStart(s);
    var r := TrimEnd(t);
    assert r == Trim(s);
    i := |s| - |t|;
    assert AllSpaces(s[..i]);
    assert r == s[i..i + |r|] by {
      assert t == s[i..];
      assert r == t[..|r|];
    }
    assert AllSpaces(s[i + |r|..]) by {
      assert s[i + |r|..] == t[|r|..];
    }
  }

  /**
   * The canonical form under which a regular expression with the `i` flag
   * and without the `u` flag compares characters: the upper-case form.
   * Written out for Basic Latin and Latin-1; every other character is its
   * own canonical form here. A character outside Basic Latin never folds
   * into it (and one inside never leaves it), as the rule without `u`
   * requires.
   */
  function Canonicalize(c: char): (r: char)
    ensures (r as int < 128) <==> (c as int < 128)
  {
    if 'a' <= c <= 'z' then (c as int - 32) as char
    else if '\U{00E0}' <= c <= '\U{00FE}' && c != '\U{00F7}' then (c as int - 32) as char
    else if c == '\U{00FF}' then '\U{0178}'
    else if c == '\U{00B5}' then '\U{039C}'
    else c
  }

  /** The pattern `/^prefix/i` matches `s`. */
  predicate StartsWithIgnoringCase(s: string, prefix: string) {
    |prefix| <= |s| && forall i :: 0 <= i < |prefix| ==> Canonicalize(s[i]) == Canonicalize(prefix[i])
  }

  /**
   * `s.replace(/^marker\s*\/i, "")` for a marker of literal characters: when
   * `s` starts with the marker, ignoring case, the marker and all the white
   * space after it are dropped; otherwise `s` is returned unchanged.
   */
  function StripLeadingMarker(s: string, marker: string): (r: string)
    ensures |r| <= |s| && r == s[|s| - |r|..]
    ensures !StartsWithIgnoringCase(s, marker) ==> r == s
    ensures StartsWithIgnoringCase(s, marker) ==> |r| <= |s| - |marker| && (r != [] ==> !IsSpace(r[0]))
  {
    if StartsWithIgnoringCase(s, marker) then
      var rest := s[|marker|..];
      var r := TrimStart(rest);
      assert rest[|rest| - |r|..] == s[|s| - |r|..];
      r
    else
      assert s[0..] == s;
      s
  }

  /** What follows a matched marker and is dropped with it is white space. */
  lemma StripLeadingMarkerDropsSpaces(s: string, marker: string)
    requires StartsWithIgnoringCase(s, marker)
    ensures AllSpaces(s[|marker|..|s| - |StripLeadingMarker(s, marker)|])
  {
    var rest := s[|marker|..];
    var r := TrimStart(rest);
    assert s[|marker|..|s| - |r|] == rest[..|rest| - |r|];
  }

  /** Leading white space makes no difference to `TrimStart`. */
  lemma {:induction false} TrimStartSkipsSpaces(w: string, t: string)
    requires AllSpaces(w)
    ensures TrimStart(w + t) == TrimStart(t)
  {
    if w != [] {
      assert (w + t)[0] == w[0];
      assert (w + t)[1..] == w[1..] + t;
      TrimStartSkipsSpaces(w[1..], t);
    } else {
      assert w + t == t;
    }
  }

  /** Trimming the start first does not change what `trim` returns. */
  lemma TrimAfterTrimStart(s: string)
    ensures Trim(TrimStart(s)) == Trim(s)
  {
    var t := TrimStart(s);
    assert TrimStart(t) == t;
  }

  /** `trim` is idempotent. */
  lemma TrimIdempotent(s: string)
    ensures Trim(Trim(s)) == Trim(s)
  {
    var r := Trim(s);
    assert TrimStart(r) == r;
    assert TrimEnd(r) == r;
  }

  /** A string already trimmed is its own `trim`. */
  lemma TrimOfTrimmed(s: string)
    requires IsTrimmed(s)
    ensures Trim(s) == s
  {
    assert TrimStart(s) == s;
    assert TrimEnd(s) == s;
  }

  /** A string starts with itself under any case folding. */
  lemma StartsWithOwnPrefix(marker: string, rest: string)
    ensures StartsWithIgnoringCase(marker + rest, marker)
  {
    forall i | 0 <= i < |marker| ensures (marker + rest)[i] == marker[i] { }
  }

  /** Stripping a marker that is followed by white space leaves the text after it, without leading white space. */
  lemma StripMarkerBeforeSpaces(marker: string, w: string, t: string)
    requires AllSpaces(w)
    ensures StripLeadingMarker(marker + w + t, marker) == TrimStart(t)
  {
    StartsWithOwnPrefix(marker, w + t);
    assert marker + w + t == marker + (w + t);
    assert (marker + (w + t))[|marker|..] == w + t;
    TrimStartSkipsSpaces(w, t);
  }
}
