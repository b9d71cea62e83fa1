/**
 * The handful of Python `str` operations the relay relies on, written over `seq<char>`:
 * `strip()`, ASCII `lower()`/`upper()`, `startswith`, slicing `s[n:]`, `count`, `split(sep)`
 * and `sep.join`.
 */
module Text {

  /** Python's `str.isspace()` for one character: the characters `strip()` removes. */
  predicate IsSpace(c: char)
  {
    c == ' ' || ('\t' <= c <= '\r') || ('\U{1C}' <= c <= '\U{1F}')
    || c == '\U{85}' || c == '\U{A0}' || c == '\U{1680}' || ('\U{2000}' <= c <= '\U{200A}')
    || c == '\U{2028}' || c == '\U{2029}' || c == '\U{202F}' || c == '\U{205F}' || c == '\U{3000}'
  }

  /** True when every character of `s` is whitespace (vacuously for the empty string). */
  predicate IsBlank(s: string)
  {
    forall i :: 0 <= i < |s| ==> IsSpace(s[i])
  }

  /** `s.lstrip()`: a suffix of `s` that starts with a non-space, everything dropped being space. */
  function TrimStart(s: string): (r: string)
    ensures |r| <= |s| && r == s[|s| - |r|..]
    ensures r == [] || !IsSpace(r[0])
    ensures IsBlank(s[..|s| - |r|])
    decreases |s|
  {
    if s != [] && IsSpace(s[0]) then
      var r := TrimStart(s[1..]);
      assert s[..|s| - |r|] == [s[0]] + s[1..][..|s| - 1 - |r|];
      r
    else s
  }

  /** `s.rstrip()`: a prefix of `s` that ends with a non-space, everything dropped being space. */
  function TrimEnd(s: string): (r: string)
    ensures |r| <= |s| && r == s[..|r|]
    ensures r == [] || !IsSpace(r[|r| - 1])
    ensures IsBlank(s[|r|..])
    decreases |s|
  {
    if s != [] && IsSpace(s[|s| - 1]) then
      var r := TrimEnd(s[..|s| - 1]);
      assert s[|r|..] == s[..|s| - 1][|r|..] + [s[|s| - 1]];
      r
    else s
  }

  /** How many whitespace characters `s` starts with. */
  function Lead(s: string): (n: nat)
    ensures n <= |s|
  {
    |s| - |TrimStart(s)|
  }

  /** A prefix `r` of the suffix `t` of `s`, with whitespace around it, is a whitespace-padded slice of `s`. */
  lemma PaddedSlice(s: string, t: string, r: string, n: nat)
    requires n <= |s| && t == s[n..] && IsBlank(s[..n])
    requires |r| <= |t| && r == t[..|r|] && IsBlank(t[|r|..])
    ensures n + |r| <= |s| && r == s[n..n + |r|]
    ensures IsBlank(s[..n]) && IsBlank(s[n + |r|..])
  {
    assert s[n + |r|..] == t[|r|..];
  }

  /**
   * `s.strip()`: whitespace removed at both ends. The result is the slice of `s` after its
   * leading whitespace, followed in `s` by nothing but whitespace, and it has no padding left.
   */
  function Strip(s: string): (r: string)
    ensures |r| <= |s|
    ensures r == [] || (!IsSpace(r[0]) && !IsSpace(r[|r| - 1]))
    ensures Lead(s) + |r| <= |s| && r == s[Lead(s)..Lead(s) + |r|]
    ensures IsBlank(s[..Lead(s)]) && IsBlank(s[Lead(s) + |r|..])
  {
    var t := TrimStart(s);
    PaddedSlice(s, t, TrimEnd(t), Lead(s));
    TrimEnd(t)
  }

  /** A string without padding at either end is its own `strip()`; in particular `strip()` is idempotent. */
  lemma StripUnpadded(s: string)
    requires s == [] || (!IsSpace(s[0]) && !IsSpace(s[|s| - 1]))
    ensures Strip(s) == s
  {
    assert TrimStart(s) == s;
  }

  lemma StripIdempotent(s: string)
    ensures Strip(Strip(s)) == Strip(s)
  {
    StripUnpadded(Strip(s));
  }

  /** `s.strip()` is empty exactly when `s` is all whitespace. */
  lemma StripEmptyIffBlank(s: string)
    ensures Strip(s) == [] <==> IsBlank(s)
  {
    var t := TrimStart(s);
    if Strip(s) == [] {
      assert IsBlank(t[0..]);
      assert t == [];
      assert s[..|s|] == s;
    } else {
      var r := Strip(s);
      assert r == t[..|r|];
      assert t[0] == r[0];
      assert t[0] == s[|s| - |t|];
    }
  }

  function LowerChar(c: char): char
  {
    if 'A' <= c <= 'Z' then (c as int + 32) as char else c
  }

  function UpperChar(c: char): char
  {
    if 'a' <= c <= 'z' then (c as int - 32) as char else c
  }

  /** `s.lower()` on the ASCII letters; every other character is kept. */
  function Lower(s: string): (r: string)
    ensures |r| == |s|
    ensures forall i :: 0 <= i < |s| && !('A' <= s[i] <= 'Z') ==> r[i] == s[i]
    ensures forall i :: 0 <= i < |s| && 'A' <= s[i] <= 'Z' ==> r[i] == (s[i] as int + 32) as char
  {
    if s == [] then [] else [LowerChar(s[0])] + Lower(s[1..])
  }

  /** `s.upper()` on the ASCII letters; every other character is kept. */
  function Upper(s: string): (r: string)
    ensures |r| == |s|
    ensures forall i :: 0 <= i < |s| && !('a' <= s[i] <= 'z') ==> r[i] == s[i]
    ensures forall i :: 0 <= i < |s| && 'a' <= s[i] <= 'z' ==> r[i] == (s[i] as int - 32) as char
  {
    if s == [] then [] else [UpperChar(s[0])] + Upper(s[1..])
  }

  /** `s.startswith(p)`. */
  predicate StartsWith(s: string, p: string)
  {
    |p| <= |s| && s[..|p|] == p
  }

  /** Python's slice `s[n:]`, which is empty rather than an error when `n` is past the end. */
  function Drop(s: string, n: nat): (r: string)
    ensures |r| == if n <= |s| then |s| - n else 0
    ensures forall i :: 0 <= i < |r| ==> r[i] == s[n + i]
  {
    if n <= |s| then s[n..] else []
  }

  /** `s.count(c)` for a single character. */
  function Count(s: string, c: char): nat
  {
    if s == [] then 0 else (if s[0] == c then 1 else 0) + Count(s[1..], c)
  }

  /** `s.split(sep)`: the pieces between separators, empty pieces kept. */
  function Split(s: string, sep: char): (parts: seq<string>)
    ensures |parts| == Count(s, sep) + 1
    ensures forall i :: 0 <= i < |parts| ==> sep !in parts[i]
  {
    if s == [] then [[]]
    else
      var rest := Split(s[1..], sep);
      if s[0] == sep then [[]] + rest else [[s[0]] + rest[0]] + rest[1..]
  }

  /** `sep.join(parts)` for a non-empty list of parts. */
  function Join(parts: seq<string>, sep: char): string
    requires |parts| >= 1
  {
    if |parts| == 1 then parts[0] else parts[0] + [sep] + Join(parts[1..], sep)
  }

  /** Splitting and re-joining on the same separator gives back the original string. */
  lemma {:induction false} JoinSplit(s: string, sep: char)
    ensures Join(Split(s, sep), sep) == s
  {
    if s != [] {
      JoinSplit(s[1..], sep);
      var rest := Split(s[1..], sep);
      if s[0] == sep {
        assert Split(s, sep)[1..] == rest;
        assert s == [sep] + s[1..];
      } else if |rest| == 1 {
        assert s == [s[0]] + s[1..];
      } else {
        var parts := Split(s, sep);
        assert parts[1..] == rest[1..];
        assert Join(rest, sep) == rest[0] + [sep] + Join(rest[1..], sep);
        assert s == [s[0]] + s[1..];
      }
    }
  }

  /** Splitting a join of separator-free parts recovers the parts. */
  lemma {:induction false} SplitJoin(parts: seq<string>, sep: char)
    requires |parts| >= 1
    requires forall i :: 0 <= i < |parts| ==> sep !in parts[i]
    ensures Split(Join(parts, sep), sep) == parts
  {
    if |parts| == 1 {
      SplitPiece(parts[0], [], sep);
      assert parts[0] + [] == parts[0];
      assert Split([], sep) == [[]];
      assert [parts[0] + []] + [] == parts;
    } else {
      var j := Join(parts[1..], sep);
      SplitJoin(parts[1..], sep);
      SplitPiece(parts[0], [sep] + j, sep);
      assert Join(parts, sep) == parts[0] + ([sep] + j);
      var r := Split([sep] + j, sep);
      assert ([sep] + j)[1..] == j;
      assert r == [[]] + parts[1..];
      assert parts[0] + r[0] == parts[0];
      assert r[1..] == parts[1..];
      assert parts == [parts[0]] + parts[1..];
    }
  }

  /** Prefixing a separator-free piece extends the first part of the split. */
  lemma {:induction false} SplitPiece(piece: string, tail: string, sep: char)
    requires sep !in piece
    ensures var rest := Split(tail, sep);
      Split(piece + tail, sep) == [piece + rest[0]] + rest[1..]
    decreases |piece|
  {
    if piece != [] {
      SplitPiece(piece[1..], tail, sep);
      assert (piece + tail)[1..] == piece[1..] + tail;
      assert [piece[0]] + (piece[1..] + Split(tail, sep)[0]) == piece + Split(tail, sep)[0];
    } else {
      var rest := Split(tail, sep);
      assert piece + tail == tail;
      assert piece + rest[0] == rest[0];
      assert rest == [rest[0]] + rest[1..];
    }
  }
}
