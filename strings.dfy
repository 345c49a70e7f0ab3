/** The few `String.prototype` operations the client relies on: `trim`,
    `split` and `join` on a one-character separator, and `replace` with a
    string pattern (which replaces the first occurrence only). */
module Strings {

  import opened Js

  /** The characters `trim` removes: the WhiteSpace and LineTerminator code
      points of ECMAScript (tab, vertical tab, form feed, space, no-break space,
      the byte order mark, the Unicode space separators, LF, CR, LS and PS). */
  predicate IsJsWhitespace(c: char) {
    || c == '\t' || c == '\n' || c == '\U{000B}' || c == '\U{000C}' || c == '\r'
    || c == ' ' || c == '\U{00A0}' || c == '\U{1680}'
    || ('\U{2000}' <= c <= '\U{200A}')
    || c == '\U{2028}' || c == '\U{2029}' || c == '\U{202F}' || c == '\U{205F}'
    || c == '\U{3000}' || c == '\U{FEFF}'
  }

  /** A string made of whitespace only (the empty string included). */
  predicate IsBlank(s: string) {
    forall i :: 0 <= i < |s| ==> IsJsWhitespace(s[i])
  }

  /** Drops leading whitespace: the result is the suffix of `s` that starts at
      the first non-whitespace character. */
  function TrimStart(s: string): (r: string)
    ensures |r| <= |s| && r == s[|s| - |r|..]
    ensures forall i :: 0 <= i < |s| - |r| ==> IsJsWhitespace(s[i])
    ensures r != [] ==> !IsJsWhitespace(r[0])
  {
    if s != [] && IsJsWhitespace(s[0]) then TrimStart(s[1..]) else s
  }

  /** Drops trailing whitespace: the result is the prefix of `s` that ends at
      the last non-whitespace character. */
  function TrimEnd(s: string): (r: string)
    ensures |r| <= |s| && r == s[..|r|]
    ensures forall i :: |r| <= i < |s| ==> IsJsWhitespace(s[i])
    ensures r != [] ==> !IsJsWhitespace(r[|r| - 1])
  {
    if s != [] && IsJsWhitespace(s[|s| - 1]) then TrimEnd(s[..|s| - 1]) else s
  }

  /** `r` is the slice of `s` at `i`, with only whitespace before and after it. */
  predicate TrimmedAt(s: string, r: string, i: int) {
    0 <= i <= |s| - |r| && r == s[i..i + |r|] && IsBlank(s[..i]) && IsBlank(s[i + |r|..])
  }

  /** `s.trim()`: `s` without its leading and trailing whitespace. */
  function Trim(s: string): (r: string)
    ensures exists i :: TrimmedAt(s, r, i)
    ensures r != [] ==> !IsJsWhitespace(r[0]) && !IsJsWhitespace(r[|r| - 1])
  {
    var t := TrimStart(s);
    var r := TrimEnd(t);
    TrimmedBetween(s, t, r);
    r
  }

  /** Dropping whitespace from the front of `s` and then from the back of
      what is left leaves a slice of `s` framed by whitespace. */
  lemma TrimmedBetween(s: string, t: string, r: string)
    requires |t| <= |s| && t == s[|s| - |t|..]
    requires forall i :: 0 <= i < |s| - |t| ==> IsJsWhitespace(s[i])
    requires |r| <= |t| && r == t[..|r|]
    requires forall i :: |r| <= i < |t| ==> IsJsWhitespace(t[i])
    ensures TrimmedAt(s, r, |s| - |t|)
  {
    var i := |s| - |t|;
    forall k | 0 <= k < i
      ensures IsJsWhitespace(s[..i][k])
    {
      assert s[..i][k] == s[k];
    }
    var tail := s[i + |r|..];
    forall k | 0 <= k < |tail|
      ensures IsJsWhitespace(tail[k])
    {
      assert tail[k] == t[|r| + k];
    }
  }

  /** `s.trim() !== ''` holds exactly when `s` has a character that is not
      whitespace. */
  lemma TrimEmptyIffBlank(s: string)
    ensures Trim(s) == "" <==> IsBlank(s)
  {
    var t := TrimStart(s);
    if Trim(s) == "" {
      assert |t| == 0;
    } else {
      var r := Trim(s);
      assert r == t[..|r|];
      assert !IsJsWhitespace(s[|s| - |t|]);
    }
  }

  /** `s.split(sep)` for a one-character separator: the pieces between
      consecutive separators; there is always at least one. */
  function Split(s: string, sep: char): (parts: seq<string>)
    ensures |parts| >= 1
  {
    if s == [] then [""]
    else
      var rest := Split(s[1..], sep);
      if s[0] == sep then [""] + rest
      else [[s[0]] + rest[0]] + rest[1..]
  }

  /** No piece of a split contains the separator, and there is one piece more
      than there are separators. */
  lemma {:induction false} SplitPieces(s: string, sep: char)
    ensures forall k :: 0 <= k < |Split(s, sep)| ==> sep !in Split(s, sep)[k]
    ensures |Split(s, sep)| == 1 + multiset(s)[sep]
  {
    if s != [] {
      SplitPieces(s[1..], sep);
      assert s == [s[0]] + s[1..];
      assert multiset(s) == multiset{s[0]} + multiset(s[1..]);
    }
  }

  /** `parts.join(sep)`: the pieces in order with one separator between each
      two; it starts with the first piece and, after more than one piece,
      with the first piece and a separator. */
  function Join(parts: seq<string>, sep: char): (r: string)
    ensures |parts| >= 1 ==> |parts[0]| <= |r| && r[..|parts[0]|] == parts[0]
    ensures |parts| >= 2 ==> |parts[0]| < |r| && r[|parts[0]|] == sep
  {
    if |parts| == 0 then ""
    else if |parts| == 1 then parts[0]
    else parts[0] + [sep] + Join(parts[1..], sep)
  }

  /** Joining the pieces of a split gives back the string. */
  lemma {:induction false} JoinSplit(s: string, sep: char)
    ensures Join(Split(s, sep), sep) == s
  {
    if s != [] {
      var rest := Split(s[1..], sep);
      JoinSplit(s[1..], sep);
      if s[0] == sep {
        assert Split(s, sep) == [""] + rest;
        assert ([""] + rest)[1..] == rest;
      } else if |rest| == 1 {
        assert Split(s, sep) == [[s[0]] + rest[0]];
      } else {
        var parts := [[s[0]] + rest[0]] + rest[1..];
        assert parts[1..] == rest[1..];
        assert Join(rest, sep) == rest[0] + [sep] + Join(rest[1..], sep);
        assert Join(parts, sep) == [s[0]] + rest[0] + [sep] + Join(rest[1..], sep);
      }
    }
  }

  /** Splitting the join of pieces that hold no separator gives back the pieces. */
  lemma {:induction false} SplitJoin(parts: seq<string>, sep: char)
    requires |parts| >= 1
    requires forall k :: 0 <= k < |parts| ==> sep !in parts[k]
    ensures Split(Join(parts, sep), sep) == parts
  {
    SplitWithoutSeparator(parts[0], sep);
    if |parts| > 1 {
      SplitJoin(parts[1..], sep);
      SplitAtSeparator(parts[0], Join(parts[1..], sep), sep);
      assert [parts[0]] + parts[1..] == parts;
    }
  }

  /** A string without the separator is a single piece. */
  lemma {:induction false} SplitWithoutSeparator(s: string, sep: char)
    requires sep !in s
    ensures Split(s, sep) == [s]
  {
    if s != [] {
      SplitWithoutSeparator(s[1..], sep);
      assert [s[0]] + s[1..] == s;
    }
  }

  /** Splitting a string given by its first character and the rest. */
  lemma SplitCons(c: char, t: string, sep: char)
    ensures Split([c] + t, sep) ==
      if c == sep then [""] + Split(t, sep) else [[c] + Split(t, sep)[0]] + Split(t, sep)[1..]
  {
    assert ([c] + t)[0] == c && ([c] + t)[1..] == t;
  }

  /** Glueing a prefix onto the first piece of a concatenation of pieces. */
  lemma GlueFirst(w: string, a: seq<string>, b: seq<string>)
    requires |a| >= 1
    ensures [w + (a + b)[0]] + (a + b)[1..] == [w + a[0]] + a[1..] + b
  {
    assert (a + b)[0] == a[0] && (a + b)[1..] == a[1..] + b;
  }

  /** Splitting at a separator splits the pieces on either side independently. */
  lemma {:induction false} SplitAtSeparator(x: string, y: string, sep: char)
    ensures Split(x + [sep] + y, sep) == Split(x, sep) + Split(y, sep)
  {
    if x == [] {
      assert x + [sep] + y == [sep] + y;
      SplitCons(sep, y, sep);
    } else {
      var c, t := x[0], x[1..];
      var z := t + [sep] + y;
      assert x == [c] + t;
      var left, right := Split(t, sep), Split(y, sep);
      if c == sep {
        calc {
          Split(x + [sep] + y, sep);
        == { assert x + [sep] + y == [c] + z; }
          Split([c] + z, sep);
        == { SplitCons(c, z, sep); SplitAtSeparator(t, y, sep); }
          [""] + (left + right);
        == { SplitCons(c, t, sep); }
          Split(x, sep) + right;
        }
      } else {
        calc {
          Split(x + [sep] + y, sep);
        == { assert x + [sep] + y == [c] + z; }
          Split([c] + z, sep);
        == { SplitCons(c, z, sep); SplitAtSeparator(t, y, sep); }
          [[c] + (left + right)[0]] + (left + right)[1..];
        == { GlueFirst([c], left, right); }
          [[c] + left[0]] + left[1..] + right;
        == { SplitCons(c, t, sep); }
          Split(x, sep) + right;
        }
      }
    }
  }

  /** `pat` occurs in `s` at index `j`. */
  predicate OccursAt(s: string, pat: string, j: nat) {
    j + |pat| <= |s| && s[j..j + |pat|] == pat
  }

  /** The first index at or after `from` where `pat` occurs, if any. */
  function IndexOfFrom(s: string, pat: string, from: nat): (r: Option<nat>)
    decreases |s| - from
    ensures r.Some? ==> from <= r.value && OccursAt(s, pat, r.value)
    ensures r.Some? ==> forall j :: from <= j < r.value ==> !OccursAt(s, pat, j)
    ensures r.None? ==> forall j :: from <= j ==> !OccursAt(s, pat, j)
  {
    if from + |pat| > |s| then None
    else if s[from..from + |pat|] == pat then Some(from)
    else IndexOfFrom(s, pat, from + 1)
  }

  /** `s.replace(pat, rep)` with a string pattern: only the first occurrence
      of `pat` is replaced; without one, `s` is returned unchanged. */
  function ReplaceFirst(s: string, pat: string, rep: string): (r: string)
    ensures (forall j :: !OccursAt(s, pat, j)) ==> r == s
  {
    match IndexOfFrom(s, pat, 0)
    case None => s
    case Some(i) => s[..i] + rep + s[i + |pat|..]
  }

  /** When `pat` first occurs at `i`, the result is `s` with exactly that
      occurrence replaced; everything before and after it is kept. */
  lemma ReplaceFirstAt(s: string, pat: string, rep: string, i: nat)
    requires OccursAt(s, pat, i)
    requires forall j: nat :: j < i ==> !OccursAt(s, pat, j)
    ensures ReplaceFirst(s, pat, rep) == s[..i] + rep + s[i + |pat|..]
  {
    var k := IndexOfFrom(s, pat, 0);
  }
}
