/** The string operations of the handler: `split` on a one-character
    separator, `join` with one, and `trim`. */
module Strings {

  /** The characters `String.prototype.trim` removes: ECMAScript WhiteSpace
      (tab, vertical tab, form feed, the space separators of category Zs,
      no-break space, byte order mark) and LineTerminator (LF, CR, LS, PS). */
  const Whitespace: set<char> := {
    '\t', '\n', '\U{000B}', '\U{000C}', '\r', ' ', '\U{00A0}', '\U{1680}',
    '\U{2000}', '\U{2001}', '\U{2002}', '\U{2003}', '\U{2004}', '\U{2005}',
    '\U{2006}', '\U{2007}', '\U{2008}', '\U{2009}', '\U{200A}',
    '\U{2028}', '\U{2029}', '\U{202F}', '\U{205F}', '\U{3000}', '\U{FEFF}'
  }

  predicate IsWhitespace(c: char) {
    c in Whitespace
  }

  predicate AllWhitespace(s: string) {
    forall k :: 0 <= k < |s| ==> IsWhitespace(s[k])
  }

  lemma AllWhitespaceCons(c: char, s: string)
    ensures AllWhitespace([c] + s) <==> IsWhitespace(c) && AllWhitespace(s)
  {
    var t := [c] + s;
    if AllWhitespace(t) {
      forall k | 0 <= k < |s| ensures IsWhitespace(s[k]) {
        assert t[k + 1] == s[k];
      }
      assert t[0] == c;
    }
    if IsWhitespace(c) && AllWhitespace(s) {
      forall k | 0 <= k < |t| ensures IsWhitespace(t[k]) {
        if k > 0 {
          assert t[k] == s[k - 1];
        }
      }
    }
  }

  lemma AllWhitespaceSnoc(s: string, c: char)
    ensures AllWhitespace(s + [c]) <==> AllWhitespace(s) && IsWhitespace(c)
  {
    var t := s + [c];
    if AllWhitespace(t) {
      forall k | 0 <= k < |s| ensures IsWhitespace(s[k]) {
        assert t[k] == s[k];
      }
      assert t[|s|] == c;
    }
  }

  /** No whitespace at either end. */
  predicate Trimmed(s: string) {
    s == [] || (!IsWhitespace(s[0]) && !IsWhitespace(s[|s| - 1]))
  }

  /** Splitting on a one-character separator: the pieces between its
      occurrences. */
  function Split(s: string, sep: char): (pieces: seq<string>)
    ensures |pieces| >= 1
    ensures forall i :: 0 <= i < |pieces| ==> sep !in pieces[i]
    decreases |s|
  {
    if s == [] then [""]
    else if s[0] == sep then [""] + Split(s[1..], sep)
    else
      var rest := Split(s[1..], sep);
      [[s[0]] + rest[0]] + rest[1..]
  }

  /** The parts with one separator between each neighbouring pair. */
  function Join(parts: seq<string>, sep: char): string
  {
    if parts == [] then ""
    else if |parts| == 1 then parts[0]
    else parts[0] + [sep] + Join(parts[1..], sep)
  }

  /** Joining the pieces of a split gives back the original string. */
  lemma {:induction false} JoinSplit(s: string, sep: char)
    ensures Join(Split(s, sep), sep) == s
    decreases |s|
  {
    if s == [] {
    } else if s[0] == sep {
      var rest := Split(s[1..], sep);
      JoinSplit(s[1..], sep);
      assert Split(s, sep) == [""] + rest;
      assert ([""] + rest)[1..] == rest;
    } else {
      var rest := Split(s[1..], sep);
      JoinSplit(s[1..], sep);
      var pieces := [[s[0]] + rest[0]] + rest[1..];
      assert Split(s, sep) == pieces;
      if |rest| == 1 {
        assert s == [s[0]] + s[1..];
      } else {
        assert pieces[1..] == rest[1..];
        assert Join(rest, sep) == rest[0] + [sep] + Join(rest[1..], sep);
        assert s == [s[0]] + s[1..];
      }
    }
  }

  /** Splitting a join of separator-free parts gives back the parts:
      `split` is the inverse of `join` on such parts. */
  lemma {:induction false} SplitJoin(parts: seq<string>, sep: char)
    requires |parts| >= 1
    requires forall i :: 0 <= i < |parts| ==> sep !in parts[i]
    ensures Split(Join(parts, sep), sep) == parts
    decreases |Join(parts, sep)|
  {
    var s := Join(parts, sep);
    if |parts| == 1 {
      SplitOfSeparatorFree(parts[0], sep);
    } else if parts[0] == [] {
      assert s == [sep] + Join(parts[1..], sep);
      assert s[1..] == Join(parts[1..], sep);
      SplitJoin(parts[1..], sep);
      assert parts == [""] + parts[1..];
    } else {
      var head := parts[0];
      var shorter := [head[1..]] + parts[1..];
      assert shorter[1..] == parts[1..];
      assert s == [head[0]] + (head[1..] + [sep] + Join(parts[1..], sep));
      assert s[1..] == Join(shorter, sep);
      assert head[0] != sep by { assert head[0] in head; }
      forall i | 0 <= i < |shorter| ensures sep !in shorter[i] {
        if i == 0 {
          assert forall k :: 0 <= k < |head| - 1 ==> head[1..][k] == head[k + 1];
        }
      }
      SplitJoin(shorter, sep);
      assert [head[0]] + head[1..] == head;
    }
  }

  /** A string without the separator splits into itself alone. */
  lemma {:induction false} SplitOfSeparatorFree(s: string, sep: char)
    requires sep !in s
    ensures Split(s, sep) == [s]
    decreases |s|
  {
    if s != [] {
      assert s[0] != sep by { assert s[0] in s; }
      assert sep !in s[1..] by {
        assert forall k :: 0 <= k < |s| - 1 ==> s[1..][k] == s[k + 1];
      }
      SplitOfSeparatorFree(s[1..], sep);
      assert [s[0]] + s[1..] == s;
    }
  }

  /** Joining two non-empty lists of parts puts one separator between them. */
  lemma {:induction false} JoinAppend(a: seq<string>, b: seq<string>, sep: char)
    requires a != [] && b != []
    ensures Join(a + b, sep) == Join(a, sep) + [sep] + Join(b, sep)
    decreases |a|
  {
    if |a| == 1 {
      assert (a + b)[1..] == b;
    } else {
      assert (a + b)[1..] == a[1..] + b;
      JoinAppend(a[1..], b, sep);
    }
  }

  /** Drop the leading whitespace. */
  function TrimStart(s: string): (r: string)
    ensures |r| <= |s| && r == s[|s| - |r|..]
    ensures AllWhitespace(s[..|s| - |r|])
    ensures r == [] || !IsWhitespace(r[0])
    decreases |s|
  {
    if s != [] && IsWhitespace(s[0]) then
      var r := TrimStart(s[1..]);
      assert s[1..][|s| - 1 - |r|..] == s[|s| - |r|..];
      assert s[..|s| - |r|] == [s[0]] + s[1..][..|s| - 1 - |r|];
      AllWhitespaceCons(s[0], s[1..][..|s| - 1 - |r|]);
      r
    else s
  }

  /** Drop the trailing whitespace. */
  function TrimEnd(s: string): (r: string)
    ensures |r| <= |s| && r == s[..|r|]
    ensures AllWhitespace(s[|r|..])
    ensures r == [] || !IsWhitespace(r[|r| - 1])
    decreases |s|
  {
    if s != [] && IsWhitespace(s[|s| - 1]) then
      var r := TrimEnd(s[..|s| - 1]);
      assert s[..|s| - 1][..|r|] == s[..|r|];
      assert s[|r|..] == s[..|s| - 1][|r|..] + [s[|s| - 1]];
      AllWhitespaceSnoc(s[..|s| - 1][|r|..], s[|s| - 1]);
      r
    else s
  }

  /** Trimming: the result is the middle of `s`, with only whitespace cut
      off on either side, and no whitespace left at either end. */
  function Trim(s: string): (r: string)
    ensures var i := |s| - |TrimStart(s)|;
            i + |r| <= |s| && r == s[i..i + |r|]
            && AllWhitespace(s[..i]) && AllWhitespace(s[i + |r|..])
    ensures Trimmed(r)
  {
    var t := TrimStart(s);
    var r := TrimEnd(t);
    var i := |s| - |t|;
    assert r == s[i..i + |r|];
    assert s[i + |r|..] == t[|r|..];
    r
  }

  /** Trimming leaves nothing exactly when the string is all whitespace. */
  lemma TrimEmptyIff(s: string)
    ensures Trim(s) == [] <==> AllWhitespace(s)
  {
    var t := TrimStart(s);
    var n := |s| - |t|;
    assert t != [] ==> t[0] == s[n];
    assert s == s[..n] + t;
    assert AllWhitespace(s) <==> AllWhitespace(s[..n]) && AllWhitespace(t) by {
      assert forall k :: 0 <= k < |s| ==> s[k] == if k < n then s[..n][k] else t[k - n];
    }
  }

  /** A trimmed string is its own trim. */
  lemma TrimOfTrimmed(s: string)
    requires Trimmed(s)
    ensures Trim(s) == s
  {
  }
}
