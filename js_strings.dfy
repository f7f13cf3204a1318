/** The JavaScript string built-ins the components rely on:
    `String.prototype.trim` (for the "empty input" tests) and
    `String.prototype.split` / `Array.prototype.join` on a one-character
    separator (for the download file name). */
module JsStrings {

  /** The characters `trim` removes: ECMAScript's WhiteSpace (tab, vertical
      tab, form feed, space, no-break space, byte order mark and the other
      Unicode space separators) and its LineTerminator characters. */
  predicate IsWhitespace(c: char) {
    c == '\t' || c == '\n' || c == '\U{000B}' || c == '\U{000C}' || c == '\r'
    || c == ' ' || c == '\U{00A0}' || c == '\U{1680}'
    || ('\U{2000}' <= c <= '\U{200A}')
    || c == '\U{2028}' || c == '\U{2029}' || c == '\U{202F}' || c == '\U{205F}'
    || c == '\U{3000}' || c == '\U{FEFF}'
  }

  /** Length of the run of whitespace at the start of `s`. */
  function LeadingWhitespace(s: string): (n: nat)
    ensures n <= |s|
    ensures forall i :: 0 <= i < n ==> IsWhitespace(s[i])
    ensures n < |s| ==> !IsWhitespace(s[n])
  {
    if |s| > 0 && IsWhitespace(s[0]) then 1 + LeadingWhitespace(s[1..]) else 0
  }

  /** Length of the run of whitespace at the end of `s`. */
  function TrailingWhitespace(s: string): (n: nat)
    ensures n <= |s|
    ensures forall i :: |s| - n <= i < |s| ==> IsWhitespace(s[i])
    ensures n < |s| ==> !IsWhitespace(s[|s| - n - 1])
  {
    if |s| > 0 && IsWhitespace(s[|s| - 1]) then 1 + TrailingWhitespace(s[..|s| - 1]) else 0
  }

  /** `s.trim()`: `s` without its leading and trailing whitespace. */
  function Trim(s: string): (t: string)
    ensures LeadingWhitespace(s) + |t| <= |s|
    ensures t == s[LeadingWhitespace(s)..LeadingWhitespace(s) + |t|]
    ensures forall i :: LeadingWhitespace(s) + |t| <= i < |s| ==> IsWhitespace(s[i])
    ensures t == [] || (!IsWhitespace(t[0]) && !IsWhitespace(t[|t| - 1]))
  {
    var u := s[LeadingWhitespace(s)..];
    u[..|u| - TrailingWhitespace(u)]
  }

  /** `!s.trim()`: the trimmed string is empty, hence falsy; that is, every
      character of `s` is whitespace. */
  function IsBlank(s: string): (blank: bool)
    ensures blank <==> forall i :: 0 <= i < |s| ==> IsWhitespace(s[i])
  {
    TrimEmptyIffAllWhitespace(s);
    Trim(s) == ""
  }

  /** Trimming leaves nothing exactly when every character is whitespace. */
  lemma TrimEmptyIffAllWhitespace(s: string)
    ensures Trim(s) == "" <==> forall i :: 0 <= i < |s| ==> IsWhitespace(s[i])
  {
    if forall i :: 0 <= i < |s| ==> IsWhitespace(s[i]) {
      assert LeadingWhitespace(s) == |s|;
    }
  }

  /** `s.split([sep])`: the maximal runs of `s` between occurrences of `sep`.
      There is always at least one part, and no part contains the separator. */
  function Split(s: string, sep: char): (parts: seq<string>)
    ensures |parts| >= 1
    ensures forall i :: 0 <= i < |parts| ==> sep !in parts[i]
    decreases |s|
  {
    if |s| == 0 then [""]
    else
      var rest := Split(s[1..], sep);
      if s[0] == sep then [""] + rest
      else [[s[0]] + rest[0]] + rest[1..]
  }

  /** `parts.join(sep)`: the parts with `sep` between consecutive ones; the
      empty array joins to the empty string. */
  function Join(parts: seq<string>, sep: char): (joined: string)
    ensures |parts| >= 1 ==> |joined| >= |parts[0]| && joined[..|parts[0]|] == parts[0]
    ensures |parts| >= 2 ==> |joined| > |parts[0]| && joined[|parts[0]|] == sep
    decreases |parts|
  {
    if |parts| == 0 then ""
    else if |parts| == 1 then parts[0]
    else parts[0] + [sep] + Join(parts[1..], sep)
  }

  /** `join` undoes `split`. */
  lemma {:induction false} JoinSplit(s: string, sep: char)
    ensures Join(Split(s, sep), sep) == s
    decreases |s|
  {
    if |s| > 0 {
      var rest := Split(s[1..], sep);
      JoinSplit(s[1..], sep);
      if s[0] == sep {
        assert Split(s, sep) == [""] + rest;
        assert ([""] + rest)[1..] == rest;
      } else {
        JoinConsChar(s[0], rest, sep);
      }
    }
  }

  /** `split` undoes `join`, when no part contains the separator. */
  lemma {:induction false} SplitJoin(parts: seq<string>, sep: char)
    requires |parts| >= 1
    requires forall i :: 0 <= i < |parts| ==> sep !in parts[i]
    ensures Split(Join(parts, sep), sep) == parts
    decreases |parts|, |parts[0]|
  {
    var p := parts[0];
    if |p| == 0 {
      if |parts| > 1 {
        SplitJoin(parts[1..], sep);
        var j := Join(parts, sep);
        assert j == [sep] + Join(parts[1..], sep);
        assert j[1..] == Join(parts[1..], sep);
        assert [""] + parts[1..] == parts;
      }
    } else {
      var tail := [p[1..]] + parts[1..];
      assert tail[1..] == parts[1..];
      assert sep !in p[1..] by {
        forall k | 0 <= k < |p[1..]| ensures p[1..][k] != sep {
          assert p[1..][k] == p[k + 1];
        }
      }
      SplitJoin(tail, sep);
      JoinConsChar(p[0], tail, sep);
      var j := Join(parts, sep);
      assert [p[0]] + p[1..] == p;
      assert [p[0]] + Join(tail, sep) == j;
      assert j[0] == p[0] && j[1..] == Join(tail, sep);
      assert [[p[0]] + tail[0]] + tail[1..] == parts;
    }
  }

  /** Prefixing a character to the first part prefixes it to the join. */
  lemma JoinConsChar(c: char, parts: seq<string>, sep: char)
    requires |parts| >= 1
    ensures Join([[c] + parts[0]] + parts[1..], sep) == [c] + Join(parts, sep)
  {
    var q := [[c] + parts[0]] + parts[1..];
    assert q[1..] == parts[1..];
  }

  /** Joining all parts is joining all but the last, then a separator, then
      the last part. */
  lemma {:induction false} JoinDropLast(parts: seq<string>, sep: char)
    requires |parts| >= 2
    ensures Join(parts, sep) == Join(parts[..|parts| - 1], sep) + [sep] + parts[|parts| - 1]
    decreases |parts|
  {
    if |parts| > 2 {
      JoinDropLast(parts[1..], sep);
      assert parts[1..][..|parts| - 2] == parts[..|parts| - 1][1..];
    } else {
      assert parts[..1] == [parts[0]];
    }
  }

  /** Everything before the last occurrence of `sep`, or the empty string
      when there is none: `s.split(sep).slice(0, -1).join(sep)`. */
  function BeforeLast(s: string, sep: char): (b: string)
    ensures sep !in s ==> b == ""
    ensures sep in s ==>
      |b| < |s| && b == s[..|b|] && s[|b|] == sep && sep !in s[|b| + 1..]
  {
    DropLastPartIsPrefixToLastSeparator(s, sep);
    var parts := Split(s, sep);
    Join(parts[..|parts| - 1], sep)
  }

  /** Splitting, dropping the last part and rejoining gives the prefix of
      `s` up to its last separator, or "" when there is no separator. */
  lemma DropLastPartIsPrefixToLastSeparator(s: string, sep: char)
    ensures var parts := Split(s, sep);
      var b := Join(parts[..|parts| - 1], sep);
      && (sep !in s ==> b == "")
      && (sep in s ==>
            |b| < |s| && b == s[..|b|] && s[|b|] == sep && sep !in s[|b| + 1..])
  {
    var parts := Split(s, sep);
    var b := Join(parts[..|parts| - 1], sep);
    if |parts| == 1 {
      assert s == parts[0] by {
        JoinSplit(s, sep);
      }
      assert b == "";
    } else {
      var last := parts[|parts| - 1];
      assert s == b + [sep] + last by {
        JoinSplit(s, sep);
        JoinDropLast(parts, sep);
      }
      assert sep !in last;
      assert s[..|b|] == b;
      assert s[|b|] == sep;
      assert s[|b| + 1..] == last;
    }
  }
}
