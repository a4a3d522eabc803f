/**
  The JavaScript string operations the services rely on, written out over `seq<char>`:
  `indexOf`, `split`/`join` with a non-empty separator, `trim`, `toLowerCase`, and the
  decimal rendering and parsing of non-negative integers.
 */
module Text {

  /** `p` occurs in `s` at index `i`. */
  predicate OccursAt(s: string, p: string, i: nat)
  {
    i + |p| <= |s| && s[i..i + |p|] == p
  }

  /** `p` occurs somewhere in `s` (`s.indexOf(p) > -1`). */
  predicate Contains(s: string, p: string)
  {
    exists i | 0 <= i <= |s| :: OccursAt(s, p, i)
  }

  /** First index at or after `from` where `p` occurs, or -1. */
  function IndexFrom(s: string, p: string, from: nat): (r: int)
    requires from <= |s|
    ensures r == -1 || (from <= r <= |s| && OccursAt(s, p, r))
    ensures r == -1 ==> forall k | from <= k <= |s| :: !OccursAt(s, p, k)
    ensures r >= 0 ==> forall k | from <= k < r :: !OccursAt(s, p, k)
    decreases |s| - from
  {
    if OccursAt(s, p, from) then from
    else if from == |s| then -1
    else IndexFrom(s, p, from + 1)
  }

  /** `s.indexOf(p)`: the first index where `p` occurs, or -1 when it does not occur. */
  function IndexOf(s: string, p: string): (r: int)
    ensures r == -1 <==> !Contains(s, p)
    ensures r >= 0 ==> OccursAt(s, p, r) && forall k | 0 <= k < r :: !OccursAt(s, p, k)
  {
    IndexFrom(s, p, 0)
  }

  /**
    `s.split(sep)` for a non-empty separator: the parts between the leftmost
    non-overlapping occurrences of `sep`, scanning from the left.
   */
  function Split(s: string, sep: string): (parts: seq<string>)
    requires |sep| > 0
    ensures |parts| >= 1
    decreases |s|
  {
    if |s| < |sep| then [s]
    else if s[..|sep|] == sep then [""] + Split(s[|sep|..], sep)
    else
      var rest := Split(s[1..], sep);
      [[s[0]] + rest[0]] + rest[1..]
  }

  /** `parts.join(glue)`. */
  function Join(parts: seq<string>, glue: string): string
  {
    if |parts| == 0 then ""
    else if |parts| == 1 then parts[0]
    else parts[0] + glue + Join(parts[1..], glue)
  }

  /** `s.split(p).join(v)`: replace every occurrence of `p`, left to right. */
  function ReplaceAll(s: string, p: string, v: string): string
    requires |p| > 0
  {
    Join(Split(s, p), v)
  }

  /** Gluing a character onto the first part glues it onto the whole join. */
  lemma JoinExtendHead(c: char, parts: seq<string>, glue: string)
    requires |parts| >= 1
    ensures Join([[c] + parts[0]] + parts[1..], glue) == [c] + Join(parts, glue)
  {
    var extended := [[c] + parts[0]] + parts[1..];
    if |parts| > 1 {
      assert extended[1..] == parts[1..];
    }
  }

  /** Joining the parts of a split with the separator gives the string back. */
  lemma {:induction false} JoinSplit(s: string, sep: string)
    requires |sep| > 0
    ensures Join(Split(s, sep), sep) == s
    decreases |s|
  {
    if |s| < |sep| {
    } else if s[..|sep|] == sep {
      var tail := s[|sep|..];
      JoinSplit(tail, sep);
      assert ([""] + Split(tail, sep))[1..] == Split(tail, sep);
      assert s == s[..|sep|] + tail;
    } else {
      JoinSplit(s[1..], sep);
      JoinExtendHead(s[0], Split(s[1..], sep), sep);
      assert s == [s[0]] + s[1..];
    }
  }

  /** When the separator does not occur, the split is the whole string. */
  lemma {:induction false} SplitWithoutOccurrence(s: string, sep: string)
    requires |sep| > 0
    requires !Contains(s, sep)
    ensures Split(s, sep) == [s]
    decreases |s|
  {
    if |s| < |sep| {
    } else {
      assert !OccursAt(s, sep, 0);
      assert s[..|sep|] != sep;
      forall i | 0 <= i <= |s[1..]| ensures !OccursAt(s[1..], sep, i) {
        assert !OccursAt(s, sep, i + 1);
        if i + |sep| <= |s[1..]| {
          assert s[1..][i..i + |sep|] == s[i + 1..i + 1 + |sep|];
        }
      }
      SplitWithoutOccurrence(s[1..], sep);
      assert [s[0]] + s[1..] == s;
    }
  }

  /** No part of a split contains the separator. */
  lemma {:induction false} SplitPartsAvoidSeparator(s: string, sep: string)
    requires |sep| > 0
    ensures forall k | 0 <= k < |Split(s, sep)| :: !Contains(Split(s, sep)[k], sep)
    decreases |s|
  {
    if |s| < |sep| {
      forall i | 0 <= i <= |s| ensures !OccursAt(s, sep, i) { }
    } else if s[..|sep|] == sep {
      SplitPartsAvoidSeparator(s[|sep|..], sep);
      var parts := Split(s, sep);
      forall k | 0 <= k < |parts| ensures !Contains(parts[k], sep) {
        if k == 0 {
          assert parts[0] == "";
          forall i | 0 <= i <= 0 ensures !OccursAt(parts[0], sep, i) { }
        } else {
          assert parts[k] == Split(s[|sep|..], sep)[k - 1];
        }
      }
    } else {
      var rest := Split(s[1..], sep);
      SplitPartsAvoidSeparator(s[1..], sep);
      var parts := Split(s, sep);
      var first := [s[0]] + rest[0];
      assert parts[0] == first;
      if |sep| <= |first| {
        PrefixOfSplitHead(s, sep);
        assert first[..|sep|] == s[..|sep|];
      }
      ConsAvoidsSeparator(s[0], rest[0], sep);
      forall k | 0 <= k < |parts| ensures !Contains(parts[k], sep) {
        if k > 0 {
          assert parts[k] == rest[k];
        }
      }
    }
  }

  /** A character put before a string free of the separator, where the separator does not start, leaves it free. */
  lemma ConsAvoidsSeparator(c: char, tail: string, sep: string)
    requires |sep| > 0 && !Contains(tail, sep)
    requires |sep| <= 1 + |tail| ==> ([c] + tail)[..|sep|] != sep
    ensures !Contains([c] + tail, sep)
  {
    var first := [c] + tail;
    forall i | 0 <= i <= |first| ensures !OccursAt(first, sep, i) {
      if i > 0 {
        assert !OccursAt(tail, sep, i - 1);
        if i + |sep| <= |first| {
          assert first[i..i + |sep|] == tail[i - 1..i - 1 + |sep|];
        }
      }
    }
  }

  /** The first part of a split is a prefix of the string. */
  lemma {:induction false} PrefixOfSplitHead(s: string, sep: string)
    requires |sep| > 0
    ensures |Split(s, sep)[0]| <= |s| && Split(s, sep)[0] == s[..|Split(s, sep)[0]|]
    decreases |s|
  {
    if |s| < |sep| {
    } else if s[..|sep|] == sep {
    } else {
      PrefixOfSplitHead(s[1..], sep);
    }
  }

  /** Splitting on a character that a prefix avoids cuts that prefix off whole. */
  lemma {:induction false} SplitAfterFreePrefix(a: string, c: char, b: string)
    requires c !in a
    ensures Split(a + [c] + b, [c]) == [a] + Split(b, [c])
    decreases |a|
  {
    var s := a + [c] + b;
    if |a| == 0 {
      assert s[..1] == [c];
      assert s[1..] == b;
    } else {
      assert s[..1] != [c] by { assert s[0] == a[0]; }
      assert s[1..] == a[1..] + [c] + b;
      SplitAfterFreePrefix(a[1..], c, b);
      assert [s[0]] + a[1..] == a;
    }
  }

  /** Splitting a string that avoids the separator character gives the string alone. */
  lemma {:induction false} SplitFree(a: string, c: char)
    requires c !in a
    ensures Split(a, [c]) == [a]
    decreases |a|
  {
    if |a| == 0 {
    } else {
      assert a[..1] != [c] by { assert a[0] != c; }
      SplitFree(a[1..], c);
      assert [a[0]] + a[1..] == a;
    }
  }

  /** A string ending in the separator, with no earlier start of it, splits into the prefix and "". */
  lemma {:induction false} SplitAtTrailingSeparator(prefix: string, sep: string)
    requires |sep| > 0 && sep[0] !in prefix
    ensures Split(prefix + sep, sep) == [prefix, ""]
    decreases |prefix|
  {
    var s := prefix + sep;
    if |prefix| == 0 {
      assert s == sep && s[..|sep|] == sep && s[|sep|..] == "";
    } else {
      assert s[..|sep|] != sep by { assert s[0] == prefix[0]; }
      assert s[1..] == prefix[1..] + sep;
      SplitAtTrailingSeparator(prefix[1..], sep);
      assert [s[0]] + prefix[1..] == prefix;
    }
  }

  /** Splitting lines joined with a newline gives the lines back, when no line holds a newline. */
  lemma {:induction false} SplitJoinLines(lines: seq<string>)
    requires |lines| >= 1
    requires forall k | 0 <= k < |lines| :: '\n' !in lines[k]
    ensures Split(Join(lines, "\n"), "\n") == lines
    decreases |lines|
  {
    if |lines| == 1 {
      SplitFree(lines[0], '\n');
    } else {
      SplitJoinLines(lines[1..]);
      assert Join(lines, "\n") == lines[0] + ['\n'] + Join(lines[1..], "\n");
      SplitAfterFreePrefix(lines[0], '\n', Join(lines[1..], "\n"));
      assert [lines[0]] + lines[1..] == lines;
    }
  }

  /**
    Splitting joined lines on the newline gives back the first lines unchanged,
    up to and including line `k`, when none of those holds a newline and at
    least one line follows them.
   */
  lemma {:induction false} SplitJoinLeadingLines(lines: seq<string>, k: nat)
    requires k + 1 < |lines|
    requires forall i | 0 <= i <= k :: '\n' !in lines[i]
    ensures |Split(Join(lines, "\n"), "\n")| > k
    ensures Split(Join(lines, "\n"), "\n")[..k + 1] == lines[..k + 1]
    decreases k
  {
    assert Join(lines, "\n") == lines[0] + ['\n'] + Join(lines[1..], "\n");
    SplitAfterFreePrefix(lines[0], '\n', Join(lines[1..], "\n"));
    var parts := Split(Join(lines, "\n"), "\n");
    assert parts == [lines[0]] + Split(Join(lines[1..], "\n"), "\n");
    if k > 0 {
      SplitJoinLeadingLines(lines[1..], k - 1);
      assert lines[1..][..k] == lines[1..k + 1];
      assert parts[..k + 1] == [lines[0]] + Split(Join(lines[1..], "\n"), "\n")[..k];
      assert lines[..k + 1] == [lines[0]] + lines[1..k + 1];
    }
  }

  /** Every part of a split draws its characters from the string. */
  lemma {:induction false} SplitPartsAvoidChar(s: string, sep: string, c: char)
    requires |sep| > 0 && c !in s
    ensures forall k | 0 <= k < |Split(s, sep)| :: c !in Split(s, sep)[k]
    decreases |s|
  {
    if |s| < |sep| {
    } else if s[..|sep|] == sep {
      SplitPartsAvoidChar(s[|sep|..], sep, c);
      var parts := Split(s, sep);
      forall k | 0 <= k < |parts| ensures c !in parts[k] {
        if k > 0 {
          assert parts[k] == Split(s[|sep|..], sep)[k - 1];
        }
      }
    } else {
      var rest := Split(s[1..], sep);
      SplitPartsAvoidChar(s[1..], sep, c);
      var parts := Split(s, sep);
      forall k | 0 <= k < |parts| ensures c !in parts[k] {
        if k == 0 {
          assert parts[0] == [s[0]] + rest[0];
        } else {
          assert parts[k] == rest[k];
        }
      }
    }
  }

  /** A string without the first character of `p` does not contain `p`. */
  lemma AvoidsFirstChar(s: string, p: string)
    requires |p| > 0 && p[0] !in s
    ensures !Contains(s, p)
  {
    forall i | 0 <= i <= |s| ensures !OccursAt(s, p, i) {
      if i + |p| <= |s| {
        assert s[i..i + |p|][0] == s[i];
        assert s[i] in s;
      }
    }
  }

  /** ECMAScript WhiteSpace and LineTerminator: what `String.prototype.trim` removes. */
  predicate IsJsSpace(c: char)
  {
    c == '\t' || c == '\n' || c == '\U{000B}' || c == '\U{000C}' || c == '\r' || c == ' '
    || c == '\U{00A0}' || c == '\U{1680}' || ('\U{2000}' <= c <= '\U{200A}')
    || c == '\U{2028}' || c == '\U{2029}' || c == '\U{202F}' || c == '\U{205F}'
    || c == '\U{3000}' || c == '\U{FEFF}'
  }

  /** `s.trimStart()`: the longest run of blanks at the front is removed, and nothing else. */
  function TrimStart(s: string): (r: string)
    ensures |r| <= |s| && r == s[|s| - |r|..]
    ensures forall i | 0 <= i < |s| - |r| :: IsJsSpace(s[i])
    ensures |r| > 0 ==> !IsJsSpace(r[0])
  {
    if |s| > 0 && IsJsSpace(s[0]) then
      var r := TrimStart(s[1..]);
      assert forall i | 1 <= i < |s| - |r| :: s[i] == s[1..][i - 1];
      r
    else s
  }

  /** `s.trimEnd()`: the longest run of blanks at the back is removed, and nothing else. */
  function TrimEnd(s: string): (r: string)
    ensures |r| <= |s| && r == s[..|r|]
    ensures forall i | |r| <= i < |s| :: IsJsSpace(s[i])
    ensures |r| > 0 ==> !IsJsSpace(r[|r| - 1])
  {
    if |s| > 0 && IsJsSpace(s[|s| - 1]) then
      var r := TrimEnd(s[..|s| - 1]);
      assert forall i | |r| <= i < |s| - 1 :: s[i] == s[..|s| - 1][i];
      r
    else s
  }

  /** `s.trim()`. */
  function Trim(s: string): string
  {
    TrimEnd(TrimStart(s))
  }

  /** Leading blanks before a string that starts with a non-blank are what `trimStart` removes. */
  lemma {:induction false} TrimStartIndented(indent: nat, body: string)
    requires |body| > 0 && !IsJsSpace(body[0])
    ensures TrimStart(seq(indent, _ => ' ') + body) == body
    decreases indent
  {
    var s := seq(indent, _ => ' ') + body;
    if indent > 0 {
      assert s[0] == ' ';
      assert s[1..] == seq(indent - 1, _ => ' ') + body;
      TrimStartIndented(indent - 1, body);
    } else {
      assert s == body;
    }
  }

  /** Leading blanks followed by a string that starts and ends with non-blanks trim to that string. */
  lemma TrimIndented(indent: nat, body: string)
    requires |body| > 0 && !IsJsSpace(body[0]) && !IsJsSpace(body[|body| - 1])
    ensures Trim(seq(indent, _ => ' ') + body) == body
  {
    TrimStartIndented(indent, body);
  }

  /**
    `toLowerCase` on one character, for Basic Latin and Latin-1 capitals
    (A-Z and À-Þ except ×); every other character is kept as it is.
   */
  function LowerChar(c: char): char
  {
    if IsCapital(c) then (c as int + 32) as char else c
  }

  /** The capitals `LowerChar` lowers: A-Z and À-Þ except ×. */
  predicate IsCapital(c: char)
  {
    'A' <= c <= 'Z' || ('À' <= c <= 'Þ' && c != '×')
  }

  /**
    `s.toLowerCase()`, character by character: every capital becomes the small
    letter 32 code points after it, every other character (digits, punctuation,
    small letters) is kept, and no capital is left.
   */
  function Lower(s: string): (r: string)
    ensures |r| == |s|
    ensures forall i | 0 <= i < |s| && IsCapital(s[i]) :: r[i] as int == s[i] as int + 32
    ensures forall i | 0 <= i < |s| && !IsCapital(s[i]) :: r[i] == s[i]
    ensures forall i | 0 <= i < |s| :: !IsCapital(r[i])
    ensures forall i | 0 <= i < |s| :: IsDigit(r[i]) <==> IsDigit(s[i])
  {
    seq(|s|, i requires 0 <= i < |s| => LowerChar(s[i]))
  }

  /** Lowering twice is lowering once. */
  lemma LowerIdempotent(s: string)
    ensures Lower(Lower(s)) == Lower(s)
  {
  }

  /** An ASCII decimal digit (what `\d` matches). */
  predicate IsDigit(c: char)
  {
    '0' <= c <= '9'
  }

  function DigitChar(d: nat): (c: char)
    requires d < 10
    ensures IsDigit(c)
  {
    ('0' as int + d) as char
  }

  /** `String(n)` for a non-negative integer: decimal digits without leading zeros. */
  function NatText(n: nat): (r: string)
    ensures |r| >= 1
    ensures forall i | 0 <= i < |r| :: IsDigit(r[i])
    ensures n > 0 ==> r[0] != '0'
  {
    if n < 10 then [DigitChar(n)] else NatText(n / 10) + [DigitChar(n % 10)]
  }

  /** The value of a run of decimal digits (`parseInt(run, 10)`, without the limit of a double). */
  function DigitsValue(ds: string): nat
    requires forall i | 0 <= i < |ds| :: IsDigit(ds[i])
  {
    if |ds| == 0 then 0
    else
      assert IsDigit(ds[|ds| - 1]);
      10 * DigitsValue(ds[..|ds| - 1]) + (ds[|ds| - 1] as int - '0' as int)
  }

  /** Parsing the decimal text of a number gives the number back. */
  lemma {:induction false} DigitsValueOfNatText(n: nat)
    ensures DigitsValue(NatText(n)) == n
  {
    if n >= 10 {
      var t := NatText(n);
      DigitsValueOfNatText(n / 10);
      assert t[..|t| - 1] == NatText(n / 10);
    }
  }
}
