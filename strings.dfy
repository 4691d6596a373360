/** The string operations the generators rely on: `joined(separator:)`, ASCII
    `lowercased()`, and left-to-right removal of every occurrence of a pattern
    (`replacing(_:with: "")` and `replacingOccurrences(of:with: "")`). */
module Strings {

  /** `parts.joined(separator: sep)`. */
  function JoinWith(parts: seq<string>, sep: string): string
    decreases |parts|
  {
    if |parts| == 0 then ""
    else if |parts| == 1 then parts[0]
    else parts[0] + sep + JoinWith(parts[1..], sep)
  }

  /** Joining two non-empty lists puts exactly one separator between their joins. */
  lemma {:induction false} JoinWithAppend(a: seq<string>, b: seq<string>, sep: string)
    requires a != [] && b != []
    ensures JoinWith(a + b, sep) == JoinWith(a, sep) + sep + JoinWith(b, sep)
    decreases |a|
  {
    if |a| == 1 {
      assert (a + b)[1..] == b;
    } else {
      assert (a + b)[1..] == a[1..] + b;
      JoinWithAppend(a[1..], b, sep);
    }
  }

  /** A join of a non-empty list whose first part is non-empty is non-empty. */
  lemma JoinWithNonEmpty(parts: seq<string>, sep: string)
    requires parts != [] && parts[0] != ""
    ensures JoinWith(parts, sep) != ""
  {
    var r := JoinWith(parts, sep);
    assert r[..|parts[0]|] == parts[0];
  }

  /** A multi-line text literal: its lines separated by line feeds, no final line feed. */
  function Unlines(lines: seq<string>): string
  {
    JoinWith(lines, "\n")
  }

  /** Cuts a text at every line feed. */
  function SplitLines(s: string): (lines: seq<string>)
    ensures |lines| >= 1
    decreases |s|
  {
    if s == [] then [""]
    else
      var rest := SplitLines(s[1..]);
      if s[0] == '\n' then [""] + rest else [[s[0]] + rest[0]] + rest[1..]
  }

  lemma {:induction false} SplitLinesNoBreak(a: string)
    requires '\n' !in a
    ensures SplitLines(a) == [a]
    decreases |a|
  {
    if a != [] {
      assert '\n' !in a[1..];
      SplitLinesNoBreak(a[1..]);
      assert [a[0]] + a[1..] == a;
    }
  }

  lemma {:induction false} SplitLinesAtBreak(a: string, b: string)
    requires '\n' !in a
    ensures SplitLines(a + "\n" + b) == [a] + SplitLines(b)
    decreases |a|
  {
    if a == [] {
      assert a + "\n" + b == "\n" + b;
      assert ("\n" + b)[1..] == b;
    } else {
      assert '\n' !in a[1..];
      assert (a + "\n" + b)[1..] == a[1..] + "\n" + b;
      SplitLinesAtBreak(a[1..], b);
      assert [a[0]] + a[1..] == a;
    }
  }

  /** Splitting a rendered text at its line feeds gives back its lines, when no
      line holds a line feed of its own. */
  lemma {:induction false} SplitUnlines(lines: seq<string>)
    requires lines != []
    requires forall k :: 0 <= k < |lines| ==> '\n' !in lines[k]
    ensures SplitLines(Unlines(lines)) == lines
    decreases |lines|
  {
    if |lines| == 1 {
      SplitLinesNoBreak(lines[0]);
    } else {
      SplitUnlines(lines[1..]);
      SplitLinesAtBreak(lines[0], Unlines(lines[1..]));
      assert [lines[0]] + lines[1..] == lines;
    }
  }

  /** ASCII lower-casing of one character. */
  function LowerChar(c: char): char
  {
    if 'A' <= c <= 'Z' then (c as int + 32) as char else c
  }

  /** `lowercased()`, restricted to ASCII letters. */
  function ToLower(s: string): string
  {
    seq(|s|, i requires 0 <= i < |s| => LowerChar(s[i]))
  }

  /** Lower-casing keeps the length, leaves no upper-case ASCII letter, and is idempotent. */
  lemma ToLowerProperties(s: string)
    ensures |ToLower(s)| == |s|
    ensures forall i :: 0 <= i < |s| ==> !('A' <= ToLower(s)[i] <= 'Z')
    ensures ToLower(ToLower(s)) == ToLower(s)
  {
  }

  /** `pat` occurs in `s` starting at index `i`. */
  predicate OccursAt(s: string, pat: string, i: nat)
  {
    i + |pat| <= |s| && s[i..i + |pat|] == pat
  }

  predicate Contains(s: string, pat: string)
  {
    exists i: nat | i <= |s| :: OccursAt(s, pat, i)
  }

  /** No proper prefix of `pat` is also a suffix of it, so two occurrences can never overlap. */
  predicate BorderFree(pat: string)
  {
    forall k :: 0 < k < |pat| ==> pat[..k] != pat[|pat| - k..]
  }

  /** `line` stands on a line of its own somewhere in `text`: it starts the text or
      follows a line feed, and it ends the text or is followed by one. When `line`
      itself holds line feeds, its lines appear in `text` one after the other. */
  predicate HasLine(text: string, line: string)
  {
    exists i: nat | i <= |text| ::
      && OccursAt(text, line, i)
      && (i == 0 || text[i - 1] == '\n')
      && (i + |line| == |text| || text[i + |line|] == '\n')
  }

  lemma HasLineAfter(first: string, rest: string, line: string)
    requires HasLine(rest, line)
    ensures HasLine(first + "\n" + rest, line)
  {
    var text := first + "\n" + rest;
    var j: nat :| j <= |rest| && OccursAt(rest, line, j)
                  && (j == 0 || rest[j - 1] == '\n')
                  && (j + |line| == |rest| || rest[j + |line|] == '\n');
    var i := |first| + 1 + j;
    assert text[i..i + |line|] == rest[j..j + |line|];
    assert text[i - 1] == if j == 0 then '\n' else rest[j - 1];
    assert OccursAt(text, line, i);
  }

  /** Every line of a multi-line text literal is a line of the text. */
  lemma {:induction false} UnlinesHasLine(lines: seq<string>, k: nat)
    requires k < |lines|
    ensures HasLine(Unlines(lines), lines[k])
    decreases |lines|
  {
    var text := Unlines(lines);
    if |lines| == 1 {
      assert OccursAt(text, lines[k], 0);
    } else if k == 0 {
      assert text == lines[0] + "\n" + Unlines(lines[1..]);
      assert text[..|lines[0]|] == lines[0];
      assert OccursAt(text, lines[k], 0);
    } else {
      UnlinesHasLine(lines[1..], k - 1);
      HasLineAfter(lines[0], Unlines(lines[1..]), lines[k]);
    }
  }

  /** A line in the middle part of a text assembled from three runs of lines. */
  lemma UnlinesHasMiddleLine(pre: seq<string>, mid: seq<string>, post: seq<string>, k: nat)
    requires k < |mid|
    ensures HasLine(Unlines(pre + mid + post), mid[k])
  {
    UnlinesHasLine(pre + mid + post, |pre| + k);
    assert (pre + mid + post)[|pre| + k] == mid[k];
  }

  lemma UnlinesPair(a: string, b: string)
    ensures Unlines([a, b]) == a + "\n" + b
  {
    assert [a, b][1..] == [b];
    assert JoinWith([b], "\n") == b;
    assert JoinWith([a, b], "\n") == a + "\n" + JoinWith([b], "\n");
  }

  /** A run of consecutive lines of a multi-line text literal stands on lines of its
      own in the text. */
  lemma {:induction false} UnlinesHasRun(lines: seq<string>, k: nat, j: nat)
    requires k < j <= |lines|
    ensures HasLine(Unlines(lines), Unlines(lines[k..j]))
    decreases |lines|
  {
    var text := Unlines(lines);
    if k == 0 {
      var run := Unlines(lines[..j]);
      if j < |lines| {
        JoinWithAppend(lines[..j], lines[j..], "\n");
        assert lines[..j] + lines[j..] == lines;
        assert text == run + "\n" + Unlines(lines[j..]);
        assert text[..|run|] == run;
        assert text[|run|] == '\n';
      } else {
        assert lines[..j] == lines;
      }
      assert lines[k..j] == lines[..j];
      assert OccursAt(text, run, 0);
    } else {
      UnlinesHasRun(lines[1..], k - 1, j - 1);
      assert lines[1..][k - 1..j - 1] == lines[k..j];
      HasLineAfter(lines[0], Unlines(lines[1..]), Unlines(lines[k..j]));
    }
  }

  /** A text lacking one of the pattern's characters does not contain the pattern. */
  lemma ContainsNeedsChar(s: string, pat: string, c: char)
    requires c in pat && c !in s
    ensures !Contains(s, pat)
  {
    var k :| 0 <= k < |pat| && pat[k] == c;
    forall i: nat | i <= |s| ensures !OccursAt(s, pat, i) {
      if i + |pat| <= |s| {
        assert s[i + k] in s;
        assert s[i..i + |pat|][k] != pat[k];
      }
    }
  }

  /** Texts that end alike are equal when what comes before the common end is. */
  lemma SameSuffixCancels(a: string, b: string, c: string)
    requires a + c == b + c
    ensures a == b
  {
    assert |a| == |b|;
    assert a == (a + c)[..|a|];
    assert b == (b + c)[..|b|];
  }

  /** Scans left to right and deletes every non-overlapping occurrence of `pat`. */
  function RemoveAll(s: string, pat: string): string
    requires pat != []
    decreases |s|
  {
    if |s| < |pat| then s
    else if s[..|pat|] == pat then RemoveAll(s[|pat|..], pat)
    else [s[0]] + RemoveAll(s[1..], pat)
  }

  /** A text without the pattern comes back unchanged. */
  lemma {:induction false} RemoveAllAbsent(s: string, pat: string)
    requires pat != [] && !Contains(s, pat)
    ensures RemoveAll(s, pat) == s
    decreases |s|
  {
    if |s| >= |pat| {
      assert !OccursAt(s, pat, 0);
      forall i: nat | OccursAt(s[1..], pat, i) ensures OccursAt(s, pat, i + 1) {
        assert s[i + 1..i + 1 + |pat|] == s[1..][i..i + |pat|];
      }
      RemoveAllAbsent(s[1..], pat);
      assert [s[0]] + s[1..] == s;
    }
  }

  /** With a border-free pattern, a non-empty head free of it cannot start an occurrence
      that reaches into the pattern behind it. */
  lemma NoOccurrenceAtHead(a: string, pat: string, b: string)
    requires pat != [] && BorderFree(pat) && !Contains(a, pat) && a != []
    ensures |a + pat + b| >= |pat| && (a + pat + b)[..|pat|] != pat
  {
    var s := a + pat + b;
    if |a| >= |pat| {
      assert a[0..|pat|] == s[..|pat|];
      assert !OccursAt(a, pat, 0);
    } else {
      // a window starting inside `a` and ending inside `pat` would be a border of `pat`
      var k := |pat| - |a|;
      assert pat[..k] != pat[|pat| - k..];
      assert s[|a|..|pat|] == pat[..k];
    }
  }

  /** The first occurrence is deleted wherever it stands, and the scan goes on after it:
      for a border-free pattern and a head free of it, only the head survives
      in front of what the rest becomes. */
  lemma {:induction false} RemoveAllSplit(a: string, pat: string, b: string)
    requires pat != [] && BorderFree(pat) && !Contains(a, pat)
    ensures RemoveAll(a + pat + b, pat) == a + RemoveAll(b, pat)
    decreases |a|
  {
    var s := a + pat + b;
    if a == [] {
      assert s == pat + b;
      assert s[..|pat|] == pat && s[|pat|..] == b;
    } else {
      NoOccurrenceAtHead(a, pat, b);
      assert RemoveAll(s, pat) == [s[0]] + RemoveAll(s[1..], pat);
      forall i: nat | OccursAt(a[1..], pat, i) ensures OccursAt(a, pat, i + 1) {
        assert a[i + 1..i + 1 + |pat|] == a[1..][i..i + |pat|];
      }
      assert s[1..] == a[1..] + pat + b;
      RemoveAllSplit(a[1..], pat, b);
      assert [a[0]] + a[1..] == a;
    }
  }

  /** Deleting never introduces a character that was not there. */
  lemma {:induction false} RemoveAllKeepsOut(s: string, pat: string, c: char)
    requires pat != [] && c !in s
    ensures c !in RemoveAll(s, pat)
    decreases |s|
  {
    if |s| >= |pat| {
      if s[..|pat|] == pat {
        assert c !in s[|pat|..];
        RemoveAllKeepsOut(s[|pat|..], pat, c);
      } else {
        assert c !in s[1..];
        RemoveAllKeepsOut(s[1..], pat, c);
      }
    }
  }
}
