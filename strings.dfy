/** String operations the policy builder relies on: the global newline
    replacement applied to the policy before it becomes a header value, and
    the line structure of a multi-line template literal. */
module Strings {

  /** Number of occurrences of `c` in `s`. */
  function Count(s: string, c: char): (n: nat)
    ensures n <= |s|
    ensures n == 0 <==> c !in s
  {
    if s == [] then 0 else (if s[0] == c then 1 else 0) + Count(s[1..], c)
  }

  lemma {:induction false} CountAppend(a: string, b: string, c: char)
    ensures Count(a + b, c) == Count(a, c) + Count(b, c)
  {
    if a == [] {
      assert a + b == b;
    } else {
      assert (a + b)[0] == a[0] && (a + b)[1..] == a[1..] + b;
      CountAppend(a[1..], b, c);
    }
  }

  /** `s.replace(/\n/g, '')`: every line feed removed, nothing else touched. */
  function StripNewlines(s: string): (r: string)
    ensures |r| <= |s|
    ensures '\n' !in r
  {
    if s == [] then ""
    else if s[0] == '\n' then StripNewlines(s[1..])
    else [s[0]] + StripNewlines(s[1..])
  }

  /** The result is shorter than the input by exactly the number of line feeds. */
  lemma {:induction false} StripNewlinesLength(s: string)
    ensures |StripNewlines(s)| == |s| - Count(s, '\n')
  {
    if s != [] {
      StripNewlinesLength(s[1..]);
    }
  }

  /** A string without line feeds is left as it is. */
  lemma {:induction false} StripNewlinesFixesNewlineFree(s: string)
    requires '\n' !in s
    ensures StripNewlines(s) == s
  {
    if s != [] {
      StripNewlinesFixesNewlineFree(s[1..]);
    }
  }

  /** Stripping twice is stripping once. */
  lemma StripNewlinesIdempotent(s: string)
    ensures StripNewlines(StripNewlines(s)) == StripNewlines(s)
  {
    StripNewlinesFixesNewlineFree(StripNewlines(s));
  }

  /** Stripping works piecewise: it distributes over concatenation. */
  lemma {:induction false} StripNewlinesAppend(a: string, b: string)
    ensures StripNewlines(a + b) == StripNewlines(a) + StripNewlines(b)
  {
    if a == [] {
      assert a + b == b;
    } else {
      assert (a + b)[0] == a[0] && (a + b)[1..] == a[1..] + b;
      StripNewlinesAppend(a[1..], b);
    }
  }

  /** Every character other than a line feed survives, as often as it occurred. */
  lemma {:induction false} StripNewlinesKeepsOtherChars(s: string, c: char)
    requires c != '\n'
    ensures Count(StripNewlines(s), c) == Count(s, c)
  {
    if s != [] {
      StripNewlinesKeepsOtherChars(s[1..], c);
      if s[0] != '\n' {
        CountAppend([s[0]], StripNewlines(s[1..]), c);
      }
    }
  }

  /** `t` can be obtained from `s` by deleting characters (order is kept). */
  predicate IsSubsequence(t: string, s: string)
    decreases |s|
  {
    if t == [] then true
    else if s == [] then false
    else if t[0] == s[0] then IsSubsequence(t[1..], s[1..])
    else IsSubsequence(t, s[1..])
  }

  /** The surviving characters keep their original order. */
  lemma {:induction false} StripNewlinesKeepsOrder(s: string)
    ensures IsSubsequence(StripNewlines(s), s)
  {
    if s != [] {
      StripNewlinesKeepsOrder(s[1..]);
      if s[0] != '\n' {
        assert ([s[0]] + StripNewlines(s[1..]))[1..] == StripNewlines(s[1..]);
      }
    }
  }

  /** The text of a template literal written as lines: the lines separated by line feeds. */
  function Join(lines: seq<string>): string
  {
    if |lines| == 0 then ""
    else if |lines| == 1 then lines[0]
    else lines[0] + "\n" + Join(lines[1..])
  }

  /** The lines glued together with nothing between them. */
  function Concat(lines: seq<string>): string
  {
    if lines == [] then "" else lines[0] + Concat(lines[1..])
  }

  predicate NewlineFree(lines: seq<string>)
  {
    forall l :: l in lines ==> '\n' !in l
  }

  /** Joining newline-free lines puts exactly one line feed between neighbours. */
  lemma {:induction false} JoinNewlineCount(lines: seq<string>)
    requires |lines| >= 1 && NewlineFree(lines)
    ensures Count(Join(lines), '\n') == |lines| - 1
  {
    if |lines| > 1 {
      assert lines[0] in lines;
      assert Count(lines[0], '\n') == 0;
      CountAppend(lines[0], "\n", '\n');
      CountAppend(lines[0] + "\n", Join(lines[1..]), '\n');
      JoinNewlineCount(lines[1..]);
    }
  }

  /** Removing the line feeds of joined newline-free lines leaves their plain concatenation. */
  lemma {:induction false} StripNewlinesOfJoin(lines: seq<string>)
    requires NewlineFree(lines)
    ensures StripNewlines(Join(lines)) == Concat(lines)
  {
    if |lines| == 1 {
      StripNewlinesFixesNewlineFree(lines[0]);
      assert Concat(lines) == lines[0] + Concat([]);
    } else if |lines| > 1 {
      assert lines[0] in lines;
      StripNewlinesAppend(lines[0] + "\n", Join(lines[1..]));
      StripNewlinesAppend(lines[0], "\n");
      StripNewlinesFixesNewlineFree(lines[0]);
      StripNewlinesOfJoin(lines[1..]);
    }
  }

  /** The lines of `s`: the pieces between line feeds (as `s.split('\n')`). */
  function SplitLines(s: string): (r: seq<string>)
    ensures |r| >= 1
    ensures NewlineFree(r)
  {
    if s == [] then [""]
    else
      var rest := SplitLines(s[1..]);
      if s[0] == '\n' then [""] + rest
      else [[s[0]] + rest[0]] + rest[1..]
  }

  lemma {:induction false} SplitLinesNewlineFree(l: string)
    requires '\n' !in l
    ensures SplitLines(l) == [l]
  {
    if l != [] {
      assert '\n' !in l[1..] by {
        forall c | c in l[1..] ensures c in l { }
      }
      SplitLinesNewlineFree(l[1..]);
      assert [l[0]] + l[1..] == l;
    }
  }

  lemma {:induction false} SplitLinesAfterLine(l: string, rest: string)
    requires '\n' !in l
    ensures SplitLines(l + "\n" + rest) == [l] + SplitLines(rest)
  {
    var s := l + "\n" + rest;
    if l == [] {
      assert s[0] == '\n' && s[1..] == rest;
    } else {
      assert s[0] == l[0] && s[1..] == l[1..] + "\n" + rest;
      SplitLinesAfterLine(l[1..], rest);
      assert [l[0]] + l[1..] == l;
    }
  }

  /** Splitting joined newline-free lines gives the lines back. */
  lemma {:induction false} SplitLinesOfJoin(lines: seq<string>)
    requires |lines| >= 1 && NewlineFree(lines)
    ensures SplitLines(Join(lines)) == lines
  {
    assert lines[0] in lines;
    if |lines| == 1 {
      SplitLinesNewlineFree(lines[0]);
    } else {
      SplitLinesAfterLine(lines[0], Join(lines[1..]));
      SplitLinesOfJoin(lines[1..]);
    }
  }

  /** Joining the lines of a string gives the string back. */
  lemma {:induction false} JoinOfSplitLines(s: string)
    ensures Join(SplitLines(s)) == s
  {
    if s != [] {
      var rest := SplitLines(s[1..]);
      JoinOfSplitLines(s[1..]);
      if s[0] != '\n' {
        var r := SplitLines(s);
        assert r[0] == [s[0]] + rest[0] && r[1..] == rest[1..];
        assert s == [s[0]] + s[1..];
      }
    }
  }

  /** `t` occurs in `s` as a contiguous piece. */
  predicate IsInfix(t: string, s: string)
  {
    exists k :: 0 <= k <= |s| && t <= s[k..]
  }

  /** Each line occurs, unbroken, in the concatenation of the lines. */
  lemma {:induction false} ConcatContainsEach(lines: seq<string>, i: nat)
    requires i < |lines|
    ensures IsInfix(lines[i], Concat(lines))
  {
    var c := Concat(lines);
    var t := lines[i];
    if i == 0 {
      assert c[0..] == t + Concat(lines[1..]);
    } else {
      ConcatContainsEach(lines[1..], i - 1);
      var rest := Concat(lines[1..]);
      var k :| 0 <= k <= |rest| && t <= rest[k..];
      var j := |lines[0]| + k;
      assert c[j..] == rest[k..];
    }
  }
}
