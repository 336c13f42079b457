/** The Python string operations the assistant relies on: `startswith`,
    `in`, `replace`, `strip`, and newline-terminated lines of text. */
module Text {

  /** `s.startswith(p)` */
  predicate HasPrefix(s: string, p: string) {
    |p| <= |s| && s[..|p|] == p
  }

  /** `p in s` */
  predicate Contains(s: string, p: string)
    decreases |s|
  {
    HasPrefix(s, p) || (|s| > 0 && Contains(s[1..], p))
  }

  /** `s.replace(p, r)` for a non-empty `p`: the occurrences of `p` are found
      left to right without overlapping, and each is replaced by `r`. */
  function Replace(s: string, p: string, r: string): (out: string)
    requires |p| > 0
    ensures !Contains(s, p) ==> out == s
    ensures |r| <= |p| ==> |out| <= |s|
    ensures |r| == |p| ==> |out| == |s|
    ensures |p| == 1 && p[0] !in r ==> p[0] !in out
    decreases |s|
  {
    if |s| < |p| then s
    else if s[..|p|] == p then r + Replace(s[|p|..], p, r)
    else [s[0]] + Replace(s[1..], p, r)
  }

  /** `replace` brings in no character that neither the text nor the
      replacement holds. */
  lemma {:induction false} ReplaceAddsNothing(s: string, p: string, r: string, c: char)
    requires |p| > 0 && c !in s && c !in r
    ensures c !in Replace(s, p, r)
    decreases |s|
  {
    if |s| >= |p| {
      if s[..|p|] == p {
        ReplaceAddsNothing(s[|p|..], p, r, c);
      } else {
        ReplaceAddsNothing(s[1..], p, r, c);
      }
    }
  }

  /** The characters `str.isspace` accepts, by code point. */
  predicate IsSpace(c: char) {
    var n := c as int;
    || 9 <= n <= 13
    || 28 <= n <= 32
    || n == 0x85 || n == 0xA0 || n == 0x1680
    || 0x2000 <= n <= 0x200A
    || n == 0x2028 || n == 0x2029 || n == 0x202F || n == 0x205F || n == 0x3000
  }

  /** `s.lstrip()`: the longest suffix of `s` that does not start with whitespace. */
  function LStrip(s: string): (r: string)
    ensures |r| <= |s| && r == s[|s| - |r|..]
    ensures |r| > 0 ==> !IsSpace(r[0])
    ensures forall i :: 0 <= i < |s| - |r| ==> IsSpace(s[i])
    decreases |s|
  {
    if |s| > 0 && IsSpace(s[0]) then
      var r := LStrip(s[1..]);
      assert forall i :: 1 <= i < |s| - |r| ==> s[i] == s[1..][i - 1];
      r
    else s
  }

  /** `s.rstrip()`: the longest prefix of `s` that does not end with whitespace. */
  function RStrip(s: string): (r: string)
    ensures |r| <= |s| && r == s[..|r|]
    ensures |r| > 0 ==> !IsSpace(r[|r| - 1])
    ensures forall i :: |r| <= i < |s| ==> IsSpace(s[i])
    decreases |s|
  {
    if |s| > 0 && IsSpace(s[|s| - 1]) then RStrip(s[..|s| - 1]) else s
  }

  /** Where the text kept by `strip` begins in its argument. */
  function StripStart(s: string): nat {
    |s| - |LStrip(s)|
  }

  /** `s.strip()`: the result is the slice of `s` left after removing every
      leading and every trailing whitespace character, and nothing more. */
  function Strip(s: string): (r: string)
    ensures StripStart(s) + |r| <= |s|
    ensures r == s[StripStart(s)..StripStart(s) + |r|]
    ensures forall i :: 0 <= i < StripStart(s) ==> IsSpace(s[i])
    ensures forall i :: StripStart(s) + |r| <= i < |s| ==> IsSpace(s[i])
    ensures |r| > 0 ==> !IsSpace(r[0]) && !IsSpace(r[|r| - 1])
  {
    var l := LStrip(s);
    var r := RStrip(l);
    KeptSlice(s, l, r, StripStart(s));
    r
  }

  /** A prefix `r` of the suffix `l == s[k..]`, followed in `l` only by
      whitespace, is the slice `s[k..k + |r|]` followed in `s` only by whitespace. */
  lemma KeptSlice(s: string, l: string, r: string, k: nat)
    requires k <= |s| && l == s[k..]
    requires |r| <= |l| && r == l[..|r|]
    requires forall i :: |r| <= i < |l| ==> IsSpace(l[i])
    ensures k + |r| <= |s| && r == s[k..k + |r|]
    ensures forall i :: k + |r| <= i < |s| ==> IsSpace(s[i])
  {
    assert forall i :: k + |r| <= i < |s| ==> s[i] == l[i - k];
  }

  /** Text that already has no whitespace at either end is left alone by `strip`. */
  lemma StripTrimmed(s: string)
    requires |s| > 0 ==> !IsSpace(s[0]) && !IsSpace(s[|s| - 1])
    ensures Strip(s) == s
  {
  }

  lemma StripIdempotent(s: string)
    ensures Strip(Strip(s)) == Strip(s)
  {
    StripTrimmed(Strip(s));
  }

  /** A leading whitespace character is removed by `lstrip`. */
  lemma LStripDropsSpace(c: char, t: string)
    requires IsSpace(c)
    ensures LStrip([c] + t) == LStrip(t)
  {
    assert ([c] + t)[1..] == t;
  }

  /** A trailing whitespace character is removed by `rstrip`. */
  lemma RStripDropsSpace(t: string, c: char)
    requires IsSpace(c)
    ensures RStrip(t + [c]) == RStrip(t)
  {
    assert (t + [c])[..|t|] == t;
  }

  /** Replacing a pattern that does not occur changes nothing. */
  lemma {:induction false} ReplaceWithoutMatch(s: string, p: string, r: string)
    requires |p| > 0 && !Contains(s, p)
    ensures Replace(s, p, r) == s
    decreases |s|
  {
    if |s| >= |p| {
      assert s[..|p|] != p;
      ReplaceWithoutMatch(s[1..], p, r);
      assert [s[0]] + s[1..] == s;
    }
  }

  /** Replacing a single character distributes over concatenation. */
  lemma {:induction false} ReplaceConcat(a: string, b: string, p: string, r: string)
    requires |p| == 1
    ensures Replace(a + b, p, r) == Replace(a, p, r) + Replace(b, p, r)
    decreases |a|
  {
    if |a| == 0 {
      assert a + b == b;
    } else {
      var ab := a + b;
      assert ab[..1] == a[..1];
      assert ab[1..] == a[1..] + b;
      ReplaceConcat(a[1..], b, p, r);
    }
  }

  /** A string in which every occurrence of the first character of `p` sits
      too close to the end for `p` to fit does not contain `p`. */
  lemma {:induction false} NoRoomForMatch(s: string, p: string)
    requires |p| > 0
    requires forall k :: 0 <= k < |s| && s[k] == p[0] ==> |s| < k + |p|
    ensures !Contains(s, p)
    decreases |s|
  {
    if |p| <= |s| {
      assert s[..|p|][0] == s[0];
    }
    if |s| > 0 {
      forall k | 0 <= k < |s[1..]| && s[1..][k] == p[0]
        ensures |s[1..]| < k + |p|
      {
        assert s[k + 1] == s[1..][k];
      }
      NoRoomForMatch(s[1..], p);
    }
  }

  /** A string in which no character equals the first character of `p` does not contain `p`. */
  lemma MissingFirstChar(s: string, p: string)
    requires |p| > 0
    requires forall k :: 0 <= k < |s| ==> s[k] != p[0]
    ensures !Contains(s, p)
  {
    NoRoomForMatch(s, p);
  }

  /** Containing a longer pattern means containing each of its prefixes. */
  lemma {:induction false} ContainsPrefixOfPattern(s: string, p: string, q: string)
    requires Contains(s, p + q)
    ensures Contains(s, p)
    decreases |s|
  {
    if HasPrefix(s, p + q) {
      assert s[..|p|] == (p + q)[..|p|] == p;
    } else {
      ContainsPrefixOfPattern(s[1..], p, q);
    }
  }

  lemma {:induction false} ContainsInPrefix(s: string, n: nat, p: string)
    requires n <= |s| && Contains(s[..n], p)
    ensures Contains(s, p)
    decreases |s|
  {
    if HasPrefix(s[..n], p) {
      assert s[..|p|] == s[..n][..|p|];
    } else {
      assert s[..n][1..] == s[1..][..n - 1];
      ContainsInPrefix(s[1..], n - 1, p);
    }
  }

  lemma {:induction false} ContainsInSuffix(s: string, i: nat, p: string)
    requires i <= |s| && Contains(s[i..], p)
    ensures Contains(s, p)
    decreases i
  {
    if i > 0 {
      assert s[i..] == s[1..][i - 1..];
      ContainsInSuffix(s[1..], i - 1, p);
    }
  }

  /** A pattern found in a slice is found in the whole string. */
  lemma ContainsInSlice(s: string, i: nat, j: nat, p: string)
    requires i <= j <= |s| && Contains(s[i..j], p)
    ensures Contains(s, p)
  {
    assert s[i..j] == s[i..][..j - i];
    ContainsInPrefix(s[i..], j - i, p);
    ContainsInSuffix(s, i, p);
  }

  /** A slice of a text without `p` is without `p` as well. */
  lemma NoPatternInSlice(s: string, i: nat, j: nat, p: string)
    requires i <= j <= |s| && !Contains(s, p)
    ensures !Contains(s[i..j], p)
  {
    if Contains(s[i..j], p) {
      ContainsInSlice(s, i, j, p);
    }
  }

  /** The concatenation of `ls`, each followed by a newline: what a sequence
      of `f.write(line + "\n")` calls leaves in a file. */
  function JoinLines(ls: seq<string>): string {
    if |ls| == 0 then "" else ls[0] + "\n" + JoinLines(ls[1..])
  }

  lemma JoinLinesFrom(ls: seq<string>, i: nat)
    requires i < |ls|
    ensures JoinLines(ls[i..]) == ls[i] + "\n" + JoinLines(ls[i + 1..])
  {
    assert ls[i..][1..] == ls[i + 1..];
  }

  /** `JoinLines` of five lines, unfolded. */
  lemma JoinLines5(ls: seq<string>)
    requires |ls| == 5
    ensures JoinLines(ls)
         == ls[0] + "\n" + (ls[1] + "\n" + (ls[2] + "\n" + (ls[3] + "\n" + (ls[4] + "\n" + ""))))
  {
    JoinLinesFrom(ls, 4);
    JoinLinesFrom(ls, 3);
    JoinLinesFrom(ls, 2);
    JoinLinesFrom(ls, 1);
    JoinLinesFrom(ls, 0);
  }

  /** `JoinLines` of seven lines, unfolded. */
  lemma JoinLines7(ls: seq<string>)
    requires |ls| == 7
    ensures JoinLines(ls)
         == ls[0] + "\n" + (ls[1] + "\n" + (ls[2] + "\n" + (ls[3] + "\n" + (ls[4] + "\n"
          + (ls[5] + "\n" + (ls[6] + "\n" + ""))))))
  {
    JoinLinesFrom(ls, 6);
    JoinLinesFrom(ls, 5);
    JoinLinesFrom(ls, 4);
    JoinLinesFrom(ls, 3);
    JoinLinesFrom(ls, 2);
    JoinLinesFrom(ls, 1);
    JoinLinesFrom(ls, 0);
  }

  /** The first position of `c` in `s`, or `|s|` when there is none. */
  function IndexOf(s: string, c: char): (i: nat)
    ensures i <= |s|
    ensures i < |s| ==> s[i] == c
    ensures forall k :: 0 <= k < i ==> s[k] != c
    decreases |s|
  {
    if |s| == 0 then 0 else if s[0] == c then 0 else 1 + IndexOf(s[1..], c)
  }

  /** The lines of a text, each without its terminating newline; a final
      unterminated line counts as a line. */
  function SplitLines(s: string): seq<string>
    decreases |s|
  {
    if |s| == 0 then []
    else
      var i := IndexOf(s, '\n');
      if i == |s| then [s] else [s[..i]] + SplitLines(s[i + 1..])
  }

  predicate OneLine(l: string) {
    forall k :: 0 <= k < |l| ==> l[k] != '\n'
  }

  lemma OneLineConcat(a: string, b: string)
    requires OneLine(a) && OneLine(b)
    ensures OneLine(a + b)
  {
    assert forall k :: |a| <= k < |a + b| ==> (a + b)[k] == b[k - |a|];
  }

  /** Splitting text written line by line gives back exactly the lines written. */
  lemma {:induction false} SplitJoinLines(ls: seq<string>)
    requires forall k :: 0 <= k < |ls| ==> OneLine(ls[k])
    ensures SplitLines(JoinLines(ls)) == ls
  {
    if |ls| > 0 {
      var rest := JoinLines(ls[1..]);
      var s := JoinLines(ls);
      assert s == ls[0] + ("\n" + rest);
      assert s[|ls[0]|] == '\n';
      assert forall k :: 0 <= k < |ls[0]| ==> s[k] == ls[0][k];
      assert IndexOf(s, '\n') == |ls[0]|;
      assert s[..|ls[0]|] == ls[0];
      assert s[|ls[0]| + 1..] == rest;
      SplitJoinLines(ls[1..]);
      assert [ls[0]] + ls[1..] == ls;
    }
  }
}
