/** Assembling the context text: the window slice `recent[-n:]` over the
    recent-messages answer and `format_context`, which renders each turn as
    `role: message` and joins the lines with newlines. */
module Context {
  import opened History

  /** The start index Python computes for the slice `xs[start:]` on a
      sequence of length `len`: a negative start counts from the end and
      both kinds are clamped into 0..len. */
  function SliceStart(start: int, len: nat): (k: nat)
    ensures k <= len
    ensures 0 <= start <= len ==> k == start
    ensures -(len as int) <= start < 0 ==> k as int == len as int + start
    ensures start < -(len as int) ==> k == 0
    ensures start > len ==> k == len
  {
    if start < 0 then (if start + len < 0 then 0 else start + len)
    else if start > len then len
    else start
  }

  /** Python's `xs[-n:]`, for every integer n. */
  function Window<T>(xs: seq<T>, n: int): (r: seq<T>)
    ensures n > 0 ==> |r| == Min(n, |xs|) && r == xs[|xs| - |r|..]
    ensures n == 0 ==> r == xs
    ensures n < 0 ==> r == xs[Min(-n, |xs|)..]
  {
    xs[SliceStart(-n, |xs|)..]
  }

  /** On the newest-first answer of the recent-messages query, a positive
      window keeps the OLDEST m turns of that answer, still newest first:
      the turns at positions lo .. lo+m-1 of the history, reversed, where lo
      is the position of the oldest turn the query returned. */
  lemma WindowOfRecent(history: seq<Turn>, n: int)
    requires n > 0
    ensures var lo := |history| - Min(RecentLimit, |history|);
            var m := Min(n, Min(RecentLimit, |history|));
            Window(Recent(history), n) == Reverse(history[lo..lo + m])
  {
    var r := Recent(history);
    var lo := |history| - |r|;
    var m := Min(n, |r|);
    RecentIsReversedTail(history);
    ReverseSuffix(history[lo..], m);
    assert Window(r, n) == r[|r| - m..];
    assert history[lo..][..m] == history[lo..lo + m];
  }

  /** Once the query returns more turns than the window holds, the window
      leaves out the newest turn: it ends at a position strictly before the
      last one of the history. */
  lemma WindowSkipsNewest(history: seq<Turn>, n: int)
    requires 0 < n < Min(RecentLimit, |history|)
    ensures var lo := |history| - Min(RecentLimit, |history|);
            lo + n < |history| && Window(Recent(history), n) == Reverse(history[lo..lo + n])
  {
    WindowOfRecent(history, n);
  }

  /** When the window is at least as long as the query's answer, it is the
      whole answer, newest turn first. */
  lemma WindowKeepsAll(history: seq<Turn>, n: int)
    requires Min(RecentLimit, |history|) <= n
    ensures Window(Recent(history), n) == Recent(history)
  {
  }

  /** One formatted line: `f"{role}: {message}"`. */
  function Render(t: Turn): (line: string)
    ensures |line| == |t.role| + 2 + |t.message|
    ensures line[..|t.role|] == t.role
    ensures line[|t.role|..|t.role| + 2] == ": "
    ensures line[|t.role| + 2..] == t.message
  {
    t.role + ": " + t.message
  }

  function RenderAll(ts: seq<Turn>): (lines: seq<string>)
    ensures |lines| == |ts|
    ensures forall k :: 0 <= k < |ts| ==> lines[k] == Render(ts[k])
  {
    if ts == [] then [] else [Render(ts[0])] + RenderAll(ts[1..])
  }

  /** `"\n".join(lines)`: nothing for no lines, the line itself for one, and
      otherwise the first line followed by a newline and the rest. */
  function JoinLines(lines: seq<string>): (s: string)
    ensures lines == [] ==> s == ""
    ensures |lines| == 1 ==> s == lines[0]
    ensures |lines| > 1 ==> |lines[0]| < |s| && s[..|lines[0]|] == lines[0] && s[|lines[0]|] == '\n'
  {
    if |lines| == 0 then ""
    else if |lines| == 1 then lines[0]
    else lines[0] + "\n" + JoinLines(lines[1..])
  }

  /** The joined text starts with the first line. */
  lemma JoinLinesStartsWithFirst(lines: seq<string>)
    requires lines != []
    ensures |lines[0]| <= |JoinLines(lines)| && JoinLines(lines)[..|lines[0]|] == lines[0]
  {
  }

  /** `s.split("\n")`: the pieces between newlines, always at least one. */
  function SplitLines(s: string): (pieces: seq<string>)
    ensures |pieces| >= 1
  {
    if s == [] then [""]
    else if s[0] == '\n' then [""] + SplitLines(s[1..])
    else
      var rest := SplitLines(s[1..]);
      [[s[0]] + rest[0]] + rest[1..]
  }

  /** `format_context`. */
  function FormatContext(ts: seq<Turn>): (text: string)
    ensures ts == [] ==> text == ""
    ensures |ts| == 1 ==> text == Render(ts[0])
  {
    JoinLines(RenderAll(ts))
  }

  lemma {:induction false} SplitLineWithoutNewline(a: string)
    requires '\n' !in a
    ensures SplitLines(a) == [a]
  {
    if a != [] {
      assert a[0] != '\n' && '\n' !in a[1..];
      SplitLineWithoutNewline(a[1..]);
      assert [a[0]] + a[1..] == a;
    }
  }

  lemma {:induction false} SplitAtFirstNewline(a: string, b: string)
    requires '\n' !in a
    ensures SplitLines(a + "\n" + b) == [a] + SplitLines(b)
  {
    if a == [] {
      assert a + "\n" + b == "\n" + b;
      assert ("\n" + b)[1..] == b;
    } else {
      assert (a + "\n" + b)[1..] == a[1..] + "\n" + b;
      SplitAtFirstNewline(a[1..], b);
      assert [a[0]] + a[1..] == a;
    }
  }

  /** Splitting the joined text at newlines gives back the lines, provided
      there is at least one line and none contains a newline. */
  lemma {:induction false} SplitJoinLines(lines: seq<string>)
    requires |lines| >= 1
    requires forall k :: 0 <= k < |lines| ==> '\n' !in lines[k]
    ensures SplitLines(JoinLines(lines)) == lines
  {
    if |lines| == 1 {
      SplitLineWithoutNewline(lines[0]);
    } else {
      SplitAtFirstNewline(lines[0], JoinLines(lines[1..]));
      SplitJoinLines(lines[1..]);
    }
  }

  predicate SingleLine(t: Turn) {
    '\n' !in t.role && '\n' !in t.message
  }

  lemma RenderSingleLine(t: Turn)
    requires SingleLine(t)
    ensures '\n' !in Render(t)
  {
    var sep: string := ": ";
    assert '\n' !in sep;
    assert Render(t) == t.role + sep + t.message;
  }

  /** The k-th line of the context comes from the k-th turn, in input order,
      when no role or message contains a newline. */
  lemma FormatContextLines(ts: seq<Turn>)
    requires |ts| >= 1
    requires forall k :: 0 <= k < |ts| ==> SingleLine(ts[k])
    ensures SplitLines(FormatContext(ts)) == RenderAll(ts)
    ensures forall k :: 0 <= k < |ts| ==> SplitLines(FormatContext(ts))[k] == Render(ts[k])
  {
    var lines := RenderAll(ts);
    forall k | 0 <= k < |lines|
      ensures '\n' !in lines[k]
    {
      RenderSingleLine(ts[k]);
    }
    SplitJoinLines(lines);
  }

  lemma {:induction false} JoinLinesAppend(lines: seq<string>, line: string)
    requires lines != []
    ensures JoinLines(lines + [line]) == JoinLines(lines) + "\n" + line
    decreases |lines|
  {
    assert (lines + [line])[1..] == lines[1..] + [line];
    if |lines| > 1 {
      JoinLinesAppend(lines[1..], line);
    }
  }

  /** Adding a turn at the end of a non-empty list adds one line at the end. */
  lemma FormatContextAppend(ts: seq<Turn>, t: Turn)
    requires ts != []
    ensures FormatContext(ts + [t]) == FormatContext(ts) + "\n" + Render(t)
  {
    assert RenderAll(ts + [t]) == RenderAll(ts) + [Render(t)];
    JoinLinesAppend(RenderAll(ts), Render(t));
  }
}
