/** Whitespace word splitting, as Python's `str.split()` with no separator does it:
    runs of whitespace separate words, and leading or trailing whitespace yields
    no empty words. The context policy only uses the number of words. */
module Words {

  /** The characters Python's `str.isspace` accepts, which are the separators
      `str.split()` uses. */
  predicate IsSpace(c: char): (b: bool)
    ensures c == ' ' || c == '\t' || c == '\n' || c == '\r' || c == '\U{B}' || c == '\U{C}' ==> b
    ensures ('0' <= c <= '9' || 'a' <= c <= 'z' || 'A' <= c <= 'Z' || '!' <= c <= '/') ==> !b
    ensures b ==> c <= '\U{3000}'
  {
    || ('\t' <= c <= '\r')
    || ('\U{1C}' <= c <= ' ')
    || c == '\U{85}' || c == '\U{A0}' || c == '\U{1680}'
    || ('\U{2000}' <= c <= '\U{200A}')
    || c == '\U{2028}' || c == '\U{2029}' || c == '\U{202F}' || c == '\U{205F}'
    || c == '\U{3000}'
  }

  predicate NoSpace(w: string) {
    forall i :: 0 <= i < |w| ==> !IsSpace(w[i])
  }

  predicate AllSpace(s: string) {
    forall i :: 0 <= i < |s| ==> IsSpace(s[i])
  }

  /** Number of whitespace characters at the start of `s`. */
  function LeadingSpaces(s: string): (k: nat)
    ensures k <= |s|
    ensures AllSpace(s[..k])
    ensures k < |s| ==> !IsSpace(s[k])
  {
    if s == [] || !IsSpace(s[0]) then 0 else 1 + LeadingSpaces(s[1..])
  }

  /** Length of the run of non-whitespace characters at the start of `s`. */
  function WordLength(s: string): (k: nat)
    ensures k <= |s|
    ensures NoSpace(s[..k])
    ensures k < |s| ==> IsSpace(s[k])
  {
    if s == [] || IsSpace(s[0]) then 0 else 1 + WordLength(s[1..])
  }

  /** The list `s.split()` returns. Words are separated by whitespace, so
      there are at most (|s| + 1) / 2 of them. */
  function Words(s: string): (ws: seq<string>)
    ensures forall w :: w in ws ==> w != [] && NoSpace(w)
    ensures 2 * |ws| <= |s| + 1
    ensures s != [] && IsSpace(s[0]) ==> 2 * |ws| <= |s|
    decreases |s|
  {
    var t := s[LeadingSpaces(s)..];
    if t == [] then []
    else
      var n := WordLength(t);
      [t[..n]] + Words(t[n..])
  }

  /** `len(s.split())`: zero exactly for empty or all-whitespace text, and
      never more than (|s| + 1) / 2. */
  function WordCount(s: string): (n: nat)
    ensures n == 0 <==> AllSpace(s)
    ensures 2 * n <= |s| + 1
  {
    var k := LeadingSpaces(s);
    assert s[..k] == s ==> k == |s|;
    assert k == |s| ==> s[..k] == s;
    |Words(s)|
  }

  /** An independent definition of the word count: a left-to-right scan that
      counts every non-whitespace character that does not continue a word. */
  function ScanCount(s: string, inWord: bool): nat {
    if s == [] then 0
    else if IsSpace(s[0]) then ScanCount(s[1..], false)
    else (if inWord then 0 else 1) + ScanCount(s[1..], true)
  }

  /** The characters of `s` that are not whitespace, in order. */
  function NonSpace(s: string): (r: string) {
    if s == [] then []
    else if IsSpace(s[0]) then NonSpace(s[1..])
    else [s[0]] + NonSpace(s[1..])
  }

  function Concat(ws: seq<string>): string {
    if ws == [] then [] else ws[0] + Concat(ws[1..])
  }

  lemma {:induction false} ScanSkipsSpaces(s: string)
    ensures ScanCount(s, false) == ScanCount(s[LeadingSpaces(s)..], false)
    decreases |s|
  {
    if s != [] && IsSpace(s[0]) {
      ScanSkipsSpaces(s[1..]);
      assert s[1..][LeadingSpaces(s[1..])..] == s[LeadingSpaces(s)..];
    }
  }

  lemma {:induction false} ScanSkipsWord(s: string)
    ensures ScanCount(s, true) == ScanCount(s[WordLength(s)..], false)
    decreases |s|
  {
    if s != [] && !IsSpace(s[0]) {
      ScanSkipsWord(s[1..]);
      assert s[1..][WordLength(s[1..])..] == s[WordLength(s)..];
    }
  }

  /** The split-based count agrees with the scanning definition. */
  lemma {:induction false} WordCountIsScan(s: string)
    ensures WordCount(s) == ScanCount(s, false)
    decreases |s|
  {
    ScanSkipsSpaces(s);
    var t := s[LeadingSpaces(s)..];
    if t != [] {
      var n := WordLength(t);
      ScanSkipsWord(t[1..]);
      assert t[1..][WordLength(t[1..])..] == t[n..];
      WordCountIsScan(t[n..]);
    }
  }

  lemma {:induction false} NonSpaceAppend(a: string, b: string)
    ensures NonSpace(a + b) == NonSpace(a) + NonSpace(b)
  {
    if a == [] {
      assert a + b == b;
    } else {
      assert (a + b)[1..] == a[1..] + b;
      NonSpaceAppend(a[1..], b);
    }
  }

  lemma {:induction false} NonSpaceOfAllSpace(s: string)
    requires AllSpace(s)
    ensures NonSpace(s) == []
  {
    if s != [] {
      NonSpaceOfAllSpace(s[1..]);
    }
  }

  lemma {:induction false} NonSpaceOfWord(w: string)
    requires NoSpace(w)
    ensures NonSpace(w) == w
  {
    if w != [] {
      NonSpaceOfWord(w[1..]);
    }
  }

  /** Dropping leading whitespace, or a leading word, changes the
      non-whitespace characters only by that word. */
  lemma NonSpaceAfterSpaces(s: string)
    ensures NonSpace(s) == NonSpace(s[LeadingSpaces(s)..])
  {
    var k := LeadingSpaces(s);
    assert s == s[..k] + s[k..];
    NonSpaceAppend(s[..k], s[k..]);
    NonSpaceOfAllSpace(s[..k]);
  }

  lemma NonSpaceAfterWord(t: string)
    ensures NonSpace(t) == t[..WordLength(t)] + NonSpace(t[WordLength(t)..])
  {
    var n := WordLength(t);
    assert t == t[..n] + t[n..];
    NonSpaceAppend(t[..n], t[n..]);
    NonSpaceOfWord(t[..n]);
  }

  /** Splitting loses no character but whitespace: the words, run together,
      are exactly the non-whitespace characters of the text, in order. */
  lemma {:induction false} WordsKeepText(s: string)
    ensures Concat(Words(s)) == NonSpace(s)
    decreases |s|
  {
    NonSpaceAfterSpaces(s);
    var t := s[LeadingSpaces(s)..];
    if t != [] {
      var n := WordLength(t);
      NonSpaceAfterWord(t);
      WordsKeepText(t[n..]);
      assert Words(s) == [t[..n]] + Words(t[n..]);
      assert ([t[..n]] + Words(t[n..]))[1..] == Words(t[n..]);
    }
  }
}
