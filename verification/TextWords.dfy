/** Text as the registry and the payment broker compare it: lower-cased, blank runs collapsed. Two
    texts compare equal exactly when they consist of the same words, up to case. */
module TextWords {

  /** The ASCII characters Python's str.split() separates words at. */
  predicate IsBlank(c: char) {
    c == ' ' || '\t' <= c <= '\r' || '\U{1C}' <= c <= '\U{1F}'
  }

  function Lower(c: char): char {
    if 'A' <= c <= 'Z' then c - 'A' + 'a' else c
  }

  function Lowered(s: string): (r: string)
    ensures |r| == |s|
    ensures forall i :: 0 <= i < |s| ==> r[i] == Lower(s[i])
  {
    seq(|s|, i requires 0 <= i < |s| => Lower(s[i]))
  }

  /** Lower-cases `s` and joins its words by single blanks; `pending` remembers that
      blanks were seen after some word. */
  function Squeeze(s: string, started: bool, pending: bool): string {
    if s == "" then ""
    else if IsBlank(s[0]) then Squeeze(s[1..], started, started)
    else (if pending then " " else "") + [Lower(s[0])] + Squeeze(s[1..], true, false)
  }

  function Norm(s: string): string {
    Squeeze(s, false, false)
  }

  // ---------------------------------------------------------------------------
  // The words of a text, by the places where they stand
  // ---------------------------------------------------------------------------

  datatype Span = Span(from: nat, to: nat)

  /** A maximal run of characters that are not blank. */
  predicate IsRun(s: string, r: Span) {
    && r.from < r.to <= |s|
    && (forall k :: r.from <= k < r.to ==> !IsBlank(s[k]))
    && (r.from == 0 || IsBlank(s[r.from - 1]))
    && (r.to == |s| || IsBlank(s[r.to]))
  }

  predicate Covered(spans: seq<Span>, k: nat) {
    exists i :: 0 <= i < |spans| && spans[i].from <= k < spans[i].to
  }

  /** All runs of a text, from left to right. */
  ghost predicate AllRuns(s: string, spans: seq<Span>) {
    && (forall i :: 0 <= i < |spans| ==> IsRun(s, spans[i]))
    && (forall i, j :: 0 <= i < j < |spans| ==> spans[i].to < spans[j].from)
    && (forall k :: 0 <= k < |s| && !IsBlank(s[k]) ==> Covered(spans, k))
  }

  function WordsAt(s: string, spans: seq<Span>): (words: seq<string>)
    requires forall i :: 0 <= i < |spans| ==> spans[i].from <= spans[i].to <= |s|
    ensures |words| == |spans|
    ensures forall i :: 0 <= i < |spans| ==> words[i] == Lowered(s[spans[i].from..spans[i].to])
  {
    seq(|spans|, i requires 0 <= i < |spans| => Lowered(s[spans[i].from..spans[i].to]))
  }

  /** Where the first word ends. */
  function WordEnd(s: string): (n: nat)
    ensures n <= |s|
    ensures forall k :: 0 <= k < n ==> !IsBlank(s[k])
    ensures n == |s| || IsBlank(s[n])
  {
    if s == "" || IsBlank(s[0]) then 0 else 1 + WordEnd(s[1..])
  }

  /** The words of a text in lower case. */
  function Words(s: string): (words: seq<string>)
    ensures forall w :: w in words ==> IsWord(w) && Lowered(w) == w
    decreases |s|
  {
    if s == "" then []
    else if IsBlank(s[0]) then Words(s[1..])
    else
      var n := WordEnd(s);
      [Lowered(s[..n])] + Words(s[n..])
  }

  predicate IsWord(w: string) {
    w != "" && forall k :: 0 <= k < |w| ==> !IsBlank(w[k])
  }

  function Shifted(spans: seq<Span>, n: nat): (r: seq<Span>)
    ensures |r| == |spans|
    ensures forall i :: 0 <= i < |spans| ==> r[i] == Span(spans[i].from + n, spans[i].to + n)
  {
    seq(|spans|, i requires 0 <= i < |spans| => Span(spans[i].from + n, spans[i].to + n))
  }

  lemma ShiftedRun(s: string, n: nat, r: Span)
    requires n <= |s| && IsRun(s[n..], r) && (r.from == 0 ==> n == 0 || IsBlank(s[n - 1]))
    ensures IsRun(s, Span(r.from + n, r.to + n))
  {
    assert forall k :: r.from + n <= k < r.to + n ==> s[k] == s[n..][k - n];
  }

  lemma CoveredAfter(rest: seq<Span>, n: nat, first: seq<Span>, k: nat)
    requires n <= k && Covered(rest, k - n)
    ensures Covered(first + Shifted(rest, n), k)
  {
    var i :| 0 <= i < |rest| && rest[i].from <= k - n < rest[i].to;
    assert (first + Shifted(rest, n))[|first| + i] == Shifted(rest, n)[i];
  }

  /** The runs of a text that starts with a blank. */
  lemma RunsAfterBlank(s: string, rest: seq<Span>)
    requires s != "" && IsBlank(s[0]) && AllRuns(s[1..], rest)
    ensures AllRuns(s, Shifted(rest, 1))
  {
    hide IsRun, Covered, IsBlank;
    forall i | 0 <= i < |rest| ensures IsRun(s, Shifted(rest, 1)[i]) {
      ShiftedRun(s, 1, rest[i]);
    }
    forall k | 0 <= k < |s| && !IsBlank(s[k]) ensures Covered(Shifted(rest, 1), k) {
      assert s[1..][k - 1] == s[k];
      CoveredAfter(rest, 1, [], k);
      assert [] + Shifted(rest, 1) == Shifted(rest, 1);
    }
  }

  lemma RunStart(s: string, r: Span)
    requires IsRun(s, r)
    ensures r.from < |s| && !IsBlank(s[r.from])
  {
  }

  /** The runs of a text whose first word ends at n. */
  lemma RunsAfterWord(s: string, n: nat, rest: seq<Span>)
    requires n <= |s| && IsRun(s, Span(0, n)) && AllRuns(s[n..], rest)
    ensures AllRuns(s, [Span(0, n)] + Shifted(rest, n))
  {
    var spans := [Span(0, n)] + Shifted(rest, n);
    forall i | 0 <= i < |rest| ensures IsRun(s, Shifted(rest, n)[i]) && 0 < rest[i].from {
      RunStart(s[n..], rest[i]);
      ShiftedRun(s, n, rest[i]);
    }
    AllCovered(s, n, rest);
    Ordered(s, n, rest);
  }

  lemma Ordered(s: string, n: nat, rest: seq<Span>)
    requires forall i :: 0 <= i < |rest| ==> 0 < rest[i].from
    requires forall i, j :: 0 <= i < j < |rest| ==> rest[i].to < rest[j].from
    ensures var spans := [Span(0, n)] + Shifted(rest, n);
      forall i, j :: 0 <= i < j < |spans| ==> spans[i].to < spans[j].from
  {
  }

  lemma AllCovered(s: string, n: nat, rest: seq<Span>)
    requires n <= |s| && forall k :: 0 <= k < |s| - n && !IsBlank(s[n..][k]) ==> Covered(rest, k)
    ensures forall k :: 0 <= k < |s| && !IsBlank(s[k]) ==> Covered([Span(0, n)] + Shifted(rest, n), k)
  {
    hide IsBlank;
    var spans := [Span(0, n)] + Shifted(rest, n);
    forall k | 0 <= k < |s| && !IsBlank(s[k]) ensures Covered(spans, k) {
      if n <= k {
        assert s[n..][k - n] == s[k];
        CoveredAfter(rest, n, [Span(0, n)], k);
      } else {
        assert spans[0].from <= k < spans[0].to;
      }
    }
  }

  lemma TailSlice(s: string, n: nat, i: nat, j: nat)
    requires i <= j && j + n <= |s|
    ensures s[i + n..j + n] == s[n..][i..j]
  {
    forall k | 0 <= k < j - i ensures s[i + n..j + n][k] == s[n..][i..j][k] {
    }
  }

  lemma WordsShifted(s: string, n: nat, spans: seq<Span>)
    requires n <= |s| && forall i :: 0 <= i < |spans| ==> spans[i].from <= spans[i].to <= |s| - n
    ensures WordsAt(s, Shifted(spans, n)) == WordsAt(s[n..], spans)
  {
    forall i | 0 <= i < |spans| ensures WordsAt(s, Shifted(spans, n))[i] == WordsAt(s[n..], spans)[i] {
      TailSlice(s, n, spans[i].from, spans[i].to);
    }
  }

  lemma WordsJoin(s: string, a: seq<Span>, b: seq<Span>)
    requires forall i :: 0 <= i < |a| ==> a[i].from <= a[i].to <= |s|
    requires forall i :: 0 <= i < |b| ==> b[i].from <= b[i].to <= |s|
    ensures WordsAt(s, a + b) == WordsAt(s, a) + WordsAt(s, b)
  {
  }

  /** The words of a text are its maximal blank-free runs, from left to right and in lower case. */
  lemma {:induction false} WordsExact(s: string) returns (spans: seq<Span>)
    ensures AllRuns(s, spans) && Words(s) == WordsAt(s, spans)
    decreases |s|
  {
    if s == "" {
      spans := [];
    } else if IsBlank(s[0]) {
      var rest := WordsExact(s[1..]);
      spans := Shifted(rest, 1);
      RunsAfterBlank(s, rest);
      WordsShifted(s, 1, rest);
    } else {
      var n := WordEnd(s);
      var rest := WordsExact(s[n..]);
      spans := [Span(0, n)] + Shifted(rest, n);
      RunsAfterWord(s, n, rest);
      WordsShifted(s, n, rest);
      WordsJoin(s, [Span(0, n)], Shifted(rest, n));
      assert WordsAt(s, [Span(0, n)]) == [Lowered(s[..n])];
    }
  }

  // ---------------------------------------------------------------------------
  // Normalising joins the words by single blanks
  // ---------------------------------------------------------------------------

  function Joined(words: seq<string>): string {
    if words == [] then ""
    else if |words| == 1 then words[0]
    else words[0] + " " + Joined(words[1..])
  }

  lemma {:induction false} SqueezeWord(s: string, n: nat, started: bool, pending: bool)
    requires 0 < n <= |s| && forall k :: 0 <= k < n ==> !IsBlank(s[k])
    ensures Squeeze(s, started, pending) == (if pending then " " else "") + Lowered(s[..n]) + Squeeze(s[n..], true, false)
  {
    hide IsBlank, Lower;
    assert Lowered(s[..n]) == [Lower(s[0])] + Lowered(s[1..][..n - 1]);
    if n > 1 {
      SqueezeWord(s[1..], n - 1, true, false);
      assert s[1..][n - 1..] == s[n..];
    }
  }

  /** The words of a text, each after a blank or, the first, not. */
  function Spaced(words: seq<string>, blankFirst: bool): string {
    if words == [] then "" else (if blankFirst then " " else "") + Joined(words)
  }

  lemma JoinedFirst(first: string, rest: seq<string>, blankFirst: bool)
    ensures (if blankFirst then " " else "") + first + Spaced(rest, true) == Spaced([first] + rest, blankFirst)
  {
    assert ([first] + rest)[1..] == rest;
    assert Joined([first] + rest) == first + Spaced(rest, true);
  }

  lemma {:induction false} SqueezeWords(s: string, started: bool, pending: bool)
    requires pending == started || s == "" || IsBlank(s[0])
    ensures Squeeze(s, started, pending) == Spaced(Words(s), started)
    decreases |s|
  {
    hide IsBlank, Lowered, IsWord, Joined, Spaced;
    if s == "" {
      NoWords(started);
    } else if IsBlank(s[0]) {
      SqueezeWords(s[1..], started, started);
    } else {
      var n := WordEnd(s);
      SqueezeWord(s, n, started, pending);
      SqueezeWords(s[n..], true, false);
      JoinedFirst(Lowered(s[..n]), Words(s[n..]), started);
    }
  }

  lemma NoWords(blankFirst: bool)
    ensures Spaced([], blankFirst) == ""
  {
  }

  /** Normalising a text joins its lower-cased words by single blanks. */
  lemma NormJoins(s: string)
    ensures Norm(s) == Joined(Words(s))
  {
    SqueezeWords(s, false, false);
  }

  lemma WordEndOf(w: string, rest: string)
    requires IsWord(w) && (rest == "" || IsBlank(rest[0]))
    ensures WordEnd(w + rest) == |w|
  {
    hide IsBlank, WordEnd;
    assert forall k :: 0 <= k < |w| ==> (w + rest)[k] == w[k];
    assert rest != "" ==> (w + rest)[|w|] == rest[0];
  }

  lemma {:induction false} SplitJoined(words: seq<string>)
    requires forall w :: w in words ==> IsWord(w) && Lowered(w) == w
    ensures Words(Joined(words)) == words
  {
    if words != [] {
      var rest := if |words| == 1 then "" else " " + Joined(words[1..]);
      assert Joined(words) == words[0] + rest;
      WordEndOf(words[0], rest);
      assert (words[0] + rest)[..|words[0]|] == words[0] && (words[0] + rest)[|words[0]|..] == rest;
      if |words| > 1 {
        SplitJoined(words[1..]);
        assert rest[1..] == Joined(words[1..]);
      }
    }
  }

  /** Two texts compare equal exactly when they consist of the same words up to case. */
  lemma NormEqualExactly(s: string, t: string)
    ensures Norm(s) == Norm(t) <==> Words(s) == Words(t)
  {
    NormJoins(s);
    NormJoins(t);
    SplitJoined(Words(s));
    SplitJoined(Words(t));
  }

  /** Words end at tabs, line breaks, form feeds, the four separator controls and blanks. */
  lemma BlanksExactly(c: char)
    ensures IsBlank(c) <==> c as int in {9, 10, 11, 12, 13, 28, 29, 30, 31, 32}
  {
  }

  /** One character is the other, or the same ASCII letter in the other case. */
  predicate SameLetter(c: char, d: char) {
    c == d || IsUpperOf(c, d) || IsUpperOf(d, c)
  }

  predicate IsUpperOf(u: char, l: char) {
    'A' <= u <= 'Z' && l as int - 'a' as int == u as int - 'A' as int
  }

  /** Lower-casing identifies a letter with its other case and nothing else, and keeps blanks apart. */
  lemma LowerExact(c: char, d: char)
    ensures Lower(c) == Lower(d) <==> SameLetter(c, d)
    ensures IsBlank(Lower(c)) <==> IsBlank(c)
  {
    assert Lower(c) == Lower(d) ==> c == d || IsUpperOf(c, d) || IsUpperOf(d, c);
  }
}
