/**
 * Citation scrubbing of earlier assistant turns: `re.sub(r"\[[0-9]+\]", "[x]", content)`
 * (chat.py:109-110).
 */
module Citations {

  predicate IsDigit(c: char)
  {
    '0' <= c <= '9'
  }

  ghost predicate AllDigits(s: string)
  {
    forall i :: 0 <= i < |s| ==> IsDigit(s[i])
  }

  /** `s[i..]` begins with `[`, then `k` digits, then `]`. */
  ghost predicate MarkerAt(s: string, i: int, k: int)
  {
    && 0 <= i
    && 1 <= k
    && i + 1 + k < |s|
    && s[i] == '['
    && AllDigits(s[i + 1..i + 1 + k])
    && s[i + 1 + k] == ']'
  }

  /** The regular expression `\[[0-9]+\]` matches `s` at index `i`. */
  ghost predicate MatchesAt(s: string, i: int)
  {
    exists k :: MarkerAt(s, i, k)
  }

  /** No numeric citation marker `[<digits>]` occurs anywhere in `s`. */
  ghost predicate NoCitations(s: string)
  {
    forall i :: 0 <= i < |s| ==> !MatchesAt(s, i)
  }

  /** The length of the run of digits at the front of `s`. */
  function DigitRun(s: string): (n: nat)
    ensures n <= |s|
    ensures forall i :: 0 <= i < n ==> IsDigit(s[i])
    ensures n < |s| ==> !IsDigit(s[n])
  {
    if |s| > 0 && IsDigit(s[0]) then 1 + DigitRun(s[1..]) else 0
  }

  /** `s` begins with a citation marker: `[`, a maximal run of digits, then `]`. */
  predicate CitationHere(s: string)
  {
    && |s| > 0
    && s[0] == '['
    && var n := DigitRun(s[1..]);
       1 <= n && 1 + n < |s| && s[1 + n] == ']'
  }

  /**
   * The left-to-right scan of `re.sub`: a marker at the scan position is replaced by
   * `[x]` and the scan resumes after it; otherwise one character is copied.
   */
  function Scrub(s: string): (r: string)
    decreases |s|
  {
    if |s| == 0 then ""
    else if CitationHere(s) then "[x]" + Scrub(s[2 + DigitRun(s[1..])..])
    else [s[0]] + Scrub(s[1..])
  }

  /** The scan's test agrees with the regular expression: a match must use the maximal digit run. */
  lemma CitationHereIffMatch(s: string, i: nat)
    requires i < |s|
    ensures CitationHere(s[i..]) <==> MatchesAt(s, i)
  {
    var t := s[i..];
    if CitationHere(t) {
      var n := DigitRun(t[1..]);
      assert s[i + 1..i + 1 + n] == t[1..1 + n];
      assert s[i + 1 + n] == ']';
      assert MarkerAt(s, i, n);
    }
    if MatchesAt(s, i) {
      var k :| MarkerAt(s, i, k);
      var n := DigitRun(t[1..]);
      assert forall j :: 0 <= j < k ==> t[1..][j] == s[i + 1..i + 1 + k][j];
      assert n == k;
    }
  }

  lemma {:induction false} DigitRunStopsAtBracket(d: string, rest: string)
    requires AllDigits(d)
    ensures DigitRun(d + "]" + rest) == |d|
    decreases |d|
  {
    if |d| > 0 {
      assert (d + "]" + rest)[1..] == d[1..] + "]" + rest;
      DigitRunStopsAtBracket(d[1..], rest);
    }
  }

  /** Every marker `[<digits>]` the scan meets becomes `[x]`, and the scan goes on after it. */
  lemma ScrubReplacesMarker(d: string, rest: string)
    requires |d| > 0 && AllDigits(d)
    ensures Scrub("[" + d + "]" + rest) == "[x]" + Scrub(rest)
  {
    var s := "[" + d + "]" + rest;
    assert s[1..] == d + "]" + rest;
    DigitRunStopsAtBracket(d, rest);
    assert s[2 + |d|..] == rest;
  }

  /** Scrubbing keeps the leading digit run of `t`, and the character after it, in place. */
  lemma {:induction false} ScrubKeepsHead(t: string)
    ensures var r := Scrub(t);
      var n := DigitRun(t);
      && DigitRun(r) == n
      && (n < |r| <==> n < |t|)
      && (n < |t| ==> r[n] == t[n])
    decreases |t|
  {
    if |t| > 0 {
      if IsDigit(t[0]) {
        var rest := Scrub(t[1..]);
        assert Scrub(t) == [t[0]] + rest;
        assert ([t[0]] + rest)[1..] == rest;
        ScrubKeepsHead(t[1..]);
        assert t[1..][DigitRun(t) - 1..] == t[DigitRun(t)..];
      }
    }
  }

  /** Whether `s` has a marker at `i` depends only on `s[i..]`. */
  lemma NoCitationsFromHere(s: string)
    requires forall i :: 0 <= i < |s| ==> !CitationHere(s[i..])
    ensures NoCitations(s)
  {
    forall i | 0 <= i < |s|
      ensures !MatchesAt(s, i)
    {
      CitationHereIffMatch(s, i);
    }
  }

  lemma {:induction false} ScrubNoCitationHere(s: string)
    ensures forall i :: 0 <= i < |Scrub(s)| ==> !CitationHere(Scrub(s)[i..])
    decreases |s|
  {
    if |s| > 0 {
      var r := Scrub(s);
      if CitationHere(s) {
        var rest := s[2 + DigitRun(s[1..])..];
        ScrubNoCitationHere(rest);
        var R := Scrub(rest);
        assert r == "[x]" + R;
        forall i | 0 <= i < |r|
          ensures !CitationHere(r[i..])
        {
          if i >= 3 {
            assert r[i..] == R[i - 3..];
            assert !CitationHere(R[i - 3..]);
          } else if i == 0 {
            assert r[1..][0] == 'x';
            assert DigitRun(r[1..]) == 0;
          } else {
            assert r[i..][0] == r[i] != '[';
          }
        }
      } else {
        ScrubNoCitationHere(s[1..]);
        var R := Scrub(s[1..]);
        assert r == [s[0]] + R;
        forall i | 0 <= i < |r|
          ensures !CitationHere(r[i..])
        {
          if i >= 1 {
            assert r[i..] == R[i - 1..];
            assert !CitationHere(R[i - 1..]);
          } else if s[0] == '[' {
            ScrubKeepsHead(s[1..]);
            assert r[0..] == r;
            assert r[1..] == R;
            var n := DigitRun(s[1..]);
            assert DigitRun(r[1..]) == n;
            assert n < |R| ==> r[1 + n] == s[1 + n];
          } else {
            assert r[0..][0] == s[0];
          }
        }
      }
    }
  }

  /** After scrubbing, no `[digits]` marker remains: every one has become `[x]`. */
  lemma ScrubLeavesNoCitations(s: string)
    ensures NoCitations(Scrub(s))
  {
    ScrubNoCitationHere(s);
    NoCitationsFromHere(Scrub(s));
  }

  /** Text without markers passes through scrubbing unchanged. */
  lemma {:induction false} ScrubKeepsCleanText(s: string)
    requires NoCitations(s)
    ensures Scrub(s) == s
    decreases |s|
  {
    if |s| > 0 {
      CitationHereIffMatch(s, 0);
      assert s[0..] == s;
      forall i | 0 <= i < |s| - 1
        ensures !MatchesAt(s[1..], i)
      {
        CitationHereIffMatch(s, i + 1);
        CitationHereIffMatch(s[1..], i);
        assert s[1..][i..] == s[i + 1..];
      }
      ScrubKeepsCleanText(s[1..]);
    }
  }

  /** Scrubbing changes a string exactly when it holds a citation marker. */
  lemma ScrubFixedIffClean(s: string)
    ensures Scrub(s) == s <==> NoCitations(s)
  {
    if NoCitations(s) {
      ScrubKeepsCleanText(s);
    }
    ScrubLeavesNoCitations(s);
  }

  /** Scrubbing twice is scrubbing once. */
  lemma ScrubIdempotent(s: string)
    ensures Scrub(Scrub(s)) == Scrub(s)
  {
    ScrubLeavesNoCitations(s);
    ScrubKeepsCleanText(Scrub(s));
  }
}
