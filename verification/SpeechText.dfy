/** Text as the speech segmenter sees it: white space as Python's `str.strip` and `\s` know it, and
    words as maximal runs of the characters a classifier calls word characters
    (services/tts/src/openclaw_local_tts/speech_segments.py).
 */
module SpeechText {

  predicate Space(c: char) {
    var k := c as int;
    || 0x09 <= k <= 0x0D || 0x1C <= k <= 0x20 || k == 0x85 || k == 0xA0 || k == 0x1680
    || 0x2000 <= k <= 0x200A || k == 0x2028 || k == 0x2029 || k == 0x202F || k == 0x205F || k == 0x3000
  }

  /** Which characters make up words (letters, digits and the underscore); never white space. */
  ghost predicate WordClass(word: char -> bool) { forall c: char :: word(c) ==> !Space(c) }

  predicate Blank(s: string) { forall i :: 0 <= i < |s| ==> Space(s[i]) }

  // ----- stripping

  function StripLeft(s: string): string {
    if s != "" && Space(s[0]) then StripLeft(s[1..]) else s
  }

  function StripRight(s: string): string {
    if s != "" && Space(s[|s| - 1]) then StripRight(s[..|s| - 1]) else s
  }

  function Strip(s: string): string { StripRight(StripLeft(s)) }

  predicate Trimmed(s: string) { s == "" || (!Space(s[0]) && !Space(s[|s| - 1])) }

  lemma {:induction false} StripLeftShape(s: string) returns (n: nat)
    ensures n <= |s| && StripLeft(s) == s[n..] && Blank(s[..n])
    ensures StripLeft(s) == "" || !Space(StripLeft(s)[0])
    decreases |s|
  {
    if s != "" && Space(s[0]) {
      var m := StripLeftShape(s[1..]);
      n := m + 1;
      assert s[1..][m..] == s[n..];
      assert forall i :: 0 < i < n ==> s[i] == s[1..][..m][i - 1];
    } else {
      n := 0;
    }
  }

  lemma {:induction false} StripRightShape(s: string) returns (n: nat)
    ensures n <= |s| && StripRight(s) == s[..n] && Blank(s[n..])
    ensures StripRight(s) == "" || !Space(StripRight(s)[|StripRight(s)| - 1])
    decreases |s|
  {
    if s != "" && Space(s[|s| - 1]) {
      n := StripRightShape(s[..|s| - 1]);
      assert s[..|s| - 1][..n] == s[..n];
      assert forall i :: n <= i < |s| - 1 ==> s[i] == s[..|s| - 1][n..][i - n];
    } else {
      n := |s|;
    }
  }

  /** Stripping takes white space off both ends and leaves none there. */
  lemma StripShape(s: string) returns (lo: nat, hi: nat)
    ensures lo <= hi <= |s| && Strip(s) == s[lo..hi] && Blank(s[..lo]) && Blank(s[hi..])
    ensures Trimmed(Strip(s))
  {
    lo := StripLeftShape(s);
    var n := StripRightShape(s[lo..]);
    hi := lo + n;
    assert s[lo..][..n] == s[lo..hi] && s[lo..][n..] == s[hi..];
  }

  lemma StripNothing(s: string)
    requires Trimmed(s)
    ensures Strip(s) == s
  {
  }

  lemma StripKeepsSpeech(s: string)
    requires s != "" && !Space(s[0])
    ensures Strip(s) != "" && Strip(s)[0] == s[0]
  {
    var lo, hi := StripShape(s);
    if lo > 0 || hi == 0 { BlankEnd(s, lo, hi); }
  }

  lemma BlankEnd(s: string, lo: nat, hi: nat)
    requires s != "" && lo <= hi <= |s| && Blank(s[..lo]) && Blank(s[hi..]) && (lo > 0 || hi == 0)
    ensures Space(s[0])
  {
    if lo > 0 {
      assert s[..lo][0] == s[0];
    } else {
      assert s[hi..][0] == s[0];
    }
  }

  // ----- what must not be lost

  /** The characters that are not white space, in order. */
  function Spoken(s: string): string {
    if s == "" then "" else (if Space(s[0]) then "" else [s[0]]) + Spoken(s[1..])
  }

  lemma {:induction false} SpokenConcat(a: string, b: string)
    ensures Spoken(a + b) == Spoken(a) + Spoken(b)
    decreases |a|
  {
    if a == "" {
      assert a + b == b;
    } else {
      assert (a + b)[1..] == a[1..] + b;
      SpokenConcat(a[1..], b);
    }
  }

  lemma {:induction false} BlankIsSilent(s: string)
    requires Blank(s)
    ensures Spoken(s) == ""
    decreases |s|
  {
    if s != "" { BlankIsSilent(s[1..]); }
  }

  lemma StripKeepsSpoken(s: string)
    ensures Spoken(Strip(s)) == Spoken(s)
  {
    var lo, hi := StripShape(s);
    hide Strip;
    BlankIsSilent(s[..lo]);
    BlankIsSilent(s[hi..]);
    SpokenConcat(s[..lo], s[lo..hi]);
    SpokenConcat(s[..hi], s[hi..]);
    assert s[..lo] + s[lo..hi] == s[..hi] && s[..hi] + s[hi..] == s;
  }

  // ----- words

  predicate WordStart(word: char -> bool, s: string, i: nat)
    requires i < |s|
  {
    word(s[i]) && (i == 0 || !word(s[i - 1]))
  }

  /** How many maximal runs of word characters there are. */
  function WordCount(word: char -> bool, s: string): nat {
    if s == "" then 0
    else WordCount(word, s[..|s| - 1]) + if WordStart(word, s, |s| - 1) then 1 else 0
  }

  lemma {:induction false} PrefixHasFewerWords(word: char -> bool, s: string, n: nat)
    requires n <= |s|
    ensures WordCount(word, s[..n]) <= WordCount(word, s)
    decreases |s|
  {
    if n < |s| {
      assert s[..|s| - 1][..n] == s[..n];
      PrefixHasFewerWords(word, s[..|s| - 1], n);
    } else {
      assert s[..n] == s;
    }
  }

  lemma {:induction false} LeadingSpaceCounts(word: char -> bool, s: string)
    requires WordClass(word) && s != "" && Space(s[0])
    ensures WordCount(word, s[1..]) == WordCount(word, s)
    decreases |s|
  {
    if |s| > 1 {
      LeadingSpaceCounts(word, s[..|s| - 1]);
      assert s[1..][..|s| - 2] == s[..|s| - 1][1..];
    }
  }

  lemma {:induction false} StripLeftCounts(word: char -> bool, s: string)
    requires WordClass(word)
    ensures WordCount(word, StripLeft(s)) == WordCount(word, s)
    decreases |s|
  {
    if s != "" && Space(s[0]) {
      LeadingSpaceCounts(word, s);
      StripLeftCounts(word, s[1..]);
    }
  }

  lemma StripHasFewerWords(word: char -> bool, s: string)
    requires WordClass(word)
    ensures WordCount(word, Strip(s)) <= WordCount(word, s) && |Strip(s)| <= |s|
  {
    StripLeftCounts(word, s);
    var n := StripRightShape(StripLeft(s));
    PrefixHasFewerWords(word, StripLeft(s), n);
    var lo, hi := StripShape(s);
  }

  /** The end of the `n`-th word, searched from `i` on. */
  function WordEnd(word: char -> bool, s: string, n: nat, i: nat): (end: nat)
    requires i <= |s|
    ensures i <= end <= |s|
    decreases |s| - i
  {
    if i == |s| || (WordCount(word, s[..i]) == n && !word(s[i])) then i else WordEnd(word, s, n, i + 1)
  }

  lemma {:induction false} WordEndCounts(word: char -> bool, s: string, n: nat, i: nat)
    requires i <= |s| && n < WordCount(word, s)
    requires WordCount(word, s[..i]) < n || (WordCount(word, s[..i]) == n && i > 0 && word(s[i - 1]))
    ensures WordCount(word, s[..WordEnd(word, s, n, i)]) == n
    decreases |s| - i
  {
    assert s[..|s|] == s;
    if i < |s| && !(WordCount(word, s[..i]) == n && !word(s[i])) {
      assert s[..i + 1][..i] == s[..i];
      WordEndCounts(word, s, n, i + 1);
    }
  }

  lemma {:induction false} WordEndIsEnd(word: char -> bool, s: string, n: nat, i: nat)
    requires i <= |s|
    ensures var end := WordEnd(word, s, n, i); end < |s| ==> !word(s[end])
    decreases |s| - i
  {
    if i < |s| && !(WordCount(word, s[..i]) == n && !word(s[i])) { WordEndIsEnd(word, s, n, i + 1); }
  }
}
