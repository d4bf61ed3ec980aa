/** String primitives the scorer and the knowledge lookup rely on: the
    JavaScript whitespace class, `trim`, `split` (on one character and on
    runs of whitespace), `join`, `includes` and `toLowerCase`. */
module Text {

  /** The code points matched by the regular-expression class `\s` and
      removed by `String.prototype.trim`: WhiteSpace and LineTerminator. */
  predicate IsSpace(c: char) {
    || c == ' ' || c == '\t' || c == '\n' || c == '\r'
    || c == '\U{000B}' || c == '\U{000C}' || c == '\U{00A0}' || c == '\U{1680}'
    || ('\U{2000}' <= c <= '\U{200A}')
    || c == '\U{2028}' || c == '\U{2029}' || c == '\U{202F}' || c == '\U{205F}'
    || c == '\U{3000}' || c == '\U{FEFF}'
  }

  predicate AllSpaces(s: string) {
    forall k :: 0 <= k < |s| ==> IsSpace(s[k])
  }

  function Min(a: int, b: int): int { if a <= b then a else b }

  // ---------------------------------------------------------------------
  // Substrings (`includes`)

  /** `s.includes(t)`: `t` occurs in `s` at some offset. */
  predicate Contains(s: string, t: string)
    decreases |s|
  {
    t <= s || (|s| > 0 && Contains(s[1..], t))
  }

  /** `t` occurs in `s` starting at index `i`. */
  predicate OccursAt(s: string, t: string, i: nat) {
    i + |t| <= |s| && s[i..i + |t|] == t
  }

  /** `Contains` agrees with the textbook definition of a substring. */
  lemma {:induction false} ContainsAtOffset(s: string, t: string)
    ensures Contains(s, t) <==> exists i: nat :: OccursAt(s, t, i)
    decreases |s|
  {
    if Contains(s, t) {
      if t <= s {
        assert OccursAt(s, t, 0);
      } else {
        ContainsAtOffset(s[1..], t);
        var i: nat :| OccursAt(s[1..], t, i);
        SliceOfTail(s, i, |t|);
        assert OccursAt(s, t, i + 1);
      }
    }
    if exists i: nat :: OccursAt(s, t, i) {
      var i: nat :| OccursAt(s, t, i);
      if i == 0 {
        assert t <= s;
      } else {
        SliceOfTail(s, i - 1, |t|);
        assert OccursAt(s[1..], t, i - 1);
        ContainsAtOffset(s[1..], t);
      }
    }
  }

  /** A slice of the tail is the slice of the string one place further on. */
  lemma SliceOfTail(s: string, i: nat, n: nat)
    requires 0 < |s| && i + n <= |s| - 1
    ensures s[1..][i..i + n] == s[i + 1..i + 1 + n]
  {
    var a, b := s[1..][i..i + n], s[i + 1..i + 1 + n];
    forall k | 0 <= k < n
      ensures a[k] == b[k]
    {
      assert a[k] == s[1..][i + k] == s[i + 1 + k];
    }
  }

  /** No string includes a longer one. */
  lemma {:induction false} TooShortToContain(s: string, t: string)
    requires |s| < |t|
    ensures !Contains(s, t)
    decreases |s|
  {
    if |s| > 0 {
      TooShortToContain(s[1..], t);
    }
  }

  /** Every string includes the empty string. */
  lemma ContainsEmpty(s: string)
    ensures Contains(s, "")
  {
  }

  /** A string that includes `u + v` includes `v`. */
  lemma {:induction false} ContainsSuffix(s: string, u: string, v: string)
    requires Contains(s, u + v)
    ensures Contains(s, v)
    decreases |s|
  {
    if u + v <= s {
      var w := s[|u|..];
      assert v <= w by {
        assert forall k :: 0 <= k < |v| ==> w[k] == (u + v)[|u| + k];
      }
      SuffixContains(s, |u|, v);
    } else {
      ContainsSuffix(s[1..], u, v);
    }
  }

  /** A prefix of `s[n..]` is included in `s`. */
  lemma {:induction false} SuffixContains(s: string, n: nat, v: string)
    requires n <= |s| && v <= s[n..]
    ensures Contains(s, v)
    decreases n
  {
    if n > 0 {
      assert s[1..][n - 1..] == s[n..];
      SuffixContains(s[1..], n - 1, v);
    }
  }

  // ---------------------------------------------------------------------
  // Lower case (`toLowerCase`)

  /** The capital letters mapped by `LowerChar`: ASCII and Latin-1. */
  predicate IsCapital(c: char) {
    'A' <= c <= 'Z' || ('\U{00C0}' <= c <= '\U{00DE}' && c != '\U{00D7}')
  }

  /** Lower-case mapping of one character: ASCII A-Z and the Latin-1
      capitals U+00C0..U+00DE (except the multiplication sign U+00D7) move
      up by 0x20; every other character is left as it is. */
  function LowerChar(c: char): char {
    if IsCapital(c) then (c as int + 32) as char else c
  }

  function Lower(s: string): (r: string)
    ensures |r| == |s|
    ensures forall i :: 0 <= i < |s| ==> r[i] == LowerChar(s[i])
  {
    seq(|s|, i requires 0 <= i < |s| => LowerChar(s[i]))
  }

  /** A character with no capital letter is left alone, and lowering
      leaves no capital letter behind. */
  lemma LowerCharFacts(c: char)
    ensures !IsCapital(c) ==> LowerChar(c) == c
    ensures !IsCapital(LowerChar(c))
  {
  }

  /** A string without capital letters is its own lower-case form. */
  lemma LowerFixesLowerCase(s: string)
    requires forall i :: 0 <= i < |s| ==> !IsCapital(s[i])
    ensures Lower(s) == s
  {
    forall i | 0 <= i < |s| ensures Lower(s)[i] == s[i] {
      LowerCharFacts(s[i]);
    }
  }

  /** Lowering twice is lowering once. */
  lemma LowerIdempotent(s: string)
    ensures Lower(Lower(s)) == Lower(s)
  {
    forall i | 0 <= i < |s| ensures !IsCapital(Lower(s)[i]) {
      LowerCharFacts(s[i]);
    }
    LowerFixesLowerCase(Lower(s));
  }

  /** Lowering works piece by piece. */
  lemma LowerConcat(a: string, b: string)
    ensures Lower(a + b) == Lower(a) + Lower(b)
  {
    assert forall i :: 0 <= i < |a| ==> (a + b)[i] == a[i];
    assert forall i :: |a| <= i < |a| + |b| ==> (a + b)[i] == b[i - |a|];
  }

  /** Lowering both sides keeps an occurrence, so a test on the lowered
      haystack finds a lower-case needle however the text is capitalised. */
  lemma LowerKeepsContains(s: string, t: string)
    requires Contains(s, t)
    ensures Contains(Lower(s), Lower(t))
  {
    ContainsAtOffset(s, t);
    var i: nat :| OccursAt(s, t, i);
    assert Lower(s)[i..i + |t|] == Lower(t) by {
      assert forall k :: 0 <= k < |t| ==> s[i + k] == t[k];
    }
    assert OccursAt(Lower(s), Lower(t), i);
    ContainsAtOffset(Lower(s), Lower(t));
  }

  // ---------------------------------------------------------------------
  // Splitting on one character (`split(' ')`) and joining (`join('\n')`)

  /** Index of the first `c` in `s`, or `|s|` when there is none. */
  function IndexOf(s: string, c: char): (i: nat)
    ensures i <= |s|
    ensures i < |s| ==> s[i] == c
    ensures forall j :: 0 <= j < i ==> s[j] != c
  {
    if |s| == 0 then 0 else if s[0] == c then 0 else 1 + IndexOf(s[1..], c)
  }

  /** `s.split(sep)`: the pieces between the occurrences of `sep`, empty
      pieces included; a string without `sep` gives one piece. */
  function SplitOn(s: string, sep: char): (parts: seq<string>)
    ensures |parts| >= 1
    decreases |s|
  {
    var i := IndexOf(s, sep);
    if i == |s| then [s] else [s[..i]] + SplitOn(s[i + 1..], sep)
  }

  /** `parts.join([sep])`. */
  function Join(parts: seq<string>, sep: char): string
  {
    if |parts| == 0 then ""
    else if |parts| == 1 then parts[0]
    else parts[0] + [sep] + Join(parts[1..], sep)
  }

  /** No piece of a split contains the separator. */
  lemma {:induction false} SplitOnPiecesFree(s: string, sep: char)
    ensures forall k :: 0 <= k < |SplitOn(s, sep)| ==> sep !in SplitOn(s, sep)[k]
    decreases |s|
  {
    var i := IndexOf(s, sep);
    if i < |s| {
      SplitOnPiecesFree(s[i + 1..], sep);
    }
  }

  /** Joining the pieces of a split gives back the string. */
  lemma {:induction false} JoinSplitOn(s: string, sep: char)
    ensures Join(SplitOn(s, sep), sep) == s
    decreases |s|
  {
    var i := IndexOf(s, sep);
    if i < |s| {
      var rest := s[i + 1..];
      var pieces := [s[..i]] + SplitOn(rest, sep);
      JoinSplitOn(rest, sep);
      assert pieces[1..] == SplitOn(rest, sep);
      assert Join(pieces, sep) == s[..i] + [sep] + Join(SplitOn(rest, sep), sep);
      assert s == s[..i] + [sep] + rest;
    }
  }

  /** Splitting a join of separator-free pieces gives back the pieces. */
  lemma {:induction false} SplitOnJoin(parts: seq<string>, sep: char)
    requires |parts| >= 1
    requires forall k :: 0 <= k < |parts| ==> sep !in parts[k]
    ensures SplitOn(Join(parts, sep), sep) == parts
    decreases |parts|
  {
    var p := parts[0];
    if |parts| == 1 {
      assert IndexOf(p, sep) == |p|;
    } else {
      var rest := Join(parts[1..], sep);
      var s := p + [sep] + rest;
      assert s[|p|] == sep;
      var i := IndexOf(s, sep);
      assert i == |p|;
      assert s[..i] == p;
      assert s[i + 1..] == rest;
      SplitOnJoin(parts[1..], sep);
    }
  }

  /** Two adjacent separators produce an empty piece. */
  lemma {:induction false} AdjacentSeparatorsGiveEmptyPiece(s: string, sep: char, i: nat)
    requires i + 1 < |s| && s[i] == sep && s[i + 1] == sep
    ensures "" in SplitOn(s, sep)
    decreases |s|
  {
    var k := IndexOf(s, sep);
    var rest := s[k + 1..];
    if k == i {
      assert IndexOf(rest, sep) == 0;
      assert SplitOn(rest, sep)[0] == "";
      assert SplitOn(s, sep)[1] == "";
    } else {
      AdjacentSeparatorsGiveEmptyPiece(rest, sep, i - k - 1);
      assert SplitOn(s, sep) == [s[..k]] + SplitOn(rest, sep);
    }
  }

  /** Splitting the empty string gives one empty piece. */
  lemma SplitOnEmpty(sep: char)
    ensures SplitOn("", sep) == [""]
  {
  }

  /** The first piece of `s.split(sep)`, i.e. `s.split(sep)[0]`. */
  function FirstPiece(s: string, sep: char): (p: string)
    ensures p <= s && sep !in p
    ensures |p| < |s| ==> s[|p|] == sep
  {
    SplitOn(s, sep)[0]
  }

  // ---------------------------------------------------------------------
  // Whitespace: `trim()` and `split(/\s+/)`

  /** Number of leading whitespace characters. */
  function LeadingSpaces(s: string): (n: nat)
    ensures n <= |s|
    ensures forall k :: 0 <= k < n ==> IsSpace(s[k])
    ensures n < |s| ==> !IsSpace(s[n])
  {
    if |s| == 0 || !IsSpace(s[0]) then 0 else 1 + LeadingSpaces(s[1..])
  }

  /** Number of leading non-whitespace characters. */
  function LeadingWord(s: string): (n: nat)
    ensures n <= |s|
    ensures forall k :: 0 <= k < n ==> !IsSpace(s[k])
    ensures n < |s| ==> IsSpace(s[n])
  {
    if |s| == 0 || IsSpace(s[0]) then 0 else 1 + LeadingWord(s[1..])
  }

  /** Number of trailing whitespace characters. */
  function TrailingSpaces(s: string): (n: nat)
    ensures n <= |s|
    ensures forall k :: |s| - n <= k < |s| ==> IsSpace(s[k])
    ensures n < |s| ==> !IsSpace(s[|s| - 1 - n])
  {
    if |s| == 0 || !IsSpace(s[|s| - 1]) then 0 else 1 + TrailingSpaces(s[..|s| - 1])
  }

  /** `s.trim()`. */
  function Trim(s: string): (r: string)
    ensures |r| <= |s|
    ensures r == "" <==> AllSpaces(s)
  {
    var a := s[LeadingSpaces(s)..];
    assert AllSpaces(a) ==> AllSpaces(s) by {
      assert forall k :: 0 <= k < |s| ==> k < LeadingSpaces(s) || s[k] == a[k - LeadingSpaces(s)];
    }
    a[..|a| - TrailingSpaces(a)]
  }

  /** `s.split(/\s+/)`: the pieces between maximal runs of whitespace; a
      leading or trailing run yields an empty piece at that end. */
  function SplitSpaces(s: string): (fields: seq<string>)
    ensures |fields| >= 1
    decreases |s|
  {
    var i := LeadingWord(s);
    if i == |s| then [s]
    else
      var rest := s[i..];
      var j := LeadingSpaces(rest);
      [s[..i]] + SplitSpaces(rest[j..])
  }

  /** Reference count of words: maximal runs of non-whitespace. */
  function Words(s: string): nat
    decreases |s|
  {
    if |s| == 0 then 0
    else if IsSpace(s[0]) then Words(s[1..])
    else 1 + Words(s[LeadingWord(s)..])
  }

  /** `answer.trim().split(/\s+/).length`. */
  function WordCount(s: string): (n: nat)
    ensures n >= 1
  {
    |SplitSpaces(Trim(s))|
  }

  /** Leading whitespace contributes no word. */
  lemma {:induction false} WordsSkipSpaces(s: string, n: nat)
    requires n <= |s| && AllSpaces(s[..n])
    ensures Words(s) == Words(s[n..])
    decreases n
  {
    if n > 0 {
      assert IsSpace(s[..n][0]);
      assert s[1..][..n - 1] == s[..n][1..];
      WordsSkipSpaces(s[1..], n - 1);
      assert s[1..][n - 1..] == s[n..];
    }
  }

  /** The leading word of `t + u` is that of `t` when `t` ends in a space or
      `u` starts with one. */
  lemma {:induction false} LeadingWordConcat(t: string, u: string)
    requires LeadingWord(t) < |t| || (|u| > 0 && IsSpace(u[0])) || |u| == 0
    ensures LeadingWord(t + u) == LeadingWord(t)
    decreases |t|
  {
    if |t| == 0 {
      assert t + u == u;
    } else if !IsSpace(t[0]) {
      assert (t + u)[1..] == t[1..] + u;
      LeadingWordConcat(t[1..], u);
    }
  }

  /** Trailing whitespace contributes no word. */
  lemma {:induction false} WordsIgnoreTrailingSpaces(t: string, u: string)
    requires AllSpaces(u)
    ensures Words(t + u) == Words(t)
    decreases |t|
  {
    if |t| == 0 {
      assert t + u == u;
      WordsSkipSpaces(u, |u|);
      assert u[|u|..] == "";
    } else if IsSpace(t[0]) {
      assert (t + u)[1..] == t[1..] + u;
      WordsIgnoreTrailingSpaces(t[1..], u);
    } else {
      var n := LeadingWord(t);
      LeadingWordConcat(t, u);
      assert (t + u)[n..] == t[n..] + u;
      WordsIgnoreTrailingSpaces(t[n..], u);
    }
  }

  /** On a string without surrounding whitespace, `split(/\s+/)` yields
      exactly one piece per word. */
  lemma {:induction false} SplitSpacesCountsWords(t: string)
    requires |t| > 0 && !IsSpace(t[0]) && !IsSpace(t[|t| - 1])
    ensures |SplitSpaces(t)| == Words(t)
    decreases |t|
  {
    var i := LeadingWord(t);
    assert Words(t) == 1 + Words(t[i..]);
    if i == |t| {
      assert t[i..] == "";
    } else {
      var rest := t[i..];
      var j := LeadingSpaces(rest);
      assert j < |rest|;
      assert rest[..j] == rest[..j];
      WordsSkipSpaces(rest, j);
      var t' := rest[j..];
      assert t'[|t'| - 1] == t[|t| - 1];
      SplitSpacesCountsWords(t');
    }
  }

  /** The word count the scorer uses is the number of words, except that a
      blank answer counts as one word (`"".split(/\s+/)` is `[""]`). */
  lemma WordCountIsWords(s: string)
    ensures WordCount(s) == if Words(s) == 0 then 1 else Words(s)
  {
    var t := Trim(s);
    WordsOfTrim(s);
    if |t| == 0 {
      assert SplitSpaces(t) == [""];
    } else {
      assert !IsSpace(t[0]);
      assert !IsSpace(t[|t| - 1]);
      SplitSpacesCountsWords(t);
    }
  }

  /** Trimming keeps every word, and leaves no whitespace at either end. */
  lemma WordsOfTrim(s: string)
    ensures Words(Trim(s)) == Words(s)
    ensures |Trim(s)| > 0 ==> !IsSpace(Trim(s)[0]) && !IsSpace(Trim(s)[|Trim(s)| - 1])
  {
    var a := LeadingSpaces(s);
    var rest := s[a..];
    var b := TrailingSpaces(rest);
    var t := rest[..|rest| - b];
    assert Trim(s) == t;
    assert AllSpaces(s[..a]);
    WordsSkipSpaces(s, a);
    TrimmedTail(rest, b);
    if |t| > 0 {
      assert t[0] == s[a];
      assert t[|t| - 1] == rest[|rest| - 1 - b];
    }
  }

  /** Cutting trailing whitespace off keeps every word. */
  lemma TrimmedTail(rest: string, b: nat)
    requires b <= |rest|
    requires forall k :: |rest| - b <= k < |rest| ==> IsSpace(rest[k])
    ensures Words(rest[..|rest| - b]) == Words(rest)
  {
    var t, tail := rest[..|rest| - b], rest[|rest| - b..];
    assert rest == t + tail;
    assert forall k :: 0 <= k < |tail| ==> tail[k] == rest[|rest| - b + k];
    WordsIgnoreTrailingSpaces(t, tail);
  }
}
