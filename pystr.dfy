/**
 * The Python `str` operations the aggregator relies on: `strip()` and `split()`
 * with no argument, and `replace(old, "")`. A Python `str` is a sequence of
 * code points, modelled as `string`.
 */
module PyStr {

  /** `str.isspace()` for one code point: the separator set of `strip()` and `split()`. */
  predicate IsSpace(c: char) {
    || ('\t' <= c <= '\r')                 // tab, line feed, vertical tab, form feed, carriage return
    || ('\U{1C}' <= c <= '\U{1F}')         // file, group, record and unit separators
    || c == ' '
    || c == '\U{85}' || c == '\U{A0}' || c == '\U{1680}'
    || ('\U{2000}' <= c <= '\U{200A}')
    || c == '\U{2028}' || c == '\U{2029}' || c == '\U{202F}' || c == '\U{205F}' || c == '\U{3000}'
  }

  predicate AllSpace(s: string) {
    forall i | 0 <= i < |s| :: IsSpace(s[i])
  }

  predicate NoSpace(s: string) {
    forall i | 0 <= i < |s| :: !IsSpace(s[i])
  }

  /** A field of `split()`: non-empty and free of whitespace. */
  predicate IsWord(w: string) {
    w != [] && NoSpace(w)
  }

  /** `str.lstrip()`: the whitespace at the start of `s` dropped. */
  function TrimStart(s: string): string {
    if s != [] && IsSpace(s[0]) then TrimStart(s[1..]) else s
  }

  /** `str.rstrip()`: the whitespace at the end of `s` dropped. */
  function TrimEnd(s: string): string {
    if s != [] && IsSpace(s[|s| - 1]) then TrimEnd(s[..|s| - 1]) else s
  }

  /** `str.strip()`: the whitespace at both ends of `s` dropped. */
  function Strip(s: string): string {
    TrimEnd(TrimStart(s))
  }

  /** `TrimStart` drops a whitespace prefix, and exactly the longest one. */
  lemma {:induction false} TrimStartSpec(s: string)
    ensures var r := TrimStart(s);
      && |r| <= |s| && r == s[|s| - |r|..]
      && AllSpace(s[..|s| - |r|])
      && (r == [] || !IsSpace(r[0]))
    decreases |s|
  {
    if s != [] && IsSpace(s[0]) {
      TrimStartSpec(s[1..]);
      var r := TrimStart(s);
      var k := |s| - |r|;
      assert s[..k] == [s[0]] + s[1..][..k - 1];
    }
  }

  /** `TrimEnd` drops a whitespace suffix, and exactly the longest one. */
  lemma {:induction false} TrimEndSpec(s: string)
    ensures var r := TrimEnd(s);
      && |r| <= |s| && r == s[..|r|]
      && AllSpace(s[|r|..])
      && (r == [] || !IsSpace(r[|r| - 1]))
    decreases |s|
  {
    if s != [] && IsSpace(s[|s| - 1]) {
      var p := s[..|s| - 1];
      TrimEndSpec(p);
      var r := TrimEnd(s);
      assert s[|r|..] == p[|r|..] + [s[|s| - 1]];
    }
  }

  /**
   * What `strip()` promises: the result neither starts nor ends with
   * whitespace, and it is empty exactly when `s` is all whitespace.
   */
  lemma StripSpec(s: string)
    ensures var r := Strip(s);
      && (r == [] || (!IsSpace(r[0]) && !IsSpace(r[|r| - 1])))
      && (r == [] <==> AllSpace(s))
  {
    var t := TrimStart(s);
    var k := |s| - |t|;
    var r := TrimEnd(t);
    TrimStartSpec(s);
    TrimEndSpec(t);
    assert r != [] ==> r[0] == t[0];
    if r != [] {
      assert s[k] == r[0];
    } else {
      assert t[|r|..] == t;
      assert s[..k] == s;
    }
  }

  /** `Strip` cuts only whitespace, and only from the two ends: what remains is a slice of `s`. */
  lemma StripIsTrimmedSlice(s: string)
    ensures exists k | 0 <= k <= |s| - |Strip(s)| ::
      Strip(s) == s[k..k + |Strip(s)|] && AllSpace(s[..k]) && AllSpace(s[k + |Strip(s)|..])
  {
    var t := TrimStart(s);
    var k := |s| - |t|;
    var r := TrimEnd(t);
    TrimStartSpec(s);
    TrimEndSpec(t);
    assert r == s[k..k + |r|];
    assert s[k + |r|..] == t[|r|..];
  }

  /** The longest whitespace-free prefix of `s`: non-empty when `s` starts with a non-space. */
  function LeadingWord(s: string): (w: string)
    ensures |w| <= |s|
    ensures s != [] && !IsSpace(s[0]) ==> w != []
  {
    if s == [] || IsSpace(s[0]) then [] else [s[0]] + LeadingWord(s[1..])
  }

  /** `LeadingWord(s)` is a whitespace-free prefix of `s` that cannot be extended. */
  lemma {:induction false} LeadingWordSpec(s: string)
    ensures var w := LeadingWord(s);
      && w == s[..|w|] && NoSpace(w)
      && (|w| == |s| || IsSpace(s[|w|]))
    decreases |s|
  {
    if s != [] && !IsSpace(s[0]) {
      LeadingWordSpec(s[1..]);
      var v := LeadingWord(s[1..]);
      assert s[..|v| + 1] == [s[0]] + v;
    }
  }

  /** `str.split()` with no separator: the maximal runs of non-whitespace, in order. */
  function Split(s: string): (r: seq<string>)
    decreases |s|
  {
    if s == [] then []
    else if IsSpace(s[0]) then Split(s[1..])
    else
      var w := LeadingWord(s);
      [w] + Split(s[|w|..])
  }

  /** Every field of `split()` is a word, and there is none exactly when `s` is all whitespace. */
  lemma {:induction false} SplitSpec(s: string)
    ensures forall i | 0 <= i < |Split(s)| :: IsWord(Split(s)[i])
    ensures Split(s) == [] <==> AllSpace(s)
    decreases |s|
  {
    if s == [] {
    } else if IsSpace(s[0]) {
      SplitSpec(s[1..]);
      assert AllSpace(s[1..]) ==> AllSpace(s) by {
        if AllSpace(s[1..]) {
          forall i | 0 <= i < |s| ensures IsSpace(s[i]) {
            if i > 0 { assert s[i] == s[1..][i - 1]; }
          }
        }
      }
    } else {
      var w := LeadingWord(s);
      LeadingWordSpec(s);
      SplitSpec(s[|w|..]);
      assert !AllSpace(s);
    }
  }

  /** `" ".join(words)`, the inverse of `Split` on words. */
  function Join(words: seq<string>): string {
    if words == [] then ""
    else if |words| == 1 then words[0]
    else words[0] + " " + Join(words[1..])
  }

  /**
   * `s.replace(pat, "")`: removes the occurrences of `pat` met in one
   * left-to-right scan, each resumed after the one removed; an empty `pat`
   * leaves `s` unchanged. Only code points of `s` survive.
   */
  function RemoveAll(s: string, pat: string): (r: string)
    ensures |r| <= |s|
    decreases |s|
  {
    if pat == [] || |s| < |pat| then s
    else if s[..|pat|] == pat then RemoveAll(s[|pat|..], pat)
    else [s[0]] + RemoveAll(s[1..], pat)
  }

  /** `replace(pat, "")` only drops code points: none is added. */
  lemma {:induction false} RemoveAllKeeps(s: string, pat: string)
    ensures multiset(RemoveAll(s, pat)) <= multiset(s)
    decreases |s|
  {
    if pat == [] || |s| < |pat| {
    } else if s[..|pat|] == pat {
      RemoveAllKeeps(s[|pat|..], pat);
      assert s == s[..|pat|] + s[|pat|..];
    } else {
      RemoveAllKeeps(s[1..], pat);
      assert s == [s[0]] + s[1..];
    }
  }

  /** `s` with every `c` dropped: the reference meaning of removing a one-code-point pattern. */
  function Without(s: string, c: char): (r: string)
    ensures c !in r
    ensures forall d | d != c :: multiset(r)[d] == multiset(s)[d]
  {
    if s == [] then []
    else
      assert s == [s[0]] + s[1..];
      (if s[0] == c then [] else [s[0]]) + Without(s[1..], c)
  }

  lemma {:induction false} LeadingWordOfWord(w: string, t: string)
    requires IsWord(w)
    requires t == [] || IsSpace(t[0])
    ensures LeadingWord(w + t) == w
    decreases |w|
  {
    assert (w + t)[0] == w[0];
    if |w| > 1 {
      assert (w + t)[1..] == w[1..] + t;
      LeadingWordOfWord(w[1..], t);
    } else {
      assert (w + t)[1..] == t;
    }
  }

  /** A word followed by whitespace (or by nothing) is the first field. */
  lemma SplitWordThen(w: string, t: string)
    requires IsWord(w)
    requires t == [] || IsSpace(t[0])
    ensures Split(w + t) == [w] + Split(t)
  {
    LeadingWordOfWord(w, t);
    assert (w + t)[|w|..] == t;
  }

  /** Joining words with single spaces and splitting again gives the words back. */
  lemma {:induction false} SplitJoin(words: seq<string>)
    requires forall i | 0 <= i < |words| :: IsWord(words[i])
    ensures Split(Join(words)) == words
  {
    if |words| == 1 {
      SplitWordThen(words[0], "");
      assert words[0] + "" == words[0];
    } else if |words| > 1 {
      var rest := " " + Join(words[1..]);
      assert Join(words) == words[0] + rest;
      SplitWordThen(words[0], rest);
      assert rest[1..] == Join(words[1..]);
      SplitJoin(words[1..]);
      assert words == [words[0]] + words[1..];
    }
  }

  /** Whitespace appended to a line adds no field. */
  lemma {:induction false} SplitIgnoresTrailingSpace(s: string, c: char)
    requires IsSpace(c)
    ensures Split(s + [c]) == Split(s)
    decreases |s|
  {
    var t := s + [c];
    if s == [] {
      assert t[1..] == [];
    } else if IsSpace(s[0]) {
      assert t[1..] == s[1..] + [c];
      SplitIgnoresTrailingSpace(s[1..], c);
    } else {
      var w := LeadingWord(s);
      LeadingWordSpec(s);
      assert s == w + s[|w|..];
      assert t == w + (s[|w|..] + [c]);
      LeadingWordOfWord(w, s[|w|..] + [c]);
      LeadingWordOfWord(w, s[|w|..]);
      assert t[|w|..] == s[|w|..] + [c];
      SplitIgnoresTrailingSpace(s[|w|..], c);
    }
  }

  lemma {:induction false} SplitIgnoresTrimEnd(s: string)
    ensures Split(TrimEnd(s)) == Split(s)
    decreases |s|
  {
    if s != [] && IsSpace(s[|s| - 1]) {
      SplitIgnoresTrimEnd(s[..|s| - 1]);
      assert s == s[..|s| - 1] + [s[|s| - 1]];
      SplitIgnoresTrailingSpace(s[..|s| - 1], s[|s| - 1]);
    }
  }

  lemma {:induction false} SplitIgnoresTrimStart(s: string)
    ensures Split(TrimStart(s)) == Split(s)
    decreases |s|
  {
    if s != [] && IsSpace(s[0]) {
      SplitIgnoresTrimStart(s[1..]);
    }
  }

  /** `line.strip().split()` and `line.split()` give the same fields. */
  lemma SplitIgnoresStrip(s: string)
    ensures Split(Strip(s)) == Split(s)
  {
    SplitIgnoresTrimEnd(TrimStart(s));
    SplitIgnoresTrimStart(s);
  }

  /** Removing a one-code-point pattern drops exactly that code point. */
  lemma {:induction false} RemoveAllOneChar(s: string, c: char)
    ensures RemoveAll(s, [c]) == Without(s, c)
    decreases |s|
  {
    if s != [] {
      RemoveAllOneChar(s[1..], c);
      if s[0] == c {
        assert s[..1] == [c];
        assert RemoveAll(s, [c]) == RemoveAll(s[1..], [c]);
        assert Without(s, c) == Without(s[1..], c);
      } else {
        assert s[..1][0] != c;
        assert RemoveAll(s, [c]) == [s[0]] + RemoveAll(s[1..], [c]);
        assert Without(s, c) == [s[0]] + Without(s[1..], c);
      }
    }
  }

  /** A pattern whose first code point does not occur in `s` removes nothing. */
  lemma {:induction false} RemoveAllAbsent(s: string, pat: string)
    requires pat != [] && pat[0] !in s
    ensures RemoveAll(s, pat) == s
    decreases |s|
  {
    if |s| >= |pat| {
      assert s[..|pat|][0] == s[0];
      RemoveAllAbsent(s[1..], pat);
      assert s == [s[0]] + s[1..];
    }
  }

  /** A pattern that does not start inside `s` is removed from its end: the `.txt` of `name.txt`. */
  lemma {:induction false} RemoveAllTrailing(s: string, pat: string)
    requires pat != [] && pat[0] !in s
    ensures RemoveAll(s + pat, pat) == s
    decreases |s|
  {
    if s == [] {
      assert s + pat == pat;
      assert pat[..|pat|] == pat;
    } else {
      assert (s + pat)[..|pat|][0] == s[0];
      assert (s + pat)[1..] == s[1..] + pat;
      RemoveAllTrailing(s[1..], pat);
    }
  }
}
