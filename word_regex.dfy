/** The one regular expression the humanizer builds: `new RegExp("\\b" + word
    + "\\b", "gi")` used with `String.prototype.replace`, for a literal `word`
    that contains no regular-expression metacharacters. */
module WordRegex {
  import opened StringOps

  /** JavaScript's `\b` at position `k`: exactly one of the two neighbouring
      characters is a word character; outside the string counts as non-word. */
  predicate Boundary(s: string, k: nat)
    requires k <= |s|
  {
    (k > 0 && IsWordChar(s[k - 1])) != (k < |s| && IsWordChar(s[k]))
  }

  /** The `i` flag, for ASCII letters. */
  predicate SameIgnoringCase(a: char, b: char)
  {
    LowerChar(a) == LowerChar(b)
  }

  /** `\b<pat>\b` with the `i` flag matches `s` at position `i`. */
  predicate MatchAt(s: string, pat: string, i: nat)
  {
    && i + |pat| <= |s|
    && Boundary(s, i)
    && Boundary(s, i + |pat|)
    && forall k :: 0 <= k < |pat| ==> SameIgnoringCase(s[i + k], pat[k])
  }

  /** The global replace, resumed at position `i` of the original string: a
      match is replaced and skipped over, any other character is copied. */
  function ReplaceFrom(s: string, pat: string, rep: string, i: nat): string
    requires pat != [] && i <= |s|
    decreases |s| - i
  {
    if i == |s| then ""
    else if MatchAt(s, pat, i) then rep + ReplaceFrom(s, pat, rep, i + |pat|)
    else [s[i]] + ReplaceFrom(s, pat, rep, i + 1)
  }

  /** `s.replace(/\b<pat>\b/gi, rep)`. */
  function ReplaceWord(s: string, pat: string, rep: string): string
    requires pat != []
  {
    ReplaceFrom(s, pat, rep, 0)
  }

  /** A stretch of the string where no match starts is copied unchanged. */
  lemma {:induction false} CopiesUntil(s: string, pat: string, rep: string, i: nat, j: nat)
    requires pat != [] && i <= j <= |s|
    requires forall m :: i <= m < j ==> !MatchAt(s, pat, m)
    ensures ReplaceFrom(s, pat, rep, i) == s[i..j] + ReplaceFrom(s, pat, rep, j)
    decreases j - i
  {
    if i < j {
      assert !MatchAt(s, pat, i);
      assert ReplaceFrom(s, pat, rep, i) == [s[i]] + ReplaceFrom(s, pat, rep, i + 1);
      CopiesUntil(s, pat, rep, i + 1, j);
      assert s[i..j] == [s[i]] + s[i + 1..j];
    }
  }

  /** Text in which the pattern never matches as a whole word is returned
      unchanged, in particular occurrences inside longer words. */
  lemma ReplaceWordNoMatch(s: string, pat: string, rep: string)
    requires pat != []
    requires forall m :: 0 <= m < |s| ==> !MatchAt(s, pat, m)
    ensures ReplaceWord(s, pat, rep) == s
  {
    CopiesUntil(s, pat, rep, 0, |s|);
  }

  /** A single whole-word occurrence is replaced and everything around it is
      kept verbatim. */
  lemma ReplaceWordSingle(s: string, pat: string, rep: string, i: nat)
    requires pat != []
    requires MatchAt(s, pat, i)
    requires forall m :: 0 <= m < |s| && m != i ==> !MatchAt(s, pat, m)
    ensures ReplaceWord(s, pat, rep) == s[..i] + rep + s[i + |pat|..]
  {
    var j := i + |pat|;
    CopiesUntil(s, pat, rep, 0, i);
    CopiesUntil(s, pat, rep, j, |s|);
    calc {
      ReplaceWord(s, pat, rep);
      s[0..i] + ReplaceFrom(s, pat, rep, i);
      s[0..i] + (rep + ReplaceFrom(s, pat, rep, j));
      s[0..i] + (rep + (s[j..|s|] + ReplaceFrom(s, pat, rep, |s|)));
      { assert ReplaceFrom(s, pat, rep, |s|) == ""; assert s[j..|s|] + "" == s[j..]; }
      s[..i] + (rep + s[j..]);
    }
  }

  /** No match starts in `[i, j)`. */
  predicate NoMatchBetween(s: string, pat: string, i: nat, j: nat)
  {
    forall m :: i <= m < j ==> !MatchAt(s, pat, m)
  }

  /** `ps` are the positions the left-to-right scan from `from` replaces: each
      is a match, no match starts in the stretch before it, the scan resumes
      after it, and after the last one no match starts before the end. */
  predicate Scan(s: string, pat: string, ps: seq<nat>, from: nat)
    decreases |ps|
  {
    && from <= |s|
    && if ps == [] then NoMatchBetween(s, pat, from, |s|)
       else
         && from <= ps[0]
         && MatchAt(s, pat, ps[0])
         && NoMatchBetween(s, pat, from, ps[0])
         && Scan(s, pat, ps[1..], ps[0] + |pat|)
  }

  /** The text between the replaced matches: one piece before each match and
      one after the last. */
  function Gaps(s: string, pat: string, ps: seq<nat>, from: nat): (gaps: seq<string>)
    requires Scan(s, pat, ps, from)
    ensures |gaps| == |ps| + 1
    decreases |ps|
  {
    if ps == [] then [s[from..]]
    else [s[from..ps[0]]] + Gaps(s, pat, ps[1..], ps[0] + |pat|)
  }

  /** The positions the scan from `from` replaces. */
  function MatchPositions(s: string, pat: string, from: nat): seq<nat>
    requires pat != [] && from <= |s|
    decreases |s| - from
  {
    if from == |s| then []
    else if MatchAt(s, pat, from) then [from] + MatchPositions(s, pat, from + |pat|)
    else MatchPositions(s, pat, from + 1)
  }

  /** The computed positions are a scan: the scan always exists. */
  lemma {:induction false} MatchPositionsScan(s: string, pat: string, from: nat)
    requires pat != [] && from <= |s|
    ensures Scan(s, pat, MatchPositions(s, pat, from), from)
    decreases |s| - from
  {
    if from < |s| {
      var ps := MatchPositions(s, pat, from);
      if MatchAt(s, pat, from) {
        MatchPositionsScan(s, pat, from + |pat|);
        assert ps[1..] == MatchPositions(s, pat, from + |pat|);
      } else {
        MatchPositionsScan(s, pat, from + 1);
        if ps != [] {
          assert Scan(s, pat, ps[1..], ps[0] + |pat|);
        }
      }
    }
  }

  /** The next match of the scan: the stretch before it is copied and the
      match itself is replaced. */
  lemma ReplaceFromMatch(s: string, pat: string, rep: string, from: nat, p: nat)
    requires pat != [] && from <= p && MatchAt(s, pat, p) && NoMatchBetween(s, pat, from, p)
    ensures ReplaceFrom(s, pat, rep, from) == s[from..p] + rep + ReplaceFrom(s, pat, rep, p + |pat|)
  {
    CopiesUntil(s, pat, rep, from, p);
  }

  /** Joining the gaps of a non-empty scan: the first gap, the replacement,
      then the join of the remaining gaps. */
  lemma GapsJoinStep(s: string, pat: string, rep: string, ps: seq<nat>, from: nat)
    requires Scan(s, pat, ps, from) && ps != []
    ensures Join(Gaps(s, pat, ps, from), rep)
      == s[from..ps[0]] + rep + Join(Gaps(s, pat, ps[1..], ps[0] + |pat|), rep)
  {
    JoinCons(s[from..ps[0]], Gaps(s, pat, ps[1..], ps[0] + |pat|), rep);
  }

  /** The `g` flag: along a scan, every match is replaced by `rep` and the
      text between matches is kept verbatim. */
  lemma {:induction false} ReplaceFromScan(s: string, pat: string, rep: string, ps: seq<nat>, from: nat)
    requires pat != [] && Scan(s, pat, ps, from)
    ensures ReplaceFrom(s, pat, rep, from) == Join(Gaps(s, pat, ps, from), rep)
    decreases |ps|
  {
    if ps == [] {
      CopiesUntil(s, pat, rep, from, |s|);
    } else {
      ReplaceFromScan(s, pat, rep, ps[1..], ps[0] + |pat|);
      ReplaceFromMatch(s, pat, rep, from, ps[0]);
      GapsJoinStep(s, pat, rep, ps, from);
    }
  }

  /** `s.replace(/\b<pat>\b/gi, rep)` for every input: the pieces between the
      scan's matches, joined with the replacement. */
  lemma ReplaceWordAll(s: string, pat: string, rep: string)
    requires pat != []
    ensures var ps := MatchPositions(s, pat, 0);
      Scan(s, pat, ps, 0) && ReplaceWord(s, pat, rep) == Join(Gaps(s, pat, ps, 0), rep)
  {
    MatchPositionsScan(s, pat, 0);
    ReplaceFromScan(s, pat, rep, MatchPositions(s, pat, 0), 0);
  }

  /** In "do not, do not" the scan replaces the words at 0 and at 8. */
  lemma DoNotTwiceScan(s: string, pat: string)
    requires s == "do not, do not" && pat == "do not"
    ensures Scan(s, pat, [0, 8], 0)
  {
    assert MatchAt(s, pat, 0) by {
      assert s[..6] == pat;
    }
    assert MatchAt(s, pat, 8) by {
      assert s[8..] == pat;
    }
    assert NoMatchBetween(s, pat, 6, 8);
    assert NoMatchBetween(s, pat, 14, |s|);
    assert [0, 8][1..] == [8] && [8][1..] == [];
  }

  /** Both occurrences are replaced, not only the first. */
  lemma ReplaceWordTwice(s: string, pat: string)
    requires s == "do not, do not" && pat == "do not"
    ensures ReplaceWord(s, pat, "don't") == "don't, don't"
  {
    DoNotTwiceScan(s, pat);
    assert ReplaceWord(s, pat, "don't") == Join(Gaps(s, pat, [0, 8], 0), "don't") by {
      ReplaceFromScan(s, pat, "don't", [0, 8], 0);
    }
    assert Gaps(s, pat, [0, 8], 0) == ["", ", ", ""] by {
      assert [0, 8][1..] == [8] && [8][1..] == [];
      assert s[0..0] == "" && s[6..8] == ", " && s[14..] == "";
    }
    assert Join(["", ", ", ""], "don't") == "don't, don't" by {
      JoinCons(", ", [""], "don't");
      JoinCons("", [", ", ""], "don't");
    }
  }
}
