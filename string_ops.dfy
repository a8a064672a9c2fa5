/** The JavaScript string operations that the humanizer, the export engine and
    the export centre rely on, restated over `seq<char>`. */
module StringOps {

  // ---------------------------------------------------------------------------
  // split / join
  // ---------------------------------------------------------------------------

  /** `s.split(sep)` for a non-empty separator: the string is scanned from the
      left and cut at every non-overlapping occurrence of `sep`; the empty
      string gives one empty piece. */
  function Split(s: string, sep: string): (parts: seq<string>)
    requires sep != []
    ensures |parts| >= 1
    decreases |s|
  {
    if |s| < |sep| then [s]
    else if s[..|sep|] == sep then [""] + Split(s[|sep|..], sep)
    else
      var rest := Split(s[1..], sep);
      [[s[0]] + rest[0]] + rest[1..]
  }

  /** `parts.join(sep)`. */
  function Join(parts: seq<string>, sep: string): string
  {
    if parts == [] then ""
    else if |parts| == 1 then parts[0]
    else parts[0] + sep + Join(parts[1..], sep)
  }

  /** Joining a piece in front of a non-empty list puts one separator between. */
  lemma JoinCons(first: string, rest: seq<string>, sep: string)
    requires |rest| >= 1
    ensures Join([first] + rest, sep) == first + sep + Join(rest, sep)
  {
    assert ([first] + rest)[1..] == rest;
  }

  lemma {:induction false} JoinConsHead(c: string, parts: seq<string>, sep: string)
    requires |parts| >= 1
    ensures Join([c + parts[0]] + parts[1..], sep) == c + Join(parts, sep)
  {
    var q := [c + parts[0]] + parts[1..];
    if |parts| > 1 {
      assert q[1..] == parts[1..];
    }
  }

  /** Splitting and re-joining with the same separator gives the string back. */
  lemma {:induction false} JoinSplit(s: string, sep: string)
    requires sep != []
    ensures Join(Split(s, sep), sep) == s
    decreases |s|
  {
    if |s| < |sep| {
      assert Split(s, sep) == [s];
    } else if s[..|sep|] == sep {
      var t := s[|sep|..];
      var rest := Split(t, sep);
      assert Split(s, sep) == [""] + rest;
      assert Join(rest, sep) == t by {
        JoinSplit(t, sep);
      }
      assert Join([""] + rest, sep) == "" + sep + Join(rest, sep) by {
        JoinCons("", rest, sep);
      }
      assert s == sep + t;
    } else {
      var t := s[1..];
      var rest := Split(t, sep);
      assert Split(s, sep) == [[s[0]] + rest[0]] + rest[1..];
      assert Join(rest, sep) == t by {
        JoinSplit(t, sep);
      }
      assert Join([[s[0]] + rest[0]] + rest[1..], sep) == [s[0]] + Join(rest, sep) by {
        JoinConsHead([s[0]], rest, sep);
      }
      assert s == [s[0]] + t;
    }
  }

  lemma ConcatAssoc<T>(x: seq<T>, y: seq<T>, z: seq<T>)
    ensures x + (y + z) == (x + y) + z
  {
  }

  /** `sep` occurs in `t` starting at position `k`. */
  predicate OccursAt(t: string, sep: string, k: nat)
  {
    k + |sep| <= |t| && t[k..k + |sep|] == sep
  }

  /** No occurrence of `sep` in `t` starts before position `n`. */
  predicate NoneBefore(t: string, sep: string, n: nat)
  {
    forall k :: 0 <= k < n ==> !OccursAt(t, sep, k)
  }

  /** The first piece is a prefix of the text and, when the text was cut, the
      separator follows it. */
  lemma {:induction false} SplitPrefix(s: string, sep: string)
    requires sep != []
    ensures var parts := Split(s, sep);
      && |parts[0]| <= |s| && s[..|parts[0]|] == parts[0]
      && (|parts| > 1 ==> |parts[0]| + |sep| <= |s| && s[..|parts[0]| + |sep|] == parts[0] + sep)
    decreases |s|
  {
    if |s| < |sep| {
      assert Split(s, sep) == [s];
    } else if s[..|sep|] == sep {
      assert Split(s, sep)[0] == "";
    } else {
      var t := s[1..];
      var rest := Split(t, sep);
      var p := rest[0];
      assert Split(s, sep) == [[s[0]] + p] + rest[1..];
      assert |p| <= |t| && t[..|p|] == p
        && (|rest| > 1 ==> |p| + |sep| <= |t| && t[..|p| + |sep|] == p + sep) by {
        SplitPrefix(t, sep);
      }
      assert s[..1 + |p|] == [s[0]] + p by {
        assert s[..1 + |p|] == [s[0]] + t[..|p|];
      }
      if |rest| > 1 {
        assert s[..1 + |p| + |sep|] == ([s[0]] + p) + sep by {
          assert s[..1 + |p| + |sep|] == [s[0]] + t[..|p| + |sep|];
          ConcatAssoc([s[0]], p, sep);
        }
      }
    }
  }

  /** An occurrence past the first character of `[c] + t` is one in `t`. */
  lemma OccursAtCons(c: char, t: string, sep: string, k: nat)
    requires k >= 1
    ensures OccursAt([c] + t, sep, k) <==> OccursAt(t, sep, k - 1)
  {
    if k + |sep| <= |t| + 1 {
      assert ([c] + t)[k..k + |sep|] == t[k - 1..k - 1 + |sep|];
    }
  }

  /** `split` scans from the left and cuts at the first occurrence: no piece
      holds the separator, and in a piece followed by the separator the first
      occurrence is the one that ends the piece. */
  lemma {:induction false} SplitLeftmost(s: string, sep: string)
    requires sep != []
    ensures forall i :: 0 <= i < |Split(s, sep)| ==> NoneBefore(Split(s, sep)[i], sep, |Split(s, sep)[i]|)
    ensures forall i :: 0 <= i < |Split(s, sep)| - 1 ==>
      NoneBefore(Split(s, sep)[i] + sep, sep, |Split(s, sep)[i]|)
    decreases |s|
  {
    var parts := Split(s, sep);
    if |s| < |sep| {
      assert parts == [s];
    } else if s[..|sep|] == sep {
      var rest := Split(s[|sep|..], sep);
      SplitLeftmost(s[|sep|..], sep);
      assert parts == [""] + rest;
      forall i | 1 <= i < |parts|
        ensures NoneBefore(parts[i], sep, |parts[i]|)
        ensures i < |parts| - 1 ==> NoneBefore(parts[i] + sep, sep, |parts[i]|)
      {
        assert parts[i] == rest[i - 1];
      }
    } else {
      var rest := Split(s[1..], sep);
      SplitLeftmost(s[1..], sep);
      assert NoneBefore(rest[0], sep, |rest[0]|);
      SplitPrefix(s, sep);
      var first := [s[0]] + rest[0];
      assert parts == [first] + rest[1..];
      forall i | 1 <= i < |parts|
        ensures NoneBefore(parts[i], sep, |parts[i]|)
        ensures i < |parts| - 1 ==> NoneBefore(parts[i] + sep, sep, |parts[i]|)
      {
        assert parts[i] == rest[i];
      }
      assert NoneBefore(first, sep, |first|) by {
        forall k | 0 <= k < |first| ensures !OccursAt(first, sep, k) {
          if k == 0 {
            if |sep| <= |first| {
              assert first[..|sep|] == s[..|sep|];
            }
          } else {
            assert !OccursAt(rest[0], sep, k - 1);
            OccursAtCons(s[0], rest[0], sep, k);
          }
        }
      }
      if |parts| > 1 {
        assert NoneBefore(first + sep, sep, |first|) by {
          forall k | 0 <= k < |first| ensures !OccursAt(first + sep, sep, k) {
            if k == 0 {
              assert (first + sep)[..|sep|] == s[..|sep|];
            } else {
              assert first + sep == [s[0]] + (rest[0] + sep);
              assert !OccursAt(rest[0] + sep, sep, k - 1);
              OccursAtCons(s[0], rest[0] + sep, sep, k);
            }
          }
        }
      }
    }
  }

  /** Joining two non-empty lists puts one separator between their joins. */
  lemma {:induction false} JoinAppend(a: seq<string>, b: seq<string>, sep: string)
    requires a != [] && b != []
    ensures Join(a + b, sep) == Join(a, sep) + sep + Join(b, sep)
  {
    if |a| == 1 {
      assert (a + b)[1..] == b;
    } else {
      JoinAppend(a[1..], b, sep);
      assert (a + b)[1..] == a[1..] + b;
    }
  }

  /** Inserting a part after the first `p` parts puts it, with one separator
      in front, right after the join of those `p` parts. */
  lemma JoinInsert(parts: seq<string>, p: nat, x: string, sep: string)
    requires 0 < p <= |parts|
    ensures var a := Join(parts[..p], sep);
      var whole := Join(parts, sep);
      && |a| <= |whole| && whole[..|a|] == a
      && (p < |parts| ==> whole[|a|..] == sep + Join(parts[p..], sep))
      && Join(parts[..p] + [x] + parts[p..], sep) == a + sep + x + whole[|a|..]
  {
    var a := Join(parts[..p], sep);
    var whole := Join(parts, sep);
    if p < |parts| {
      var b := Join(parts[p..], sep);
      assert parts == parts[..p] + parts[p..];
      JoinAppend(parts[..p], parts[p..], sep);
      assert whole == a + sep + b;
      assert whole[..|a|] == a;
      assert whole[|a|..] == sep + b;
      assert parts[..p] + [x] + parts[p..] == parts[..p] + ([x] + parts[p..]);
      JoinAppend(parts[..p], [x] + parts[p..], sep);
      assert ([x] + parts[p..])[1..] == parts[p..];
      assert Join([x] + parts[p..], sep) == x + sep + b;
    } else {
      assert parts[..p] == parts;
      assert parts[..p] + [x] + parts[p..] == parts + [x];
      JoinAppend(parts, [x], sep);
      assert whole[..|a|] == a && whole[|a|..] == [];
    }
  }

  /** Splitting on one character around an occurrence of it: the pieces of
      the text before and the pieces of the text after, in that order. */
  lemma {:induction false} SplitAround(a: string, c: char, b: string)
    ensures Split(a + [c] + b, [c]) == Split(a, [c]) + Split(b, [c])
    decreases |a|
  {
    var s := a + [c] + b;
    if a == [] {
      assert s[..1] == [c] && s[1..] == b;
      assert Split(a, [c]) == [""];
    } else if a[0] == c {
      var tail := a[1..] + [c] + b;
      assert s[..1] == [c] && s[1..] == tail && a[..1] == [c];
      SplitAround(a[1..], c, b);
      ConcatAssoc([""], Split(a[1..], [c]), Split(b, [c]));
    } else {
      var tail := a[1..] + [c] + b;
      var rest := Split(a[1..], [c]);
      var after := Split(b, [c]);
      assert s[..1] != [c] && s[0] == a[0] && s[1..] == tail && a[..1] != [c];
      SplitAround(a[1..], c, b);
      assert (rest + after)[0] == rest[0] && (rest + after)[1..] == rest[1..] + after;
      ConcatAssoc([[a[0]] + rest[0]], rest[1..], after);
    }
  }

  /** Number of occurrences of `c` in `s`. */
  function Occurrences(s: string, c: char): nat
  {
    if s == [] then 0 else (if s[0] == c then 1 else 0) + Occurrences(s[1..], c)
  }

  /** Splitting on one character gives one piece more than there are
      occurrences of that character. */
  lemma {:induction false} SplitCount(s: string, c: char)
    ensures |Split(s, [c])| == Occurrences(s, c) + 1
    decreases |s|
  {
    if s != [] {
      SplitCount(s[1..], c);
      if s[0] == c {
        assert s[..1] == [c];
      } else {
        assert s[..1] != [c];
      }
    }
  }

  // ---------------------------------------------------------------------------
  // characters
  // ---------------------------------------------------------------------------

  /** A character of the regular-expression class `\w`. */
  predicate IsWordChar(c: char)
  {
    ('a' <= c <= 'z') || ('A' <= c <= 'Z') || ('0' <= c <= '9') || c == '_'
  }

  predicate IsAsciiAlnum(c: char)
  {
    ('a' <= c <= 'z') || ('A' <= c <= 'Z') || ('0' <= c <= '9')
  }

  /** `toLowerCase` on one character, restricted to the ASCII letters. */
  function LowerChar(c: char): char
  {
    if 'A' <= c <= 'Z' then (c as int + 32) as char else c
  }

  function Lower(s: string): (r: string)
    ensures |r| == |s|
    ensures forall i :: 0 <= i < |s| ==> r[i] == LowerChar(s[i])
  {
    if s == [] then [] else [LowerChar(s[0])] + Lower(s[1..])
  }

  /** The characters `String.prototype.trim` removes: ECMAScript WhiteSpace
      and LineTerminator code points. */
  predicate IsJsWhitespace(c: char)
  {
    c == ' ' || c == '\t' || c == '\n' || c == '\r' || c == '\U{000B}' || c == '\U{000C}'
    || c == '\U{00A0}' || c == '\U{FEFF}' || c == '\U{1680}'
    || ('\U{2000}' <= c <= '\U{200A}')
    || c == '\U{2028}' || c == '\U{2029}' || c == '\U{202F}' || c == '\U{205F}' || c == '\U{3000}'
  }

  /** `s.trim()` is empty: the string is falsy after trimming. */
  predicate IsBlank(s: string)
  {
    forall i :: 0 <= i < |s| ==> IsJsWhitespace(s[i])
  }

  predicate StartsWith(s: string, prefix: string)
  {
    |prefix| <= |s| && s[..|prefix|] == prefix
  }

  /** `c.repeat(n)` for a one-character string. */
  function Repeat(c: char, n: nat): (r: string)
    ensures |r| == n
    ensures forall i :: 0 <= i < n ==> r[i] == c
  {
    if n == 0 then [] else [c] + Repeat(c, n - 1)
  }

  function DigitChar(d: nat): char
    requires d < 10
  {
    ('0' as int + d) as char
  }

  /** Decimal rendering of a natural number, as template literals do. */
  function NatToString(n: nat): (r: string)
    ensures r != []
    ensures forall i :: 0 <= i < |r| ==> '0' <= r[i] <= '9'
  {
    if n < 10 then [DigitChar(n)] else NatToString(n / 10) + [DigitChar(n % 10)]
  }
}
