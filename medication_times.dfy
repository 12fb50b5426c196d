/**
 * The medication "times" field of the dashboard: the free-text input is split on
 * every comma and each piece is trimmed (`medTimes.split(',').map(t => t.trim())`).
 * No clock-time format is checked.
 */
module MedicationTimes {

  /** The characters JavaScript's `String.prototype.trim` removes: the WhiteSpace
      and LineTerminator code points of ECMA-262 (sections 12.2 and 12.3). */
  predicate IsBlank(c: char) {
    c == '\t' || c == '\n' || c == '\U{000B}' || c == '\U{000C}' || c == '\r' || c == ' '
    || c == '\U{00A0}' || c == '\U{1680}' || ('\U{2000}' <= c <= '\U{200A}')
    || c == '\U{2028}' || c == '\U{2029}' || c == '\U{202F}' || c == '\U{205F}'
    || c == '\U{3000}' || c == '\U{FEFF}'
  }

  /** Every character of `s` is blank. */
  predicate AllBlank(s: string) {
    forall k :: 0 <= k < |s| ==> IsBlank(s[k])
  }

  /** Neither starts nor ends with a blank. */
  predicate IsTrimmed(s: string) {
    s == [] || (!IsBlank(s[0]) && !IsBlank(s[|s| - 1]))
  }

  /** The first position at or after `i` that does not hold a blank, or `|s|` if there is none. */
  function SkipBlanks(s: string, i: nat): (k: nat)
    requires i <= |s|
    ensures i <= k <= |s|
    ensures forall m :: i <= m < k ==> IsBlank(s[m])
    ensures k == |s| || !IsBlank(s[k])
    decreases |s| - i
  {
    if i < |s| && IsBlank(s[i]) then SkipBlanks(s, i + 1) else i
  }

  /** Going back from `j` but not below `lo`, the position just after the last character
      that is not blank, or `lo` if there is none. */
  function BackOverBlanks(s: string, lo: nat, j: nat): (k: nat)
    requires lo <= j <= |s|
    ensures lo <= k <= j
    ensures forall m :: k <= m < j ==> IsBlank(s[m])
    ensures k == lo || !IsBlank(s[k - 1])
    decreases j
  {
    if lo < j && IsBlank(s[j - 1]) then BackOverBlanks(s, lo, j - 1) else j
  }

  /** `s.trim()`: the blanks at both ends of `s` cut off. */
  function Trim(s: string): (r: string)
    ensures IsTrimmed(r) && |r| <= |s|
  {
    var i := SkipBlanks(s, 0);
    s[i..BackOverBlanks(s, i, |s|)]
  }

  /** What `Trim` removes is blank and what it keeps is one contiguous slice of its input:
      `s` is `i` blanks, then `Trim(s)`, then blanks again. */
  lemma TrimCutsBlanks(s: string) returns (i: nat)
    ensures i + |Trim(s)| <= |s| && Trim(s) == s[i..i + |Trim(s)|]
    ensures AllBlank(s[..i]) && AllBlank(s[i + |Trim(s)|..])
  {
    i := SkipBlanks(s, 0);
    var j := BackOverBlanks(s, i, |s|);
    assert forall k :: 0 <= k < i ==> s[..i][k] == s[k];
    assert forall k :: 0 <= k < |s| - j ==> s[j..][k] == s[j + k];
  }

  /** Trimming adds no character: a character absent from `s` is absent from its trim. */
  lemma TrimKeepsOut(s: string, c: char)
    requires c !in s
    ensures c !in Trim(s)
  {
    var i := SkipBlanks(s, 0);
    var j := BackOverBlanks(s, i, |s|);
    assert forall k :: 0 <= k < j - i ==> s[i..j][k] == s[i + k];
  }

  /** `s.split(sep)` for a one-character separator: the pieces between separators, in order;
      the empty string gives one empty piece. */
  function Split(s: string, sep: char): (pieces: seq<string>)
    ensures |pieces| == Occurrences(s, sep) + 1
    decreases |s|
  {
    if s == [] then [""]
    else
      var rest := Split(s[1..], sep);
      if s[0] == sep then [""] + rest
      else [[s[0]] + rest[0]] + rest[1..]
  }

  /** No piece of a split contains the separator. */
  lemma {:induction false} SplitPiecesFree(s: string, sep: char)
    ensures forall i :: 0 <= i < |Split(s, sep)| ==> sep !in Split(s, sep)[i]
    decreases |s|
  {
    if s != [] {
      SplitPiecesFree(s[1..], sep);
    }
  }

  /** How many times `c` occurs in `s`. */
  function Occurrences(s: string, c: char): (n: nat)
    ensures n <= |s|
  {
    if s == [] then 0
    else
      (if s[0] == c then 1 else 0) + Occurrences(s[1..], c)
  }

  /** `Occurrences` is the multiplicity of `c` in the multiset of the characters of `s`. */
  lemma {:induction false} OccurrencesIsMultiplicity(s: string, c: char)
    ensures Occurrences(s, c) == multiset(s)[c]
  {
    if s != [] {
      OccurrencesIsMultiplicity(s[1..], c);
      assert s == [s[0]] + s[1..];
    }
  }

  /** `pieces.join(sep)`: the inverse of `Split`. */
  function Join(pieces: seq<string>, sep: char): (s: string)
    requires |pieces| > 0
  {
    if |pieces| == 1 then pieces[0] else pieces[0] + [sep] + Join(pieces[1..], sep)
  }

  /** Splitting loses nothing: joining the pieces back gives the input. */
  lemma {:induction false} JoinSplit(s: string, sep: char)
    ensures Join(Split(s, sep), sep) == s
    decreases |s|
  {
    if s != [] {
      var tail := s[1..];
      JoinSplit(tail, sep);
      var rest := Split(tail, sep);
      var p := Split(s, sep);
      if s[0] == sep {
        assert p[0] == [] && p[1..] == rest;
        assert Join(p, sep) == [sep] + Join(rest, sep);
      } else {
        var head := [s[0]] + rest[0];
        assert p[0] == head && p[1..] == rest[1..];
        if |rest| > 1 {
          assert Join(p, sep) == head + [sep] + Join(rest[1..], sep);
          assert Join(rest, sep) == rest[0] + [sep] + Join(rest[1..], sep);
        }
      }
      assert s == [s[0]] + tail;
    }
  }

  /** A piece free of separators followed by a separator becomes one piece of its own. */
  lemma {:induction false} SplitFirstPiece(a: string, sep: char, t: string)
    requires sep !in a
    ensures Split(a + [sep] + t, sep) == [a] + Split(t, sep)
    decreases |a|
  {
    if a == [] {
      assert [] + [sep] + t == [sep] + t;
      assert ([sep] + t)[1..] == t;
    } else {
      SplitFirstPiece(a[1..], sep, t);
      assert (a + [sep] + t)[1..] == a[1..] + [sep] + t;
      assert [a[0]] + a[1..] == a;
    }
  }

  /** A string free of separators is a single piece. */
  lemma {:induction false} SplitNoSeparator(a: string, sep: char)
    requires sep !in a
    ensures Split(a, sep) == [a]
    decreases |a|
  {
    if a != [] {
      SplitNoSeparator(a[1..], sep);
      assert [a[0]] + a[1..] == a;
    }
  }

  /** Joining pieces free of separators and splitting again gives back the pieces. */
  lemma {:induction false} SplitJoin(pieces: seq<string>, sep: char)
    requires |pieces| > 0
    requires forall i :: 0 <= i < |pieces| ==> sep !in pieces[i]
    ensures Split(Join(pieces, sep), sep) == pieces
    decreases |pieces|
  {
    if |pieces| == 1 {
      SplitNoSeparator(pieces[0], sep);
    } else {
      SplitJoin(pieces[1..], sep);
      SplitFirstPiece(pieces[0], sep, Join(pieces[1..], sep));
    }
  }

  /** The trimmed pieces of the medication form's "times" input, as sent in the `times` column. */
  function ParseTimes(input: string): (times: seq<string>)
    ensures |times| == Occurrences(input, ',') + 1
    ensures forall i :: 0 <= i < |times| ==> IsTrimmed(times[i]) && ',' !in times[i]
    ensures forall i :: 0 <= i < |times| ==> times[i] == Trim(Split(input, ',')[i])
  {
    var pieces := Split(input, ',');
    assert forall i :: 0 <= i < |pieces| ==> ',' !in Trim(pieces[i]) by {
      SplitPiecesFree(input, ',');
      forall i | 0 <= i < |pieces| {
        TrimKeepsOut(pieces[i], ',');
      }
    }
    seq(|pieces|, i requires 0 <= i < |pieces| => Trim(pieces[i]))
  }

  /** Trimming is determined by its result: whatever blanks surround a trimmed string, trimming returns it. */
  lemma TrimSurrounded(a: string, m: string, b: string)
    requires AllBlank(a) && AllBlank(b) && IsTrimmed(m)
    ensures Trim(a + m + b) == m
  {
    var s := a + m + b;
    assert forall k :: 0 <= k < |a| ==> s[k] == a[k];
    assert forall k :: 0 <= k < |m| ==> s[|a| + k] == m[k];
    assert forall k :: 0 <= k < |b| ==> s[|a| + |m| + k] == b[k];
    var i := SkipBlanks(s, 0);
    var j := BackOverBlanks(s, i, |s|);
    if m == [] {
      assert i == |s|;
    } else {
      assert i == |a|;
      assert j == |a| + |m|;
      assert s[i..j] == m;
    }
  }

  /** Without a comma the whole input, trimmed, is the one time: nothing checks that it is a clock time. */
  lemma ParseTimesSingle(input: string)
    requires ',' !in input
    ensures ParseTimes(input) == [Trim(input)]
  {
    SplitNoSeparator(input, ',');
    var times := ParseTimes(input);
    assert |times| == 1 && times[0] == Trim(input);
  }

  /** Two pieces give two times, each the trim of its piece. */
  lemma ParseTwoPieces(input: string, first: string, second: string)
    requires Split(input, ',') == [first, second]
    ensures ParseTimes(input) == [Trim(first), Trim(second)]
  {
    var times := ParseTimes(input);
    assert |times| == 2;
  }

  /** Two times separated by a comma and blanks come out as exactly those two times. */
  lemma ParseTimesPair(first: string, gap: string, second: string)
    requires IsTrimmed(first) && IsTrimmed(second) && AllBlank(gap)
    requires ',' !in first && ',' !in gap + second
    ensures ParseTimes(first + [','] + (gap + second)) == [first, second]
  {
    var rest := gap + second;
    var input := first + [','] + rest;
    assert Split(input, ',') == [first, rest] by {
      SplitFirstPiece(first, ',', rest);
      SplitNoSeparator(rest, ',');
    }
    ParseTwoPieces(input, first, rest);
    assert Trim(first) == first by {
      TrimSurrounded([], first, []);
      assert [] + first + [] == first;
    }
    assert Trim(rest) == second by {
      TrimSurrounded(gap, second, []);
      assert gap + second + [] == rest;
    }
  }

  /** The example of the medication form: "08:00, 20:00" gives the two times "08:00" and "20:00". */
  lemma ParseTimesTwoTimes()
    ensures ParseTimes("08:00, 20:00") == ["08:00", "20:00"]
  {
    ParseTimesPair("08:00", " ", "20:00");
    assert "08:00" + [','] + (" " + "20:00") == "08:00, 20:00";
  }

  /** An empty input still gives one (empty) time. */
  lemma ParseTimesEmpty()
    ensures ParseTimes("") == [""]
  {
    var times := ParseTimes("");
    assert |times| == 1 && times[0] == Trim("");
  }
}
