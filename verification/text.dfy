/** The pieces of Python's `str` that the circuit notation uses:
    `sep.join(xs)`, `s.split(sep)`, `s.split()[-1]`, `str(int)` and `int(c)`
    for a single character. */
module Text {
  import opened Outcomes

  /** `sep.join(xs)` */
  function Join(xs: seq<string>, sep: string): string
    decreases |xs|
  {
    if |xs| == 0 then ""
    else if |xs| == 1 then xs[0]
    else xs[0] + sep + Join(xs[1..], sep)
  }

  /** A join starts with the first element and ends with the last one; the
      empty list joins to "". */
  lemma {:induction false} JoinEnds(xs: seq<string>, sep: string)
    ensures |xs| == 0 ==> Join(xs, sep) == ""
    ensures |xs| > 0 ==> |xs[0]| <= |Join(xs, sep)| && Join(xs, sep)[..|xs[0]|] == xs[0]
    ensures |xs| > 0 ==> var r := Join(xs, sep);
      |xs[|xs| - 1]| <= |r| && r[|r| - |xs[|xs| - 1]|..] == xs[|xs| - 1]
    decreases |xs|
  {
    if |xs| > 1 {
      JoinEnds(xs[1..], sep);
      assert xs[1..][|xs[1..]| - 1] == xs[|xs| - 1];
    }
  }

  /** `s.split(sep)` for a non-empty separator: the pieces between the
      leftmost non-overlapping occurrences of `sep`. A separator at the
      front cuts off an empty first piece; otherwise the first character
      belongs to the first piece of the split of the rest. */
  function Split(s: string, sep: string): (r: seq<string>)
    requires |sep| > 0
    ensures |r| >= 1
    decreases |s|
  {
    if |s| < |sep| then [s]
    else if s[..|sep|] == sep then [""] + Split(s[|sep|..], sep)
    else
      var rest := Split(s[1..], sep);
      [[s[0]] + rest[0]] + rest[1..]
  }

  /** Joining a list with a first element in front. */
  lemma JoinCons(x: string, xs: seq<string>, sep: string)
    requires |xs| > 0
    ensures Join([x] + xs, sep) == x + sep + Join(xs, sep)
  {
    assert ([x] + xs)[1..] == xs;
  }

  /** Joining after putting one character in front of the first element. */
  lemma JoinHeadChar(c: char, xs: seq<string>, sep: string)
    requires |xs| > 0
    ensures Join([[c] + xs[0]] + xs[1..], sep) == [c] + Join(xs, sep)
  {
    if |xs| > 1 {
      JoinCons([c] + xs[0], xs[1..], sep);
      JoinCons(xs[0], xs[1..], sep);
      assert xs == [xs[0]] + xs[1..];
    }
  }

  /** Joining the pieces of a split with the same separator gives back the string. */
  lemma {:induction false} JoinSplit(s: string, sep: string)
    requires |sep| > 0
    ensures Join(Split(s, sep), sep) == s
    decreases |s|
  {
    if |s| < |sep| {
    } else if s[..|sep|] == sep {
      JoinSplit(s[|sep|..], sep);
      assert Split(s, sep) == [""] + Split(s[|sep|..], sep);
      JoinCons("", Split(s[|sep|..], sep), sep);
      assert s == s[..|sep|] + s[|sep|..];
    } else {
      JoinSplit(s[1..], sep);
      var rest := Split(s[1..], sep);
      assert Split(s, sep) == [[s[0]] + rest[0]] + rest[1..];
      JoinHeadChar(s[0], rest, sep);
      assert s == [s[0]] + s[1..];
    }
  }

  /** `sep` occurs in `w` at position `j`. */
  predicate OccursAt(w: string, sep: string, j: nat) {
    j + |sep| <= |w| && w[j..j + |sep|] == sep
  }

  /** `w` holds no occurrence of `sep`. */
  predicate NoOccurrence(w: string, sep: string) {
    forall j: nat | j <= |w| :: !OccursAt(w, sep, j)
  }

  /** A character put in front of a string without `sep` creates no
      occurrence unless `sep` now starts the string. */
  lemma ConsKeepsNoOccurrence(c: char, x: string, sep: string)
    requires NoOccurrence(x, sep)
    requires |sep| <= |x| + 1 ==> ([c] + x)[..|sep|] != sep
    ensures NoOccurrence([c] + x, sep)
  {
    var w := [c] + x;
    forall j: nat | j <= |w|
      ensures !OccursAt(w, sep, j)
    {
      if j > 0 && j + |sep| <= |w| {
        assert !OccursAt(x, sep, j - 1);
        assert w[j..j + |sep|] == x[j - 1..j - 1 + |sep|];
      }
    }
  }

  /** The first piece of a split is a prefix of the string. */
  lemma {:induction false} SplitFirstIsPrefix(s: string, sep: string)
    requires |sep| > 0
    ensures var w := Split(s, sep)[0]; |w| <= |s| && w == s[..|w|]
    decreases |s|
  {
    if |s| < |sep| {
      assert Split(s, sep) == [s];
    } else if s[..|sep|] == sep {
      assert Split(s, sep) == [""] + Split(s[|sep|..], sep);
    } else {
      var rest := Split(s[1..], sep);
      assert Split(s, sep) == [[s[0]] + rest[0]] + rest[1..];
      SplitFirstIsPrefix(s[1..], sep);
      assert s[..|rest[0]| + 1] == [s[0]] + s[1..][..|rest[0]|];
    }
  }

  /** No piece of a split holds the separator: the string is cut at every
      occurrence that the scan from the left meets. With `JoinSplit` this
      fixes the pieces of a separator that cannot overlap itself. */
  lemma {:induction false} SplitPiecesHaveNoSeparator(s: string, sep: string)
    requires |sep| > 0
    ensures forall k :: 0 <= k < |Split(s, sep)| ==> NoOccurrence(Split(s, sep)[k], sep)
    decreases |s|
  {
    var r := Split(s, sep);
    if |s| < |sep| {
      assert r == [s];
    } else if s[..|sep|] == sep {
      SplitPiecesHaveNoSeparator(s[|sep|..], sep);
      assert r == [""] + Split(s[|sep|..], sep);
    } else {
      var rest := Split(s[1..], sep);
      SplitPiecesHaveNoSeparator(s[1..], sep);
      SplitFirstIsPrefix(s[1..], sep);
      var w := [s[0]] + rest[0];
      assert r == [w] + rest[1..];
      if |sep| <= |w| {
        assert w == s[..|w|];
        assert w[..|sep|] == s[..|sep|];
      }
      ConsKeepsNoOccurrence(s[0], rest[0], sep);
      assert NoOccurrence(w, sep);
      assert r[0] == w;
      forall k | 1 <= k < |r|
        ensures NoOccurrence(r[k], sep)
      {
        assert r[k] == rest[k];
      }
    }
  }

  /** The last piece of a split. */
  function LastPiece(s: string, sep: string): string
    requires |sep| > 0
  {
    Split(s, sep)[|Split(s, sep)| - 1]
  }

  /** A separator at the front does not touch the last piece. */
  lemma LastPieceAfterSeparator(s: string, sep: string)
    requires |sep| > 0 && |s| >= |sep| && s[..|sep|] == sep
    ensures LastPiece(s, sep) == LastPiece(s[|sep|..], sep)
  {
    var tail := Split(s[|sep|..], sep);
    assert Split(s, sep) == [""] + tail;
  }

  /** A first character that does not start a separator ends up in the last
      piece only when the rest of the string has no separator. */
  lemma LastPieceAfterChar(s: string, sep: string)
    requires |sep| > 0 && |s| >= |sep| && s[..|sep|] != sep
    ensures var rest := Split(s[1..], sep);
      LastPiece(s, sep) == if |rest| == 1 then [s[0]] + rest[0] else LastPiece(s[1..], sep)
  {
    var rest := Split(s[1..], sep);
    var pieces := [[s[0]] + rest[0]] + rest[1..];
    assert Split(s, sep) == pieces;
    assert |pieces| == |rest|;
    if |rest| > 1 {
      assert pieces[|pieces| - 1] == rest[|rest| - 1];
    }
  }

  /** When the string does not end like the separator, the last piece of
      a split is not empty and ends with the string's last character. */
  lemma {:induction false} SplitLastKeepsEnd(s: string, sep: string)
    requires |sep| > 0 && |s| > 0 && s[|s| - 1] != sep[|sep| - 1]
    ensures |LastPiece(s, sep)| > 0 && LastPiece(s, sep)[|LastPiece(s, sep)| - 1] == s[|s| - 1]
    decreases |s|
  {
    if |s| < |sep| {
      assert Split(s, sep) == [s];
    } else if s[..|sep|] == sep {
      // the separator's last character sits at |sep| - 1, so that is not the end
      assert s[|sep| - 1] == s[..|sep|][|sep| - 1];
      LastPieceAfterSeparator(s, sep);
      SplitLastKeepsEnd(s[|sep|..], sep);
    } else {
      LastPieceAfterChar(s, sep);
      if |s| == 1 {
        assert Split(s[1..], sep) == [""];
      } else {
        SplitLastKeepsEnd(s[1..], sep);
      }
    }
  }

  /** Python's `str.isspace()` for one character below 128: space, tab,
      newline, vertical tab, form feed and carriage return (0x09 to 0x0D),
      and the four separators 0x1C to 0x1F. */
  predicate IsSpace(c: char) {
    c == ' ' || '\t' <= c <= '\r' || '\U{1C}' <= c <= '\U{1F}'
  }

  /** `s.split()[-1]`: the last whitespace-separated word, or `IndexError`
      when `s` holds no word. The word is the slice `s[j - |w|..j]` that
      only whitespace follows and that whitespace or the start of `s`
      precedes. */
  function LastWord(s: string): (r: Result<string>)
    ensures r.Err? <==> forall k :: 0 <= k < |s| ==> IsSpace(s[k])
    ensures r.Err? ==> r.error == IndexError
    ensures r.Ok? ==> |r.value| > 0 && forall k :: 0 <= k < |r.value| ==> !IsSpace(r.value[k])
    ensures r.Ok? ==> exists j :: IsLastWordEnd(s, r.value, j)
    ensures r.Ok? && !IsSpace(s[|s| - 1]) ==> r.value[|r.value| - 1] == s[|s| - 1]
    decreases |s|
  {
    if |s| == 0 then Err(IndexError)
    else if IsSpace(s[|s| - 1]) then
      var t := s[..|s| - 1];
      var r := LastWord(t);
      assert forall k :: 0 <= k < |t| ==> t[k] == s[k];
      assert r.Ok? ==> exists j :: IsLastWordEnd(s, r.value, j) by {
        if r.Ok? {
          var j :| IsLastWordEnd(t, r.value, j);
          WordEndExtends(s, r.value, j);
        }
      }
      r
    else
      var w := TrailingWord(s);
      assert IsLastWordEnd(s, w, |s|);
      Ok(w)
  }

  /** A word end in `s` minus its last character stays a word end in `s`
      when that character is whitespace. */
  lemma WordEndExtends(s: string, w: string, j: int)
    requires |s| > 0 && IsSpace(s[|s| - 1]) && IsLastWordEnd(s[..|s| - 1], w, j)
    ensures IsLastWordEnd(s, w, j)
  {
    var t := s[..|s| - 1];
    assert s[j - |w|..j] == t[j - |w|..j];
    assert forall k :: j <= k < |t| ==> s[k] == t[k];
  }

  /** `w` is the slice of `s` ending at `j`, only whitespace follows it, and
      whitespace or the start of `s` precedes it. */
  ghost predicate IsLastWordEnd(s: string, w: string, j: int) {
    |w| <= j <= |s| && w == s[j - |w|..j]
    && (forall k :: j <= k < |s| ==> IsSpace(s[k]))
    && (j == |w| || IsSpace(s[j - |w| - 1]))
  }

  /** The longest suffix of `s` without whitespace. */
  function TrailingWord(s: string): (w: string)
    ensures |w| <= |s| && w == s[|s| - |w|..]
    ensures forall k :: 0 <= k < |w| ==> !IsSpace(w[k])
    ensures |w| < |s| ==> IsSpace(s[|s| - |w| - 1])
    decreases |s|
  {
    if |s| == 0 || IsSpace(s[|s| - 1]) then ""
    else TrailingWord(s[..|s| - 1]) + [s[|s| - 1]]
  }

  function DigitChar(d: int): (c: char)
    requires 0 <= d < 10
    ensures '0' <= c <= '9' && c as int - '0' as int == d
  {
    (d + '0' as int) as char
  }

  /** `int(c)` for a one-character string, on ASCII digits. */
  function DigitValue(c: char): (r: Result<int>)
    ensures r.Ok? <==> '0' <= c <= '9'
    ensures r.Ok? ==> 0 <= r.value < 10 && DigitChar(r.value) == c
    ensures r.Err? ==> r.error == ValueError
  {
    if '0' <= c <= '9' then Ok(c as int - '0' as int) else Err(ValueError)
  }

  /** `str(n)` for a natural number: its decimal digits, without a leading
      zero. */
  function NatToString(n: nat): (s: string)
    ensures |s| >= 1 && IsDigits(s)
    ensures n < 10 ==> s == [DigitChar(n)]
    ensures n >= 10 ==> s[0] != '0'
    decreases n
  {
    if n < 10 then [DigitChar(n)] else NatToString(n / 10) + [DigitChar(n % 10)]
  }

  predicate IsDigits(s: string) {
    forall k :: 0 <= k < |s| ==> '0' <= s[k] <= '9'
  }

  /** `int(s)` for a run of decimal digits: the digits read most
      significant first, each through `DigitValue`. */
  function DigitsValue(s: string): (n: nat)
    requires IsDigits(s)
    decreases |s|
  {
    if |s| == 0 then 0
    else DigitsValue(s[..|s| - 1]) * 10 + DigitValue(s[|s| - 1]).value
  }

  /** Reading back the digits `str` prints gives the number. */
  lemma {:induction false} NatToStringRoundTrip(n: nat)
    ensures DigitsValue(NatToString(n)) == n
    decreases n
  {
    var s := NatToString(n);
    if n < 10 {
      assert s[..0] == "";
    } else {
      NatToStringRoundTrip(n / 10);
      assert s[..|s| - 1] == NatToString(n / 10);
    }
  }

  /** `str(i)` for an integer: a minus sign before the digits of its
      magnitude when it is negative. */
  function IntToString(i: int): (s: string)
    ensures |s| >= 1
    ensures s[0] == '-' <==> i < 0
    ensures i < 0 ==> s[1..] == NatToString(-i)
    ensures i >= 0 ==> s == NatToString(i)
    ensures 0 <= i < 10 ==> s == [DigitChar(i)]
  {
    if i < 0 then "-" + NatToString(-i) else NatToString(i)
  }

  /** The digits after the optional sign of `str(i)` read back as the
      magnitude of `i`. */
  lemma IntToStringRoundTrip(i: int)
    ensures var s := IntToString(i);
      if i < 0 then IsDigits(s[1..]) && DigitsValue(s[1..]) == -i
      else IsDigits(s) && DigitsValue(s) == i
  {
    if i < 0 {
      NatToStringRoundTrip(-i);
    } else {
      NatToStringRoundTrip(i);
    }
  }
}
