/**
 * The few java.lang and java.util behaviours the game server relies on:
 * null (as Option), String.split with a one-character delimiter,
 * Integer.parseInt, decimal printing of an int, joining with a separator
 * and List.remove(Object).
 */
module Lang {

  datatype Option<+T> = None | Some(value: T)

  const INT_MIN: int := -0x8000_0000
  const INT_MAX: int := 0x7fff_ffff

  predicate IsInt32(n: int) {
    INT_MIN <= n <= INT_MAX
  }

  // ---------------------------------------------------------------------
  // String.split(d) for a delimiter that is a single literal character
  // ---------------------------------------------------------------------

  /** Every piece between occurrences of `d`, including empty ones. */
  function Pieces(s: string, d: char): (r: seq<string>)
    ensures |r| >= 1
    ensures forall i :: 0 <= i < |r| ==> d !in r[i]
  {
    if |s| == 0 then [""]
    else if s[0] == d then [""] + Pieces(s[1..], d)
    else
      var rest := Pieces(s[1..], d);
      [[s[0]] + rest[0]] + rest[1..]
  }

  /** Java's split removes trailing empty strings from the result. */
  function DropTrailingEmpty(ps: seq<string>): (r: seq<string>)
    ensures |r| <= |ps| && r == ps[..|r|]
    ensures |r| > 0 ==> r[|r| - 1] != ""
    ensures forall i :: |r| <= i < |ps| ==> ps[i] == ""
  {
    if |ps| > 0 && ps[|ps| - 1] == "" then DropTrailingEmpty(ps[..|ps| - 1]) else ps
  }

  /**
   * `s.split(d)`: when `d` does not occur the result is `[s]` (so `""` gives
   * `[""]`); otherwise all pieces with the trailing empty ones removed, which
   * can leave nothing at all (`":".split(":")` is empty).
   */
  function Split(s: string, d: char): (r: seq<string>)
    ensures d !in s ==> r == [s]
    ensures forall i :: 0 <= i < |r| ==> d !in r[i]
  {
    if d !in s then [s] else DropTrailingEmpty(Pieces(s, d))
  }

  /** The pieces joined with `d` between each two of them. */
  function Join(ps: seq<string>, d: char): string {
    if |ps| == 0 then ""
    else if |ps| == 1 then ps[0]
    else ps[0] + [d] + Join(ps[1..], d)
  }

  lemma {:induction false} PiecesOfPlain(a: string, d: char)
    requires d !in a
    ensures Pieces(a, d) == [a]
  {
    if |a| > 0 {
      PiecesOfPlain(a[1..], d);
      assert [a[0]] + a[1..] == a;
    }
  }

  lemma {:induction false} PiecesOfSeparated(a: string, d: char, b: string)
    requires d !in a
    ensures Pieces(a + [d] + b, d) == [a] + Pieces(b, d)
  {
    if |a| == 0 {
      assert a + [d] + b == [d] + b;
      assert ([d] + b)[1..] == b;
    } else {
      var s := a + [d] + b;
      assert s[0] == a[0] && s[1..] == a[1..] + [d] + b;
      PiecesOfSeparated(a[1..], d, b);
      assert [a[0]] + a[1..] == a;
    }
  }

  /** Splitting undoes joining: pieces free of `d` come back unchanged. */
  lemma {:induction false} PiecesOfJoin(ps: seq<string>, d: char)
    requires |ps| >= 1
    requires forall i :: 0 <= i < |ps| ==> d !in ps[i]
    ensures Pieces(Join(ps, d), d) == ps
  {
    if |ps| == 1 {
      PiecesOfPlain(ps[0], d);
    } else {
      PiecesOfJoin(ps[1..], d);
      PiecesOfSeparated(ps[0], d, Join(ps[1..], d));
      assert [ps[0]] + ps[1..] == ps;
    }
  }

  lemma {:induction false} JoinContains(ps: seq<string>, d: char)
    requires |ps| >= 2
    ensures d in Join(ps, d)
  {
    var j := Join(ps, d);
    assert j[|ps[0]|] == d;
  }

  /**
   * `Join(ps, d).split(d) == ps` when no piece contains `d` and the last piece
   * is not empty (or there is only one piece).
   */
  lemma SplitOfJoin(ps: seq<string>, d: char)
    requires |ps| >= 1
    requires forall i :: 0 <= i < |ps| ==> d !in ps[i]
    requires |ps| == 1 || ps[|ps| - 1] != ""
    ensures Split(Join(ps, d), d) == ps
  {
    if |ps| == 1 {
    } else {
      JoinContains(ps, d);
      PiecesOfJoin(ps, d);
    }
  }

  /** Joining the pieces of `s` gives `s` back: the pieces partition the string. */
  lemma {:induction false} JoinOfPieces(s: string, d: char)
    ensures Join(Pieces(s, d), d) == s
  {
    if |s| == 0 {
    } else if s[0] == d {
      JoinOfPieces(s[1..], d);
      var rest := Pieces(s[1..], d);
      assert ([""] + rest)[1..] == rest;
      assert [d] + s[1..] == s;
    } else {
      JoinOfPieces(s[1..], d);
      var rest := Pieces(s[1..], d);
      var r := [[s[0]] + rest[0]] + rest[1..];
      assert r[1..] == rest[1..];
      if |rest| == 1 {
        assert [s[0]] + s[1..] == s;
      } else {
        assert Join(rest, d) == rest[0] + [d] + Join(rest[1..], d);
        assert [s[0]] + s[1..] == s;
      }
    }
  }

  /** The pieces of a string made only of `d`s are all empty. */
  lemma {:induction false} PiecesOfRun(s: string, d: char)
    requires forall i :: 0 <= i < |s| ==> s[i] == d
    ensures forall i :: 0 <= i < |Pieces(s, d)| ==> Pieces(s, d)[i] == ""
  {
    if |s| > 0 {
      PiecesOfRun(s[1..], d);
    }
  }

  /** Joining empty pieces leaves only separators. */
  lemma {:induction false} JoinOfEmpties(ps: seq<string>, d: char)
    requires forall i :: 0 <= i < |ps| ==> ps[i] == ""
    ensures forall i :: 0 <= i < |Join(ps, d)| ==> Join(ps, d)[i] == d
  {
    if |ps| >= 2 {
      JoinOfEmpties(ps[1..], d);
      assert Join(ps, d) == [d] + Join(ps[1..], d);
    }
  }

  /** `s.split(d)` is empty exactly when `s` is one or more `d`s and nothing else. */
  lemma SplitIsEmptyIff(s: string, d: char)
    ensures |Split(s, d)| == 0 <==> s != "" && forall i :: 0 <= i < |s| ==> s[i] == d
  {
    if d in s {
      var ps := Pieces(s, d);
      JoinOfPieces(s, d);
      assert Split(s, d) == DropTrailingEmpty(ps);
      if |Split(s, d)| == 0 {
        JoinOfEmpties(ps, d);
        assert forall i :: 0 <= i < |s| ==> s[i] == Join(ps, d)[i];
      }
      if forall i :: 0 <= i < |s| ==> s[i] == d {
        PiecesOfRun(s, d);
      }
    } else if s != "" {
      assert s[0] != d;
    }
  }

  /** Each piece followed by `d`, as a StringBuilder loop that appends a terminator builds it. */
  function Terminated(ps: seq<string>, d: char): string {
    if |ps| == 0 then "" else Terminated(ps[..|ps| - 1], d) + ps[|ps| - 1] + [d]
  }

  lemma {:induction false} JoinSnoc(ps: seq<string>, p: string, d: char)
    requires |ps| >= 1
    ensures Join(ps + [p], d) == Join(ps, d) + [d] + p
  {
    if |ps| > 1 {
      assert (ps + [p])[1..] == ps[1..] + [p];
      JoinSnoc(ps[1..], p, d);
    }
  }

  /** Terminating every piece is joining them and adding one terminator at the end. */
  lemma {:induction false} TerminatedIsJoin(ps: seq<string>, d: char)
    requires |ps| >= 1
    ensures Terminated(ps, d) == Join(ps, d) + [d]
  {
    var n := |ps|;
    if n > 1 {
      TerminatedIsJoin(ps[..n - 1], d);
      JoinSnoc(ps[..n - 1], ps[n - 1], d);
      assert ps[..n - 1] + [ps[n - 1]] == ps;
    }
  }

  // ---------------------------------------------------------------------
  // Integer.parseInt(s) (radix 10) and the decimal text of an int
  // ---------------------------------------------------------------------

  predicate IsDigit(c: char) {
    '0' <= c <= '9'
  }

  predicate AllDigits(s: string) {
    forall i :: 0 <= i < |s| ==> IsDigit(s[i])
  }

  /** The value of a string of decimal digits, most significant first. */
  function DigitsValue(s: string): nat
    requires AllDigits(s)
  {
    if |s| == 0 then 0
    else DigitsValue(s[..|s| - 1]) * 10 + (s[|s| - 1] as int - '0' as int)
  }

  /**
   * `Integer.parseInt(s)` in radix 10: an optional `+` or `-`, at least one
   * digit, and a value that fits in 32 bits; anything else is a
   * NumberFormatException, here `None`. Only the ASCII digits `0`-`9` are
   * digits here.
   */
  function ParseInt(s: string): (r: Option<int>)
    ensures r.Some? ==> IsInt32(r.value)
    ensures r.Some? ==> |s| >= 1
  {
    if |s| == 0 then None
    else
      var signed := s[0] == '-' || s[0] == '+';
      var digits := if signed then s[1..] else s;
      if |digits| == 0 || !AllDigits(digits) then None
      else
        var n: int := DigitsValue(digits);
        var v := if s[0] == '-' then -n else n;
        if IsInt32(v) then Some(v) else None
  }

  /**
   * What parseInt accepts: a sign or digit first and digits after it; a
   * digit string in range reads as its decimal value, and so does one after
   * a `+`, or after a `-`, negated; one out of the 32-bit range is refused.
   */
  lemma ParseIntMeaning(s: string)
    ensures ParseInt(s).Some? ==> AllDigits(s[1..]) && (IsDigit(s[0]) || s[0] == '-' || s[0] == '+')
    ensures |s| >= 1 && AllDigits(s) && DigitsValue(s) <= INT_MAX ==> ParseInt(s) == Some(DigitsValue(s))
    ensures |s| >= 2 && s[0] == '-' && AllDigits(s[1..]) && DigitsValue(s[1..]) <= -INT_MIN ==>
      ParseInt(s).Some? && ParseInt(s).value + DigitsValue(s[1..]) == 0
    ensures |s| >= 2 && s[0] == '+' && AllDigits(s[1..]) && DigitsValue(s[1..]) <= INT_MAX ==>
      ParseInt(s) == Some(DigitsValue(s[1..]))
    ensures |s| >= 1 && AllDigits(s) && DigitsValue(s) > INT_MAX ==> ParseInt(s).None?
    ensures |s| >= 2 && s[0] == '-' && AllDigits(s[1..]) && DigitsValue(s[1..]) > -INT_MIN ==> ParseInt(s).None?
    ensures |s| >= 2 && s[0] == '+' && AllDigits(s[1..]) && DigitsValue(s[1..]) > INT_MAX ==> ParseInt(s).None?
  {
  }

  function DigitChar(d: int): (c: char)
    requires 0 <= d < 10
    ensures IsDigit(c) && c as int - '0' as int == d
  {
    ('0' as int + d) as char
  }

  /** The decimal digits of `n`, without leading zeros. */
  function NatToString(n: nat): (s: string)
    ensures |s| >= 1 && AllDigits(s)
  {
    if n < 10 then [DigitChar(n)] else NatToString(n / 10) + [DigitChar(n % 10)]
  }

  /** `"" + n` in Java: a minus sign for negative numbers, then the digits. */
  function IntToString(n: int): (s: string)
    ensures |s| >= 1
    ensures forall i :: 0 <= i < |s| ==> IsDigit(s[i]) || s[i] == '-'
  {
    if n < 0 then "-" + NatToString(-n) else NatToString(n)
  }

  lemma {:induction false} DigitsOfNat(n: nat)
    ensures DigitsValue(NatToString(n)) == n
  {
    var s := NatToString(n);
    if n >= 10 {
      DigitsOfNat(n / 10);
      assert s[..|s| - 1] == NatToString(n / 10);
    }
  }

  /** Reading back the printed form of any 32-bit int gives the int. */
  lemma ParseIntOfIntToString(n: int)
    requires IsInt32(n)
    ensures ParseInt(IntToString(n)) == Some(n)
  {
    if n < 0 {
      DigitsOfNat(-n);
      assert ("-" + NatToString(-n))[1..] == NatToString(-n);
    } else {
      DigitsOfNat(n);
    }
  }

  // ---------------------------------------------------------------------
  // List.remove(Object): removes the first occurrence, if any
  // ---------------------------------------------------------------------

  function RemoveFirst<T(==)>(s: seq<T>, x: T): (r: seq<T>)
    ensures x !in s ==> r == s
    ensures x in s ==> |r| == |s| - 1
    ensures forall y :: y in r ==> y in s
    ensures forall y :: y in s && y != x ==> y in r
  {
    if |s| == 0 then []
    else if s[0] == x then s[1..]
    else [s[0]] + RemoveFirst(s[1..], x)
  }

  /** The position of the first occurrence of `x`. */
  function IndexOf<T(==)>(s: seq<T>, x: T): (k: nat)
    requires x in s
    ensures k < |s| && s[k] == x && x !in s[..k]
  {
    if s[0] == x then 0 else 1 + IndexOf(s[1..], x)
  }

  predicate Distinct<T(==)>(s: seq<T>) {
    forall i, j :: 0 <= i < j < |s| ==> s[i] != s[j]
  }

  /** In a list without repeats, removing an element leaves none of it and no repeats. */
  lemma {:induction false} RemoveFirstFromDistinct<T>(s: seq<T>, x: T)
    requires Distinct(s)
    ensures Distinct(RemoveFirst(s, x)) && x !in RemoveFirst(s, x)
  {
    if |s| > 0 && s[0] != x {
      var t := s[1..];
      assert Distinct(t) by {
        forall i, j | 0 <= i < j < |t| ensures t[i] != t[j] {
          assert t[i] == s[i + 1] && t[j] == s[j + 1];
        }
      }
      RemoveFirstFromDistinct(t, x);
      var r := RemoveFirst(t, x);
      assert s[0] !in t;
      assert s[0] !in r;
      forall i, j | 0 <= i < j < |[s[0]] + r| ensures ([s[0]] + r)[i] != ([s[0]] + r)[j] {
        if i > 0 {
          assert ([s[0]] + r)[i] == r[i - 1];
        }
        assert ([s[0]] + r)[j] == r[j - 1];
      }
    } else if |s| > 0 {
      assert forall i :: 0 <= i < |s[1..]| ==> s[1..][i] == s[i + 1];
    }
  }

  /** Removal keeps the other elements in their order: it cuts out one position. */
  lemma {:induction false} RemoveFirstCuts<T>(s: seq<T>, x: T)
    requires x in s
    ensures RemoveFirst(s, x) == s[..IndexOf(s, x)] + s[IndexOf(s, x) + 1..]
  {
    if s[0] != x {
      var t := s[1..];
      RemoveFirstCuts(t, x);
      var k := IndexOf(t, x);
      assert IndexOf(s, x) == k + 1;
      assert RemoveFirst(s, x) == [s[0]] + (t[..k] + t[k + 1..]);
      CutBehindHead(s, k);
    }
  }

  lemma CutBehindHead<T>(s: seq<T>, k: nat)
    requires k + 1 < |s|
    ensures [s[0]] + (s[1..][..k] + s[1..][k + 1..]) == s[..k + 1] + s[k + 2..]
  {
    assert s[..k + 1] == [s[0]] + s[1..][..k];
    assert s[k + 2..] == s[1..][k + 1..];
  }
}
