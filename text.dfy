/** String helpers used by the string-building parts of the deployer. */
module Text {
  import opened Wrappers

  /** `strings.HasPrefix(s, p)`. */
  predicate HasPrefix(s: string, p: string)
  {
    |p| <= |s| && s[..|p|] == p
  }

  /** `to.Strs`: the string behind a pointer, "" for nil. */
  function Deref(s: Option<string>): string
  {
    s.GetOr("")
  }

  /** `strings.Replace(s, [a], [b], -1)` for one-character patterns. */
  function ReplaceChar(s: string, a: char, b: char): (r: string)
    ensures |r| == |s|
    ensures forall i :: 0 <= i < |s| ==> r[i] == (if s[i] == a then b else s[i])
  {
    if s == [] then [] else [if s[0] == a then b else s[0]] + ReplaceChar(s[1..], a, b)
  }

  /** Replacing characters distributes over concatenation. */
  lemma ReplaceCharAppend(s1: string, s2: string, a: char, b: char)
    ensures ReplaceChar(s1 + s2, a, b) == ReplaceChar(s1, a, b) + ReplaceChar(s2, a, b)
  {
    var l := ReplaceChar(s1 + s2, a, b);
    var r := ReplaceChar(s1, a, b) + ReplaceChar(s2, a, b);
    forall i | 0 <= i < |l| ensures l[i] == r[i] {
      if i < |s1| { assert (s1 + s2)[i] == s1[i]; } else { assert (s1 + s2)[i] == s2[i - |s1|]; }
    }
  }

  /** A string without the character is unchanged. */
  lemma {:induction false} ReplaceCharAbsent(s: string, a: char, b: char)
    requires a !in s
    ensures ReplaceChar(s, a, b) == s
  {
    if s != [] {
      assert a !in s[1..] by { assert forall x :: x in s[1..] ==> x in s; }
      ReplaceCharAbsent(s[1..], a, b);
    }
  }

  /** `strings.Join(parts, sep)`. */
  function Join(parts: seq<string>, sep: string): string
  {
    if |parts| == 0 then ""
    else if |parts| == 1 then parts[0]
    else parts[0] + sep + Join(parts[1..], sep)
  }

  /** Decimal rendering of a natural number, as `%v` prints it. */
  function NatToString(n: nat): (r: string)
    ensures |r| >= 1
    decreases n
  {
    if n < 10 then [DigitChar(n)] else NatToString(n / 10) + [DigitChar(n % 10)]
  }

  function DigitChar(d: nat): char
    requires d < 10
  {
    "0123456789"[d]
  }

  predicate IsDigit(c: char)
  {
    '0' <= c <= '9'
  }

  /** The value of a non-empty run of decimal digits. */
  function DigitsValue(s: string): nat
    requires forall i :: 0 <= i < |s| ==> IsDigit(s[i])
  {
    if s == [] then 0
    else
      assert IsDigit(s[|s| - 1]);
      10 * DigitsValue(s[..|s| - 1]) + (s[|s| - 1] as int - '0' as int)
  }

  /** `strconv.Atoi`: an optional sign followed by at least one decimal digit; anything else fails. */
  function Atoi(s: string): (r: Option<int>)
    ensures s == [] ==> r.None?
    ensures r.Some? ==> exists i :: 0 <= i < |s| && IsDigit(s[i])
  {
    var signed := |s| > 0 && (s[0] == '+' || s[0] == '-');
    var digits := if signed then s[1..] else s;
    if |digits| == 0 || exists i :: 0 <= i < |digits| && !IsDigit(digits[i]) then None
    else
      assert IsDigit(s[|s| - 1]);
      var v: int := DigitsValue(digits);
      Some(if signed && s[0] == '-' then -v else v)
  }

  /** Rendering a natural number and parsing it back gives the number. */
  lemma {:induction false} NatToStringDigits(n: nat)
    ensures forall i :: 0 <= i < |NatToString(n)| ==> IsDigit(NatToString(n)[i])
    ensures DigitsValue(NatToString(n)) == n
    decreases n
  {
    var s := NatToString(n);
    if n < 10 {
      assert s == [DigitChar(n)];
    } else {
      NatToStringDigits(n / 10);
      var prefix := NatToString(n / 10);
      assert s == prefix + [DigitChar(n % 10)];
      assert s[..|s| - 1] == prefix;
    }
  }

  /** `Atoi` inverts `%v` on integers. */
  lemma AtoiIntToString(n: int)
    ensures Atoi(IntToString(n)) == Some(n)
  {
    var m := if n < 0 then -n else n;
    NatToStringDigits(m);
    var t := NatToString(m);
    assert IsDigit(t[0]);
    assert !exists i :: 0 <= i < |t| && !IsDigit(t[i]);
    if n < 0 {
      var s := IntToString(n);
      assert s == "-" + t;
      assert s[0] == '-' && s[1..] == t;
    } else {
      assert IntToString(n) == t;
    }
  }

  /** Decimal rendering of an integer, as `%v` prints it. */
  function IntToString(n: int): string
  {
    if n < 0 then "-" + NatToString(-n) else NatToString(n)
  }

  /** No element occurs twice. */
  predicate Distinct<T(==)>(s: seq<T>)
  {
    forall i, j :: 0 <= i < j < |s| ==> s[i] != s[j]
  }

  /** The elements of a sequence, as a set. */
  function Elements<T>(s: seq<T>): set<T>
  {
    set x | x in s
  }

  /** Appending an element not yet present keeps a sequence duplicate-free. */
  lemma AppendFresh<T>(s: seq<T>, x: T)
    requires Distinct(s) && x !in s
    ensures Distinct(s + [x])
    ensures Elements(s + [x]) == Elements(s) + {x}
    ensures |Elements(s + [x])| == |Elements(s)| + 1
  {
    assert Elements(s + [x]) == Elements(s) + {x};
  }

  /** `to.StrSlice`: each pointer dereferenced, nil read as "". */
  function Derefs(s: seq<Option<string>>): (r: seq<string>)
    ensures |r| == |s|
    ensures forall i :: 0 <= i < |s| ==> r[i] == Deref(s[i])
  {
    seq(|s|, i requires 0 <= i < |s| => Deref(s[i]))
  }

  /** `is.EmptyStr`: nil or "". */
  predicate EmptyStr(s: Option<string>)
  {
    s.None? || s.value == ""
  }

  /** `is.UniqueStrp`: no nil entry and no value twice. */
  predicate UniqueStrp(s: seq<Option<string>>)
  {
    (forall i :: 0 <= i < |s| ==> s[i].Some?) && Distinct(s)
  }
}
