/**
 * The few pieces of java.lang behaviour the modelled Metawidget code relies on:
 * null (as Option), String.trim, String.split(","), string concatenation with
 * null, Boolean.parseBoolean, String.valueOf(int) and 32-bit int arithmetic.
 */
module JavaLang {

  /** A Java reference that may be null. */
  datatype Option<+T> = None | Some(value: T)

  // ---------------------------------------------------------------------------
  // String.trim
  // ---------------------------------------------------------------------------

  /** String.trim strips every character whose code is at most U+0020. */
  predicate IsTrimmable(c: char) {
    c <= ' '
  }

  /** The characters left after dropping the leading trimmable ones. */
  function TrimStart(s: string): (r: string)
    ensures |r| <= |s| && r == s[|s| - |r|..]
    ensures forall i :: 0 <= i < |s| - |r| ==> IsTrimmable(s[i])
    ensures r == [] || !IsTrimmable(r[0])
    decreases |s|
  {
    if s != [] && IsTrimmable(s[0]) then TrimStart(s[1..]) else s
  }

  /** The characters left after dropping the trailing trimmable ones. */
  function TrimEnd(s: string): (r: string)
    ensures |r| <= |s| && r == s[..|r|]
    ensures forall i :: |r| <= i < |s| ==> IsTrimmable(s[i])
    ensures r == [] || !IsTrimmable(r[|r| - 1])
    decreases |s|
  {
    if s != [] && IsTrimmable(s[|s| - 1]) then TrimEnd(s[..|s| - 1]) else s
  }

  /** Holds when `r` is `s` with a run of trimmable characters cut from each end. */
  ghost predicate IsTrimOf(r: string, s: string) {
    exists i, j :: 0 <= i <= j <= |s| && r == s[i..j]
      && (forall k :: 0 <= k < i ==> IsTrimmable(s[k]))
      && (forall k :: j <= k < |s| ==> IsTrimmable(s[k]))
  }

  /** String.trim: the string without leading and trailing blanks or control characters. */
  function Trim(s: string): (r: string)
    ensures IsTrimOf(r, s)
    ensures r == [] || (!IsTrimmable(r[0]) && !IsTrimmable(r[|r| - 1]))
  {
    TrimEndOfTrimStart(s);
    TrimEnd(TrimStart(s))
  }

  /** Cutting the leading run and then the trailing run cuts a run from each end of `s`. */
  lemma TrimEndOfTrimStart(s: string)
    ensures IsTrimOf(TrimEnd(TrimStart(s)), s)
  {
    var t := TrimStart(s);
    var r := TrimEnd(t);
    var i := |s| - |t|;
    var j := i + |r|;
    assert r == s[i..j];
    forall k | j <= k < |s| ensures IsTrimmable(s[k]) {
      assert s[k] == t[k - i];
    }
  }

  /** Trimming twice is the same as trimming once. */
  lemma TrimIdempotent(s: string)
    ensures Trim(Trim(s)) == Trim(s)
  {
    var r := Trim(s);
    if r != [] {
      assert TrimStart(r) == r;
      assert TrimEnd(r) == r;
    }
  }

  // ---------------------------------------------------------------------------
  // String.split(",")
  // ---------------------------------------------------------------------------

  /** The pieces of `s` between commas, empty pieces included. */
  function Pieces(s: string): (r: seq<string>)
    ensures |r| >= 1
    ensures forall k :: 0 <= k < |r| ==> ',' !in r[k]
    decreases |s|
  {
    if s == [] then [""]
    else if s[0] == ',' then [""] + Pieces(s[1..])
    else
      var rest := Pieces(s[1..]);
      [[s[0]] + rest[0]] + rest[1..]
  }

  /** The pieces joined back together with a comma between neighbours. */
  function JoinWithCommas(ps: seq<string>): string
    requires |ps| >= 1
    decreases |ps|
  {
    if |ps| == 1 then ps[0] else ps[0] + "," + JoinWithCommas(ps[1..])
  }

  /** Cutting at the commas and gluing back with commas gives the string back. */
  lemma {:induction false} PiecesRoundTrip(s: string)
    ensures JoinWithCommas(Pieces(s)) == s
    decreases |s|
  {
    if s == [] {
    } else if s[0] == ',' {
      PiecesRoundTrip(s[1..]);
      var rest := Pieces(s[1..]);
      assert Pieces(s) == [""] + rest;
      assert ([""] + rest)[1..] == rest;
      assert JoinWithCommas(Pieces(s)) == "" + "," + JoinWithCommas(rest);
      assert s == [s[0]] + s[1..];
    } else {
      PiecesRoundTrip(s[1..]);
      var rest := Pieces(s[1..]);
      var ps := Pieces(s);
      assert ps == [[s[0]] + rest[0]] + rest[1..];
      if |rest| == 1 {
        assert JoinWithCommas(ps) == [s[0]] + rest[0];
        assert JoinWithCommas(rest) == rest[0];
      } else {
        assert ps[1..] == rest[1..];
        assert JoinWithCommas(ps) == [s[0]] + rest[0] + "," + JoinWithCommas(rest[1..]);
        assert JoinWithCommas(rest) == rest[0] + "," + JoinWithCommas(rest[1..]);
      }
      assert s == [s[0]] + s[1..];
    }
  }

  /** A string without commas is a single piece. */
  lemma {:induction false} PiecesWithoutComma(s: string)
    requires ',' !in s
    ensures Pieces(s) == [s]
    decreases |s|
  {
    if s != [] {
      assert ',' !in s[1..] by {
        forall k | 0 <= k < |s[1..]| ensures s[1..][k] != ',' {
          assert s[1..][k] == s[k + 1];
        }
      }
      PiecesWithoutComma(s[1..]);
      assert s == [s[0]] + s[1..];
    }
  }

  /** The longest prefix of `ps` that does not end in an empty piece. */
  function DropTrailingEmpty(ps: seq<string>): (r: seq<string>)
    ensures |r| <= |ps| && r == ps[..|r|]
    ensures r == [] || r[|r| - 1] != ""
    ensures forall k :: |r| <= k < |ps| ==> ps[k] == ""
    decreases |ps|
  {
    if ps != [] && ps[|ps| - 1] == "" then DropTrailingEmpty(ps[..|ps| - 1]) else ps
  }

  /**
   * String.split(","): the pieces between commas with trailing empty pieces
   * dropped, except that a string without any comma is returned whole (so ""
   * splits into [""] while "," splits into []).
   */
  function SplitComma(s: string): (r: seq<string>)
    ensures ',' !in s ==> r == [s]
    ensures ',' in s ==> r == [] || r[|r| - 1] != ""
    ensures forall k :: 0 <= k < |r| ==> ',' !in r[k]
    ensures |r| <= |Pieces(s)| && r == Pieces(s)[..|r|]
    ensures forall k :: |r| <= k < |Pieces(s)| ==> Pieces(s)[k] == ""
  {
    if ',' !in s then
      PiecesWithoutComma(s);
      [s]
    else
      DropTrailingEmpty(Pieces(s))
  }

  /** A run of `n` commas. */
  function Commas(n: nat): (s: string)
    ensures |s| == n && forall k :: 0 <= k < n ==> s[k] == ','
  {
    if n == 0 then "" else "," + Commas(n - 1)
  }

  /** A string made only of commas splits into no pieces at all. */
  lemma OnlyCommasSplitToNothing(n: nat)
    requires n >= 1
    ensures SplitComma(Commas(n)) == []
  {
    assert Commas(n)[0] == ',';
    OnlyCommasAreEmptyPieces(n);
  }

  lemma {:induction false} OnlyCommasAreEmptyPieces(n: nat)
    ensures forall k :: 0 <= k < |Pieces(Commas(n))| ==> Pieces(Commas(n))[k] == ""
  {
    if n > 0 {
      OnlyCommasAreEmptyPieces(n - 1);
      assert Commas(n)[1..] == Commas(n - 1);
      assert Pieces(Commas(n)) == [""] + Pieces(Commas(n - 1));
    }
  }

  // ---------------------------------------------------------------------------
  // Other java.lang behaviour
  // ---------------------------------------------------------------------------

  /** What `"" + o` gives for a String that may be null: Java prints null as "null". */
  function ConcatForm(o: Option<string>): string {
    match o
    case None => "null"
    case Some(s) => s
  }

  /** ASCII lower case of a character. */
  function ToLowerAscii(c: char): char {
    if 'A' <= c <= 'Z' then (c as int - 'A' as int + 'a' as int) as char else c
  }

  /** Boolean.parseBoolean: true exactly for "true" in any mix of upper and lower case. */
  function ParseBoolean(s: string): (b: bool)
    ensures b <==> |s| == 4 && forall k :: 0 <= k < 4 ==> s[k] == "true"[k] || s[k] == "TRUE"[k]
    ensures s == "true" || s == "TRUE" || s == "True" ==> b
  {
    |s| == 4 && forall k :: 0 <= k < 4 ==> ToLowerAscii(s[k]) == "true"[k]
  }

  /** The decimal digits of a non-negative int (String.valueOf). */
  function NatToString(n: nat): (r: string)
    ensures |r| >= 1
    ensures forall k :: 0 <= k < |r| ==> '0' <= r[k] <= '9'
    decreases n
  {
    if n < 10 then [Digit(n)] else NatToString(n / 10) + [Digit(n % 10)]
  }

  function Digit(d: nat): (c: char)
    requires d < 10
    ensures '0' <= c <= '9'
    ensures DigitValue(c) == d
  {
    ('0' as int + d) as char
  }

  function DigitValue(c: char): int {
    c as int - '0' as int
  }

  /** Integer.parseInt on a string of decimal digits. */
  function ParseDigits(s: string): int
    decreases |s|
  {
    if s == [] then 0 else ParseDigits(s[..|s| - 1]) * 10 + DigitValue(s[|s| - 1])
  }

  /** Integer.parseInt(String.valueOf(n)) == n. */
  lemma {:induction false} ParseDigitsOfNatToString(n: nat)
    ensures ParseDigits(NatToString(n)) == n
    decreases n
  {
    var s := NatToString(n);
    if n < 10 {
      assert s[..0] == [];
    } else {
      ParseDigitsOfNatToString(n / 10);
      assert s[..|s| - 1] == NatToString(n / 10);
    }
  }

  // ---------------------------------------------------------------------------
  // 32-bit int arithmetic
  // ---------------------------------------------------------------------------

  const TWO_TO_THE_32: int := 0x1_0000_0000
  const INT_MIN: int := -0x8000_0000
  const INT_MAX: int := 0x7fff_ffff

  /** A value of Java's `int`. */
  type Int32 = x: int | INT_MIN <= x <= INT_MAX

  /** Two's complement wrap-around of an int result into 32 bits. */
  function Wrap32(x: int): (r: Int32)
    ensures (r - x) % TWO_TO_THE_32 == 0
    ensures INT_MIN <= x <= INT_MAX ==> r == x
  {
    (x - INT_MIN) % TWO_TO_THE_32 + INT_MIN
  }

  /** Wrapping an intermediate sum changes nothing: Java may wrap after every operation. */
  lemma WrapThenAdd(a: int, b: int)
    ensures Wrap32(Wrap32(a) + b) == Wrap32(a + b)
  {
    var q := (a - INT_MIN) / TWO_TO_THE_32;
    assert Wrap32(a) + b - INT_MIN == (a + b - INT_MIN) - q * TWO_TO_THE_32;
    ShiftByMultiple(a + b - INT_MIN, q);
  }

  /** Subtracting a multiple of 2^32 keeps the remainder. */
  lemma ShiftByMultiple(x: int, q: int)
    ensures (x - q * TWO_TO_THE_32) % TWO_TO_THE_32 == x % TWO_TO_THE_32
  {
    var y := x - q * TWO_TO_THE_32;
    assert y == (x / TWO_TO_THE_32 - q) * TWO_TO_THE_32 + x % TWO_TO_THE_32;
  }
}
