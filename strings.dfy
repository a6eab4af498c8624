/**
 * The few pieces of Go's `strings` and `strconv` packages that the modelled
 * code relies on: decimal formatting, upper-casing, splitting, joining and
 * trimming on a single separator character.
 */
module Strings {
  import opened Wrappers

  // ---------------------------------------------------------------- decimals

  predicate IsDigit(ch: char) { '0' <= ch <= '9' }

  predicate AllDigits(s: string) { forall i :: 0 <= i < |s| ==> IsDigit(s[i]) }

  function DigitChar(d: nat): (ch: char)
    requires d < 10
    ensures IsDigit(ch) && ch as int - '0' as int == d
  {
    ('0' as int + d) as char
  }

  /** Decimal digits of a natural number, most significant first, no leading zeros. */
  function Digits(n: nat): (s: string)
    ensures |s| >= 1 && AllDigits(s)
    ensures |s| > 1 ==> s[0] != '0'
    decreases n
  {
    if n < 10 then [DigitChar(n)] else Digits(n / 10) + [DigitChar(n % 10)]
  }

  /** strconv.Itoa: base-10 text of an integer, with a leading '-' when negative. */
  function Itoa(n: int): (s: string)
    ensures |s| >= 1
    ensures n >= 0 ==> AllDigits(s)
    ensures n < 0 ==> s[0] == '-' && AllDigits(s[1..])
  {
    if n < 0 then "-" + Digits(-n) else Digits(n)
  }

  /** Value of a string of decimal digits. */
  function DigitsValue(s: string): nat
    requires AllDigits(s)
    decreases |s|
  {
    if s == [] then 0 else DigitsValue(s[..|s| - 1]) * 10 + (s[|s| - 1] as int - '0' as int)
  }

  /** The inverse of Itoa (strconv.Atoi on the strings Itoa produces and on any other decimal). */
  function ParseInt(s: string): Option<int> {
    if |s| > 1 && s[0] == '-' && AllDigits(s[1..]) then Some(0 - (DigitsValue(s[1..]) as int))
    else if |s| >= 1 && AllDigits(s) then Some(DigitsValue(s))
    else None
  }

  lemma {:induction false} DigitsValueOfDigits(n: nat)
    ensures DigitsValue(Digits(n)) == n
    decreases n
  {
    var s := Digits(n);
    if n >= 10 {
      DigitsValueOfDigits(n / 10);
      assert s[..|s| - 1] == Digits(n / 10);
    }
  }

  /** Decimal formatting loses nothing: ParseInt recovers every integer from its text. */
  lemma ParseIntOfItoa(n: int)
    ensures ParseInt(Itoa(n)) == Some(n)
  {
    var s := Itoa(n);
    if n < 0 {
      DigitsValueOfDigits(-n);
      assert s == "-" + Digits(-n);
      assert s[1..] == Digits(-n);
      assert |s| > 1 && s[0] == '-';
    } else {
      DigitsValueOfDigits(n);
      assert s == Digits(n);
      assert IsDigit(s[0]);
    }
  }

  /** Two different integers never print the same. */
  lemma ItoaInjective(a: int, b: int)
    requires Itoa(a) == Itoa(b)
    ensures a == b
  {
    ParseIntOfItoa(a);
    ParseIntOfItoa(b);
  }

  // ---------------------------------------------------------------- case

  /** strings.ToUpper on ASCII; every other character is left as it is. */
  function UpperChar(ch: char): char {
    if 'a' <= ch <= 'z' then (ch as int - 32) as char else ch
  }

  function ToUpper(s: string): (r: string)
    ensures |r| == |s|
  {
    seq(|s|, i requires 0 <= i < |s| => UpperChar(s[i]))
  }

  // ---------------------------------------------------------------- split and join

  /** strings.Join with a one-character separator. */
  function Join(parts: seq<string>, sep: char): string
    decreases |parts|
  {
    if |parts| == 0 then ""
    else if |parts| == 1 then parts[0]
    else parts[0] + [sep] + Join(parts[1..], sep)
  }

  /** strings.Split with a one-character separator: "" gives [""], interior empty fields are kept. */
  function Split(s: string, sep: char): (parts: seq<string>)
    ensures |parts| >= 1
    decreases |s|
  {
    if s == [] then [""]
    else
      var rest := Split(s[1..], sep);
      if s[0] == sep then [""] + rest else [[s[0]] + rest[0]] + rest[1..]
  }

  predicate NoSep(parts: seq<string>, sep: char) {
    forall i :: 0 <= i < |parts| ==> sep !in parts[i]
  }

  lemma {:induction false} SplitFieldsHaveNoSep(s: string, sep: char)
    ensures NoSep(Split(s, sep), sep)
    decreases |s|
  {
    if s != [] {
      SplitFieldsHaveNoSep(s[1..], sep);
    }
  }

  lemma {:induction false} JoinSplit(s: string, sep: char)
    ensures Join(Split(s, sep), sep) == s
    decreases |s|
  {
    if s != [] {
      var rest := Split(s[1..], sep);
      JoinSplit(s[1..], sep);
      if s[0] != sep {
        var head := [s[0]] + rest[0];
        if |rest| == 1 {
          assert Split(s, sep) == [head];
        } else {
          assert Split(s, sep) == [head] + rest[1..];
          assert Join(rest, sep) == rest[0] + [sep] + Join(rest[1..], sep);
        }
      }
    }
  }

  lemma {:induction false} SplitJoin(parts: seq<string>, sep: char)
    requires |parts| >= 1 && NoSep(parts, sep)
    ensures Split(Join(parts, sep), sep) == parts
    decreases |parts|, |parts[0]|
  {
    var first := parts[0];
    if first == [] {
      if |parts| > 1 {
        SplitJoin(parts[1..], sep);
        assert Join(parts, sep) == [sep] + Join(parts[1..], sep);
        assert ([sep] + Join(parts[1..], sep))[1..] == Join(parts[1..], sep);
      }
    } else {
      var shorter := [first[1..]] + parts[1..];
      assert NoSep(shorter, sep) by {
        assert forall i :: 0 < i < |shorter| ==> shorter[i] == parts[i];
      }
      SplitJoin(shorter, sep);
      var s := Join(parts, sep);
      assert s == [first[0]] + Join(shorter, sep) by {
        if |parts| > 1 {
          assert Join(shorter, sep) == first[1..] + [sep] + Join(parts[1..], sep);
        }
      }
      assert s[1..] == Join(shorter, sep);
      assert first[0] != sep by { assert first[0] in parts[0]; }
      assert Split(s, sep) == [[first[0]] + first[1..]] + parts[1..];
      assert [first[0]] + first[1..] == first;
    }
  }

  lemma ConcatAssoc(a: string, b: string, c: string)
    ensures a + (b + c) == a + b + c
  {
  }

  /** Joining splits off the first part. */
  lemma JoinCons(parts: seq<string>, sep: char)
    requires |parts| >= 2
    ensures Join(parts, sep) == parts[0] + [sep] + Join(parts[1..], sep)
  {
  }

  /** Joining splits off the last part just as it splits off the first. */
  lemma {:induction false} JoinSnoc(parts: seq<string>, sep: char)
    requires |parts| >= 2
    ensures Join(parts, sep) == Join(parts[..|parts| - 1], sep) + [sep] + parts[|parts| - 1]
    decreases |parts|
  {
    if |parts| > 2 {
      JoinSnoc(parts[1..], sep);
      assert parts[1..][..|parts| - 2] == parts[..|parts| - 1][1..];
    }
  }

  /** A join whose ends are not the separator has non-empty first and last parts. */
  lemma JoinEndParts(parts: seq<string>, sep: char)
    requires |parts| >= 1
    requires var s := Join(parts, sep); s != [] && s[0] != sep && s[|s| - 1] != sep
    ensures parts[0] != "" && parts[|parts| - 1] != ""
  {
    if |parts| >= 2 {
      JoinSnoc(parts, sep);
    }
  }

  // ---------------------------------------------------------------- trimming

  predicate AllChar(s: string, c: char) { forall i :: 0 <= i < |s| ==> s[i] == c }

  /** strings.TrimLeft with a one-character cut set. */
  function TrimLeft(s: string, c: char): (r: string)
    ensures |r| <= |s| && r == s[|s| - |r|..]
    ensures AllChar(s[..|s| - |r|], c)
    ensures r == [] || r[0] != c
    decreases |s|
  {
    if s != [] && s[0] == c then TrimLeft(s[1..], c) else s
  }

  /** strings.TrimRight with a one-character cut set. */
  function TrimRight(s: string, c: char): (r: string)
    ensures |r| <= |s| && r == s[..|r|]
    ensures AllChar(s[|r|..], c)
    ensures r == [] || r[|r| - 1] != c
    decreases |s|
  {
    if s != [] && s[|s| - 1] == c then TrimRight(s[..|s| - 1], c) else s
  }

  /** strings.Trim with a one-character cut set: strips the character from both ends. */
  function Trim(s: string, c: char): string {
    TrimRight(TrimLeft(s, c), c)
  }

  /** A trimmed string sits in the input between a run of cut characters on each side. */
  lemma TrimShape(s: string, c: char)
    ensures var r := Trim(s, c);
      r == [] || (r[0] != c && r[|r| - 1] != c)
    ensures exists k :: 0 <= k <= |s| - |Trim(s, c)| && s[k..k + |Trim(s, c)|] == Trim(s, c)
                      && AllChar(s[..k], c) && AllChar(s[k + |Trim(s, c)|..], c)
  {
    var l := TrimLeft(s, c);
    var r := TrimRight(l, c);
    var k := |s| - |l|;
    assert s[k..] == l;
    assert s[k..k + |r|] == r;
    assert s[k + |r|..] == l[|r|..];
  }

  /** n copies of the character c. */
  function Repeat(c: char, n: nat): (s: string)
    ensures |s| == n && AllChar(s, c)
  {
    seq(n, _ => c)
  }

  /** Trimming undoes padding a string that neither starts nor ends with the cut character. */
  lemma TrimPadded(s: string, c: char, before: nat, after: nat)
    requires s == [] || (s[0] != c && s[|s| - 1] != c)
    ensures Trim(Repeat(c, before) + s + Repeat(c, after), c) == s
  {
    if s == [] {
      assert Repeat(c, before) + s + Repeat(c, after) == Repeat(c, before + after) + [];
      TrimLeftPadded([], c, before + after);
    } else {
      assert Repeat(c, before) + s + Repeat(c, after) == Repeat(c, before) + (s + Repeat(c, after));
      TrimLeftPadded(s + Repeat(c, after), c, before);
      TrimRightPadded(s, c, after);
    }
  }

  lemma {:induction false} TrimLeftPadded(s: string, c: char, n: nat)
    requires s == [] || s[0] != c
    ensures TrimLeft(Repeat(c, n) + s, c) == s
    decreases n
  {
    if n > 0 {
      assert (Repeat(c, n) + s)[1..] == Repeat(c, n - 1) + s;
      TrimLeftPadded(s, c, n - 1);
    }
  }

  lemma {:induction false} TrimRightPadded(s: string, c: char, n: nat)
    requires s == [] || s[|s| - 1] != c
    ensures TrimRight(s + Repeat(c, n), c) == s
    decreases n
  {
    if n > 0 {
      assert (s + Repeat(c, n))[..|s| + n - 1] == s + Repeat(c, n - 1);
      TrimRightPadded(s, c, n - 1);
    }
  }
}
