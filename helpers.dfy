/** Card-data string utilities of the terminal: brand detection, display
    formatting of card numbers and of expiry dates, and the value types shared
    by the store, the endpoint and the forms (src/utils/helpers.ts). */
module Helpers {

  /** A TypeScript optional field (`x?: T`, `T | undefined`). */
  datatype Option<T> = None | Some(value: T)

  datatype CardBrand = VISA | MAST | AMEX | DISC | Unknown
  datatype TransactionType = PAG | DEV | ANU
  datatype TransactionMode = SIM | DIF | REC
  datatype Currency = USD | EUR | MXN

  // ---------------------------------------------------------------------------
  // Characters and character filters
  // ---------------------------------------------------------------------------

  /** The class `\d` of JavaScript regular expressions: ASCII digits only. */
  predicate IsDigit(c: char) { '0' <= c <= '9' }

  /** The whitespace characters that `\s` and `String.prototype.trim` remove
      and that can occur in the strings of this model. */
  predicate IsSpace(c: char) { c == ' ' || c == '\t' || c == '\n' || c == '\r' }

  predicate AllDigits(s: string) { forall i :: 0 <= i < |s| ==> IsDigit(s[i]) }

  /** Every character is a digit or a space: the shape of a formatted card number. */
  predicate DigitsAndSpaces(s: string) { forall i :: 0 <= i < |s| ==> IsDigit(s[i]) || s[i] == ' ' }

  predicate IsPrefix(p: string, s: string) { |p| <= |s| && s[..|p|] == p }

  /** `s.replace(/\D/g, '')`: the digits of `s`, in order. */
  function Digits(s: string): (r: string)
    ensures AllDigits(r)
    ensures |r| <= |s|
  {
    if s == [] then []
    else if IsDigit(s[0]) then [s[0]] + Digits(s[1..])
    else Digits(s[1..])
  }

  /** `s.replace(/\s/g, '')`: `s` without its whitespace. */
  function StripSpaces(s: string): (r: string)
    ensures forall i :: 0 <= i < |r| ==> !IsSpace(r[i])
    ensures |r| <= |s|
  {
    if s == [] then []
    else if IsSpace(s[0]) then StripSpaces(s[1..])
    else [s[0]] + StripSpaces(s[1..])
  }

  /** Number of occurrences of `c` in `s`. */
  function Count(s: string, c: char): (n: nat)
    ensures n <= |s|
  {
    if s == [] then 0 else (if s[0] == c then 1 else 0) + Count(s[1..], c)
  }

  /** The number a digit string denotes (the empty string denotes 0),
      as `parseInt(s, 10)` reads it. */
  function DecimalValue(s: string): nat
    requires AllDigits(s)
  {
    if s == [] then 0 else 10 * DecimalValue(s[..|s| - 1]) + (s[|s| - 1] as int - '0' as int)
  }

  function Pow10(k: nat): (p: nat)
    ensures p >= 1
  {
    if k == 0 then 1 else 10 * Pow10(k - 1)
  }

  /** A run of zeros is a digit string denoting zero. */
  lemma {:induction false} ZerosValue(z: nat)
    ensures AllDigits(seq(z, _ => '0'))
    ensures DecimalValue(seq(z, _ => '0')) == 0
  {
    if z > 0 {
      assert seq(z, _ => '0')[..z - 1] == seq(z - 1, _ => '0');
      ZerosValue(z - 1);
    }
  }

  lemma AllDigitsAppend(a: string, b: string)
    requires AllDigits(a) && AllDigits(b)
    ensures AllDigits(a + b)
  {
    forall i | 0 <= i < |a + b| ensures IsDigit((a + b)[i]) {
      if i < |a| { assert (a + b)[i] == a[i]; } else { assert (a + b)[i] == b[i - |a|]; }
    }
  }

  /** Appending digits shifts the value of the front by one decimal place per
      digit appended. */
  lemma {:induction false} DecimalAppend(a: string, b: string)
    requires AllDigits(a) && AllDigits(b)
    ensures AllDigits(a + b)
    ensures DecimalValue(a + b) == DecimalValue(a) * Pow10(|b|) + DecimalValue(b)
    decreases |b|
  {
    AllDigitsAppend(a, b);
    if b == [] {
      assert a + b == a;
    } else {
      var init := b[..|b| - 1];
      var last := b[|b| - 1] as int - '0' as int;
      assert (a + b)[..|a + b| - 1] == a + init;
      assert (a + b)[|a + b| - 1] == b[|b| - 1];
      DecimalAppend(a, init);
      ShiftStep(DecimalValue(a), Pow10(|init|), DecimalValue(init), last);
    }
  }

  lemma ShiftStep(va: int, p: int, vi: int, last: int)
    ensures 10 * (va * p + vi) + last == va * (10 * p) + (10 * vi + last)
  {
  }

  lemma {:induction false} DigitsAppend(a: string, b: string)
    ensures Digits(a + b) == Digits(a) + Digits(b)
  {
    if a != [] {
      assert (a + b)[1..] == a[1..] + b;
      DigitsAppend(a[1..], b);
    } else {
      assert a + b == b;
    }
  }

  /** Removing the non-digits of a digit string changes nothing; in
      particular `Digits` is idempotent. */
  lemma {:induction false} DigitsOfDigits(s: string)
    ensures Digits(s) == s <==> AllDigits(s)
  {
    if s != [] {
      DigitsOfDigits(s[1..]);
      if !IsDigit(s[0]) {
        assert |Digits(s)| <= |s[1..]| < |s|;
      }
    }
  }

  lemma {:induction false} StripSpacesAppend(a: string, b: string)
    ensures StripSpaces(a + b) == StripSpaces(a) + StripSpaces(b)
  {
    if a != [] {
      assert (a + b)[1..] == a[1..] + b;
      StripSpacesAppend(a[1..], b);
    } else {
      assert a + b == b;
    }
  }

  lemma {:induction false} StripSpacesOfDigits(s: string)
    requires AllDigits(s)
    ensures StripSpaces(s) == s
  {
    if s != [] { StripSpacesOfDigits(s[1..]); }
  }

  /** On a string of digits and spaces, deleting the spaces and keeping the
      digits are the same thing. */
  lemma {:induction false} StripSpacesIsDigits(s: string)
    requires DigitsAndSpaces(s)
    ensures StripSpaces(s) == Digits(s)
  {
    if s != [] { StripSpacesIsDigits(s[1..]); }
  }

  lemma {:induction false} CountAppend(a: string, b: string, c: char)
    ensures Count(a + b, c) == Count(a, c) + Count(b, c)
  {
    if a != [] {
      assert (a + b)[1..] == a[1..] + b;
      CountAppend(a[1..], b, c);
    } else {
      assert a + b == b;
    }
  }

  lemma {:induction false} CountOfDigits(s: string)
    requires AllDigits(s)
    ensures Count(s, ' ') == 0
  {
    if s != [] { CountOfDigits(s[1..]); }
  }

  // ---------------------------------------------------------------------------
  // detectCardBrand
  // ---------------------------------------------------------------------------

  /** `/^5[1-5]/.test(num) || /^2[2-7]/.test(num)` */
  predicate MastercardPrefix(num: string) {
    |num| >= 2 && ((num[0] == '5' && '1' <= num[1] <= '5') || (num[0] == '2' && '2' <= num[1] <= '7'))
  }

  /** `/^3[47]/.test(num)` */
  predicate AmexPrefix(num: string) {
    |num| >= 2 && num[0] == '3' && (num[1] == '4' || num[1] == '7')
  }

  /** `/^6(?:011|5)/.test(num)` */
  predicate DiscoverPrefix(num: string) {
    IsPrefix("6011", num) || IsPrefix("65", num)
  }

  /** An independent reference for `DetectCardBrand`: every digit prefix the
      terminal recognises, written out one by one, with its brand. */
  const BrandPrefixes: seq<(string, CardBrand)> := [
    ("4", VISA),
    ("51", MAST), ("52", MAST), ("53", MAST), ("54", MAST), ("55", MAST),
    ("22", MAST), ("23", MAST), ("24", MAST), ("25", MAST), ("26", MAST), ("27", MAST),
    ("34", AMEX), ("37", AMEX),
    ("6011", DISC), ("65", DISC)
  ]

  /** The brand of a card number: the non-digits are dropped, then the tests
      run in a fixed order and the first that holds decides. A known brand is
      always the brand of a listed prefix that starts the digits. */
  function DetectCardBrand(cardNumber: string): (brand: CardBrand)
    ensures brand != Unknown ==>
      exists k :: 0 <= k < |BrandPrefixes| && BrandPrefixes[k].1 == brand && IsPrefix(BrandPrefixes[k].0, Digits(cardNumber))
  {
    var num := Digits(cardNumber);
    if IsPrefix("4", num) then
      assert IsPrefix(BrandPrefixes[0].0, num);
      VISA
    else if MastercardPrefix(num) then
      var k := if num[0] == '5' then (num[1] as int - '1' as int) + 1 else (num[1] as int - '2' as int) + 6;
      assert IsPrefix(BrandPrefixes[k].0, num);
      MAST
    else if AmexPrefix(num) then
      var k := if num[1] == '4' then 12 else 13;
      assert IsPrefix(BrandPrefixes[k].0, num);
      AMEX
    else if DiscoverPrefix(num) then
      var k := if IsPrefix("6011", num) then 14 else 15;
      assert IsPrefix(BrandPrefixes[k].0, num);
      DISC
    else Unknown
  }


  /** The brand depends on the digits of the input only. */
  lemma {:induction false} BrandIgnoresNonDigits(s: string)
    ensures DetectCardBrand(Digits(s)) == DetectCardBrand(s)
  {
    DigitsOfDigits(Digits(s));
  }

  /** Whatever follows a leading '4', the card is VISA: the VISA test runs first. */
  lemma {:induction false} LeadingFourIsVisa(s: string)
    requires AllDigits(s) && |s| >= 1 && s[0] == '4'
    ensures DetectCardBrand(s) == VISA
  {
    DigitsOfDigits(s);
  }

  /** A number starting with one of the listed prefixes gets that prefix's
      brand; no two listed prefixes can both start the same number. */
  lemma {:induction false} BrandMatchesTable(s: string, k: nat)
    requires k < |BrandPrefixes| && IsPrefix(BrandPrefixes[k].0, Digits(s))
    ensures DetectCardBrand(s) == BrandPrefixes[k].1
  {
    var num := Digits(s);
    assert num[0] == BrandPrefixes[k].0[0];
  }

  /** A number that starts with none of the listed prefixes, the empty
      number among them, is of unknown brand, and only such a number is. */
  lemma {:induction false} UnknownBrandIffNoPrefix(s: string)
    ensures DetectCardBrand(s) == Unknown <==>
      forall k :: 0 <= k < |BrandPrefixes| ==> !IsPrefix(BrandPrefixes[k].0, Digits(s))
  {
    var num := Digits(s);
    if DetectCardBrand(s) == Unknown {
      forall k | 0 <= k < |BrandPrefixes|
        ensures !IsPrefix(BrandPrefixes[k].0, num)
      {
        if IsPrefix(BrandPrefixes[k].0, num) {
          BrandMatchesTable(s, k);
        }
      }
    }
  }

  // ---------------------------------------------------------------------------
  // formatCardNumber
  // ---------------------------------------------------------------------------

  /** `String.prototype.trim`, leading side. */
  function TrimStart(s: string): (r: string)
    ensures |r| <= |s|
    ensures r == [] || !IsSpace(r[0])
  {
    if s != [] && IsSpace(s[0]) then TrimStart(s[1..]) else s
  }

  /** `String.prototype.trim`, trailing side. */
  function TrimEnd(s: string): (r: string)
    ensures |r| <= |s|
    ensures r == [] || !IsSpace(r[|r| - 1])
  {
    if s != [] && IsSpace(s[|s| - 1]) then TrimEnd(s[..|s| - 1]) else s
  }

  /** `String.prototype.trim`: the result is a piece of the input that
      neither starts nor ends with white space, and an input that already
      does neither is returned unchanged. */
  function Trim(s: string): (r: string)
    ensures |r| <= |s|
    ensures r == [] || (!IsSpace(r[0]) && !IsSpace(r[|r| - 1]))
    ensures s == [] || (!IsSpace(s[0]) && !IsSpace(s[|s| - 1])) ==> r == s
  {
    var t := TrimStart(s);
    TrimEndKeepsFront(t);
    TrimEnd(t)
  }

  /** `trim` removes only white space: its result is a slice of the input
      with nothing but white space on either side of it. */
  lemma TrimIsSlice(s: string)
    ensures exists i, j ::
      && 0 <= i <= j <= |s| && Trim(s) == s[i..j]
      && (forall k :: 0 <= k < i ==> IsSpace(s[k]))
      && (forall k :: j <= k < |s| ==> IsSpace(s[k]))
  {
    var t := TrimStart(s);
    var i := TrimStartSlice(s);
    var j := TrimEndSlice(t);
    assert Trim(s) == s[i..i + j];
    forall k | i + j <= k < |s| ensures IsSpace(s[k]) {
      assert s[k] == t[k - i];
    }
  }

  /** What `TrimStart` drops is a run of white space at the front. */
  lemma {:induction false} TrimStartSlice(s: string) returns (i: nat)
    ensures i <= |s| && TrimStart(s) == s[i..]
    ensures forall k :: 0 <= k < i ==> IsSpace(s[k])
    decreases |s|
  {
    if s != [] && IsSpace(s[0]) {
      var i' := TrimStartSlice(s[1..]);
      i := i' + 1;
      assert s[1..][i'..] == s[i..];
      forall k | 0 <= k < i ensures IsSpace(s[k]) {
        if k > 0 { assert s[k] == s[1..][k - 1]; }
      }
    } else {
      i := 0;
    }
  }

  /** What `TrimEnd` drops is a run of white space at the back. */
  lemma {:induction false} TrimEndSlice(s: string) returns (j: nat)
    ensures j <= |s| && TrimEnd(s) == s[..j]
    ensures forall k :: j <= k < |s| ==> IsSpace(s[k])
    decreases |s|
  {
    if s != [] && IsSpace(s[|s| - 1]) {
      var init := s[..|s| - 1];
      j := TrimEndSlice(init);
      assert init[..j] == s[..j];
      forall k | j <= k < |s| ensures IsSpace(s[k]) {
        if k < |s| - 1 { assert s[k] == init[k]; }
      }
    } else {
      j := |s|;
    }
  }

  /** Trimming the end never touches the first character that survives. */
  lemma {:induction false} TrimEndKeepsFront(t: string)
    ensures TrimEnd(t) != [] ==> TrimEnd(t)[0] == t[0]
    decreases |t|
  {
    if t != [] && IsSpace(t[|t| - 1]) {
      TrimEndKeepsFront(t[..|t| - 1]);
    }
  }

  /** `num.replace(/(\d{4})(?=\d)/g, '$1 ')` on a digit string: a space after
      every run of four digits that another digit follows. When the match
      fails at some position, fewer than five digits are left there, so it
      fails at every later position as well and the rest is kept as it is. */
  function GroupFours(num: string): (r: string)
    ensures |num| <= |r|
    ensures num != [] ==> r[0] == num[0] && r[|r| - 1] == num[|num| - 1]
    decreases |num|
  {
    if |num| <= 4 then num else num[..4] + " " + GroupFours(num[4..])
  }

  /** `num.replace(/(\d{4})(\d{6})(\d{0,5})/, '$1 $2 $3')` on a digit string:
      the first match starts at position 0 when there are ten digits or more,
      and there is none otherwise; the third group takes up to five digits and
      any digits after it are kept unchanged. */
  function AmexGroups(num: string): (r: string)
    ensures |num| < 10 ==> r == num
    ensures |num| >= 10 ==> |r| == |num| + 2 && r[4] == ' ' && r[11] == ' '
  {
    if |num| < 10 then num
    else
      var k := if |num| < 15 then |num| else 15;
      num[..4] + " " + num[4..10] + " " + num[10..k] + num[k..]
  }

  /** The display form of a card number: 4-6-5 for AMEX, groups of four
      otherwise, with a partial last group while the number is being typed.
      Deleting the spaces of the result gives back exactly the digits of the
      input, for both layouts, and nothing but digits and spaces is produced. */
  function FormatCardNumber(cardNumber: string): (r: string)
    ensures DigitsAndSpaces(r)
    ensures StripSpaces(r) == Digits(cardNumber)
    ensures Digits(r) == Digits(cardNumber)
  {
    var num := Digits(cardNumber);
    var brand := DetectCardBrand(num);
    var r := if brand == AMEX then Trim(AmexGroups(num)) else Trim(GroupFours(num));
    assert DigitsAndSpaces(r) && StripSpaces(r) == num by {
      DigitsOfDigits(num);
      if num == [] {
      } else if brand == AMEX {
        AmexLayout(num);
      } else {
        GroupFoursLayout(num);
      }
    }
    StripSpacesIsDigits(r);
    r
  }

  lemma TrimOneTrailingSpace(s: string)
    requires |s| >= 1 && !IsSpace(s[0]) && !IsSpace(s[|s| - 1])
    ensures Trim(s + " ") == s
  {
    var t := s + " ";
    assert t[0] == s[0];
    assert TrimStart(t) == t;
    assert t[..|t| - 1] == s;
    assert TrimEnd(s) == s;
  }

  /** The layout of a grouped number: one space after each complete group of
      four that another digit follows, i.e. at every position 4 (mod 5), and
      nowhere else; `(n - 1) / 4` spaces in all, none at either end. */
  lemma {:induction false} GroupFoursLayout(num: string)
    requires AllDigits(num) && |num| >= 1
    ensures var r := GroupFours(num);
      && |r| == |num| + (|num| - 1) / 4
      && (forall i :: 0 <= i < |r| ==> (r[i] == ' ' <==> i % 5 == 4))
      && DigitsAndSpaces(r)
      && Count(r, ' ') == (|num| - 1) / 4
      && StripSpaces(r) == num
      && IsDigit(r[0]) && IsDigit(r[|r| - 1])
  {
    GroupFoursShape(num);
    GroupFoursCount(num);
    GroupFoursStrip(num);
  }

  lemma {:induction false} GroupFoursShape(num: string)
    requires AllDigits(num) && |num| >= 1
    ensures var r := GroupFours(num);
      && |r| == |num| + (|num| - 1) / 4
      && (forall i :: 0 <= i < |r| ==> (r[i] == ' ' <==> i % 5 == 4))
      && DigitsAndSpaces(r)
    decreases |num|
  {
    var r := GroupFours(num);
    if |num| > 4 {
      var head, rest := num[..4], num[4..];
      GroupFoursShape(rest);
      var g := GroupFours(rest);
      assert r == head + " " + g;
      forall i | 0 <= i < |r| ensures (r[i] == ' ' <==> i % 5 == 4) && (IsDigit(r[i]) || r[i] == ' ') {
        if i >= 5 { assert r[i] == g[i - 5]; } else if i < 4 { assert r[i] == num[i]; }
      }
    }
  }

  lemma {:induction false} GroupFoursCount(num: string)
    requires AllDigits(num) && |num| >= 1
    ensures Count(GroupFours(num), ' ') == (|num| - 1) / 4
    decreases |num|
  {
    if |num| <= 4 {
      CountOfDigits(num);
    } else {
      var head, rest := num[..4], num[4..];
      GroupFoursCount(rest);
      var g := GroupFours(rest);
      assert GroupFours(num) == head + " " + g;
      CountOfDigits(head);
      CountAppend(head, " ", ' ');
      CountAppend(head + " ", g, ' ');
    }
  }

  lemma {:induction false} GroupFoursStrip(num: string)
    requires AllDigits(num) && |num| >= 1
    ensures StripSpaces(GroupFours(num)) == num
    decreases |num|
  {
    if |num| <= 4 {
      StripSpacesOfDigits(num);
    } else {
      var head, rest := num[..4], num[4..];
      GroupFoursStrip(rest);
      var g := GroupFours(rest);
      assert GroupFours(num) == head + " " + g;
      StripSpacesOfDigits(head);
      StripSpacesAppend(head, " ");
      StripSpacesAppend(head + " ", g);
      assert StripSpaces(" ") == [];
      assert num == head + rest;
    }
  }


  /** Joining a group of digits with a single space adds only that space. */
  lemma StripJoined(a: string, b: string)
    requires DigitsAndSpaces(a) && AllDigits(b)
    ensures StripSpaces(a + " " + b) == StripSpaces(a) + b
    ensures DigitsAndSpaces(a + " " + b)
  {
    var x := a + " ";
    assert StripSpaces(" ") == [] by {
      assert " "[1..] == [];
    }
    StripSpacesAppend(a, " ");
    assert StripSpaces(x) == StripSpaces(a);
    StripSpacesOfDigits(b);
    StripSpacesAppend(x, b);
    JoinedDigitsAndSpaces(a, b);
  }

  lemma JoinedDigitsAndSpaces(a: string, b: string)
    requires DigitsAndSpaces(a) && AllDigits(b)
    ensures DigitsAndSpaces(a + " " + b)
  {
    var j := a + " " + b;
    forall i | 0 <= i < |j| ensures IsDigit(j[i]) || j[i] == ' ' {
      if i < |a| { assert j[i] == a[i]; }
      else if i > |a| { assert j[i] == b[i - |a| - 1]; }
    }
  }

  /** The AMEX layout: fewer than ten digits stay ungrouped; from ten on, a
      space follows digit 4 and, when more digits follow, digit 10. */
  lemma {:induction false} AmexLayout(num: string)
    requires AllDigits(num) && |num| >= 1
    ensures var r := Trim(AmexGroups(num));
      && (|num| < 10 ==> r == num)
      && (|num| == 10 ==> r == num[..4] + " " + num[4..])
      && (|num| > 10 ==> r == num[..4] + " " + num[4..10] + " " + num[10..])
      && DigitsAndSpaces(r)
      && StripSpaces(r) == num
  {
    if |num| < 10 {
      StripSpacesOfDigits(num);
    } else if |num| == 10 {
      AmexTen(num);
    } else {
      AmexLong(num);
    }
  }

  lemma AmexTen(num: string)
    requires AllDigits(num) && |num| == 10
    ensures var r := Trim(AmexGroups(num));
      r == num[..4] + " " + num[4..] && DigitsAndSpaces(r) && StripSpaces(r) == num
  {
    var a, b := num[..4], num[4..];
    assert AmexGroups(num) == (a + " " + b) + " ";
    assert (a + " " + b)[0] == num[0] && (a + " " + b)[10] == num[9];
    TrimOneTrailingSpace(a + " " + b);
    StripSpacesOfDigits(a);
    StripJoined(a, b);
    assert num == a + b;
  }

  lemma AmexLong(num: string)
    requires AllDigits(num) && |num| > 10
    ensures var r := Trim(AmexGroups(num));
      r == num[..4] + " " + num[4..10] + " " + num[10..] && DigitsAndSpaces(r) && StripSpaces(r) == num
  {
    var a, b, c := num[..4], num[4..10], num[10..];
    var x := a + " " + b;
    var r := x + " " + c;
    AmexLongGroups(num);
    assert Trim(r) == r by {
      assert r[0] == num[0] && r[|r| - 1] == num[|num| - 1];
    }
    StripSpacesOfDigits(a);
    StripJoined(a, b);
    StripJoined(x, c);
    assert num == a + b + c;
  }

  lemma AmexLongGroups(num: string)
    requires |num| > 10
    ensures AmexGroups(num) == num[..4] + " " + num[4..10] + " " + num[10..]
  {
    var k := if |num| < 15 then |num| else 15;
    assert num[10..k] + num[k..] == num[10..];
  }


  /** For a number of any brand but AMEX, the grouped layout. */
  lemma {:induction false} FormatCardNumberFours(s: string)
    requires DetectCardBrand(s) != AMEX
    ensures var n := |Digits(s)|; var r := FormatCardNumber(s);
      && (n == 0 ==> r == [])
      && (n >= 1 ==> |r| == n + (n - 1) / 4 && Count(r, ' ') == (n - 1) / 4
                     && forall i :: 0 <= i < |r| ==> (r[i] == ' ' <==> i % 5 == 4))
  {
    var num := Digits(s);
    BrandIgnoresNonDigits(s);
    DigitsOfDigits(num);
    assert FormatCardNumber(s) == Trim(GroupFours(num));
    if |num| >= 1 {
      GroupFoursUntrimmed(num);
      GroupFoursLayout(num);
    }
  }

  /** A grouped number has no space at either end, so trimming keeps it. */
  lemma GroupFoursUntrimmed(num: string)
    requires AllDigits(num) && |num| >= 1
    ensures Trim(GroupFours(num)) == GroupFours(num)
  {
    var g := GroupFours(num);
    assert !IsSpace(g[0]) && !IsSpace(g[|g| - 1]);
  }

  /** Formatting an already formatted number changes nothing. */
  lemma {:induction false} FormatCardNumberIdempotent(s: string)
    ensures FormatCardNumber(FormatCardNumber(s)) == FormatCardNumber(s)
  {
    var num := Digits(s);
    var r := FormatCardNumber(s);
    assert Digits(r) == num;
    BrandIgnoresNonDigits(s);
    DigitsOfDigits(num);
  }

  // ---------------------------------------------------------------------------
  // formatExpiryDate
  // ---------------------------------------------------------------------------

  /** The expiry as typed: `MM` while at most two digits are present, then
      `MM/` followed by at most two more digits; later digits are dropped.
      The result keeps the first min(n, 4) digits of the input, has a '/'
      exactly when there are more than two, and is at most five characters. */
  function FormatExpiryDate(value: string): (r: string)
    ensures var n := |Digits(value)|;
      && |r| <= 5
      && Digits(r) == Digits(value)[..if n < 4 then n else 4]
      && (n <= 2 ==> r == Digits(value))
      && (n > 2 ==> |r| == n + 1 || (n >= 4 && |r| == 5))
      && (n > 2 ==> r[2] == '/' && r[..2] == Digits(value)[..2])
      && (|r| == 5 <==> n >= 4)
  {
    var cleaned := Digits(value);
    var n := |cleaned|;
    if n <= 2 then
      assert Digits(cleaned) == cleaned[..n] by {
        DigitsOfDigits(cleaned);
        assert cleaned[..n] == cleaned;
      }
      cleaned
    else
      var m := if n < 4 then n else 4;
      var a, b := cleaned[..2], cleaned[2..m];
      assert Digits(a + "/" + b) == cleaned[..m] by {
        DigitsOfDigits(a);
        DigitsOfDigits(b);
        DigitsAppend(a, "/");
        DigitsAppend(a + "/", b);
        assert a + b == cleaned[..m];
      }
      a + "/" + b
  }

  /** Formatting a formatted expiry changes nothing. */
  lemma {:induction false} FormatExpiryDateIdempotent(value: string)
    ensures FormatExpiryDate(FormatExpiryDate(value)) == FormatExpiryDate(value)
  {
    var cleaned := Digits(value);
    var n := |cleaned|;
    var r := FormatExpiryDate(value);
    if n > 2 {
      var m := if n < 4 then n else 4;
      assert Digits(r) == cleaned[..m];
      assert r == cleaned[..m][..2] + "/" + cleaned[..m][2..];
    }
  }
}
