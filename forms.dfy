/** The two form components of the terminal: the card form, which filters
    what is typed into the card number, expiry and CVV and copies the card
    number and brand into the store (src/components/common/CardForm.tsx), and
    the terminal screen, which filters the amount and guards submission
    (src/components/common/PosTerminal.tsx). React effects are explicit
    methods that run after the change they react to. */
module Forms {
  import opened Helpers
  import opened Store

  // ---------------------------------------------------------------------------
  // Card form: pure parts
  // ---------------------------------------------------------------------------

  const MaxCardDigits := 16
  const MaxCvvDigits := 3
  const ExpiredMsg := "La tarjeta ha caducado"

  /** The tabs of the modality selector, whose values are "COR", "DIF", "REC". */
  datatype ModeTab = CorrienteTab | DiferidoTab | RecurrenteTab

  /** `handleModeChange`'s mapping: "COR" becomes SIM, the others pass through. */
  function TabModality(tab: ModeTab): (m: TransactionMode)
    ensures m == SIM <==> tab == CorrienteTab
    ensures m == DIF <==> tab == DiferidoTab
    ensures m == REC <==> tab == RecurrenteTab
  {
    match tab
    case CorrienteTab => SIM
    case DiferidoTab => DIF
    case RecurrenteTab => REC
  }

  /** `value.replace(/[^\d/]/g, '')` */
  function KeepDigitsAndSlash(s: string): (r: string)
    ensures Digits(r) == Digits(s)
  {
    if s == [] then []
    else if IsDigit(s[0]) || s[0] == '/' then
      assert Digits([s[0]] + KeepDigitsAndSlash(s[1..])) == Digits([s[0]]) + Digits(KeepDigitsAndSlash(s[1..])) by {
        DigitsAppend([s[0]], KeepDigitsAndSlash(s[1..]));
      }
      assert Digits(s) == Digits([s[0]]) + Digits(s[1..]) by {
        DigitsAppend([s[0]], s[1..]);
        assert s == [s[0]] + s[1..];
      }
      [s[0]] + KeepDigitsAndSlash(s[1..])
    else KeepDigitsAndSlash(s[1..])
  }

  /** A complete expiry as the form holds it: two digits, '/', two digits. */
  predicate ExpiryShape(d: string) {
    |d| == 5 && AllDigits(d[..2]) && d[2] == '/' && AllDigits(d[3..])
  }

  /** A formatted expiry of five characters is a complete MM/YY. */
  lemma FormattedExpiryShape(value: string)
    ensures |FormatExpiryDate(value)| == 5 ==> ExpiryShape(FormatExpiryDate(value))
  {
    var cleaned := Digits(value);
    if |FormatExpiryDate(value)| == 5 {
      var r := FormatExpiryDate(value);
      assert r == cleaned[..2] + "/" + cleaned[2..4];
      assert r[3..] == cleaned[2..4];
    }
  }

  /** The expiry comparison: a card is expired when its year is before the
      current year, or it is the current year and its month is before the
      current month. For months 1 to 12 this is calendar order: a card is
      expired exactly when its month comes strictly before the current month,
      so the current month itself is still valid. */
  predicate IsExpired(expiryMonth: int, expiryYear: int, currentYear: int, currentMonth: int): (expired: bool)
    ensures 1 <= expiryMonth <= 12 && 1 <= currentMonth <= 12 ==>
      (expired <==> expiryYear * 12 + expiryMonth < currentYear * 12 + currentMonth)
    ensures expiryYear == currentYear && expiryMonth == currentMonth ==> !expired
  {
    expiryYear < currentYear || (expiryYear == currentYear && expiryMonth < currentMonth)
  }

  /** Typing a card number of one to sixteen digits shows a non-empty text
      whose spaces, once removed, give back those digits and whose brand is
      that of the digits: what the card-number effect then copies into the
      store is the digits typed and their brand. */
  lemma TypedCardNumber(input: string)
    requires 1 <= |Digits(input)| <= MaxCardDigits
    ensures var shown := FormatCardNumber(Digits(input));
      && shown != ""
      && StripSpaces(shown) == Digits(input)
      && AllDigits(StripSpaces(shown))
      && DetectCardBrand(shown) == DetectCardBrand(input)
  {
    var v := Digits(input);
    DigitsOfDigits(v);
    var shown := FormatCardNumber(v);
    BrandIgnoresNonDigits(shown);
    BrandIgnoresNonDigits(input);
  }

  // ---------------------------------------------------------------------------
  // Card form: component state
  // ---------------------------------------------------------------------------

  class CardForm {
    const store: TransactionStore
    var cardNumber: string
    var expiryDate: string
    var cvv: string
    var expiryError: string

    constructor (store: TransactionStore)
      ensures this.store == store
      ensures cardNumber == "" && expiryDate == "" && cvv == "" && expiryError == ""
    {
      this.store := store;
      cardNumber, expiryDate, cvv, expiryError := "", "", "", "";
    }

    /** `handleCardNumberChange`: more than sixteen digits leaves the field as
        it was; otherwise it shows the formatted digits. */
    method HandleCardNumberChange(input: string)
      modifies this
      ensures var v := Digits(input);
        cardNumber == if |v| <= MaxCardDigits then FormatCardNumber(v) else old(cardNumber)
      ensures expiryDate == old(expiryDate) && cvv == old(cvv) && expiryError == old(expiryError)
    {
      var value := Digits(input);
      if |value| <= MaxCardDigits {
        cardNumber := FormatCardNumber(value);
      }
    }

    /** The effect on `cardNumber`: a non-empty number sets the brand and the
        space-free number in the store; an empty one resets the brand only and
        leaves the stored number as it was. */
    method CardNumberEffect()
      requires store.Valid()
      modifies store
      ensures store.Valid()
      ensures cardNumber != "" ==>
        store.draft == old(store.draft).With(Marca(DetectCardBrand(cardNumber))).With(NumeroTarjeta(StripSpaces(cardNumber)))
      ensures cardNumber == "" ==> store.draft == old(store.draft).With(Marca(Unknown))
      ensures store.isLoading == old(store.isLoading) && store.error == old(store.error) && store.success == old(store.success)
      ensures store.pending == old(store.pending) && store.inFlight == old(store.inFlight) && store.sent == old(store.sent)
    {
      if cardNumber != "" {
        var brand := DetectCardBrand(cardNumber);
        var cleanCardNumber := StripSpaces(cardNumber);
        store.SetField(Marca(brand));
        store.SetField(NumeroTarjeta(cleanCardNumber));
      } else {
        store.SetField(Marca(Unknown));
      }
    }

    /** `validateExpiryDate`: only a complete MM/YY is judged; the error is
        set when the card is expired and cleared otherwise. */
    method ValidateExpiryDate(date: string, currentYear: int, currentMonth: int)
      requires |date| == 5 ==> ExpiryShape(date)
      modifies this
      ensures |date| == 5 ==>
        expiryError == if IsExpired(DecimalValue(date[..2]), 2000 + DecimalValue(date[3..]), currentYear, currentMonth)
                       then ExpiredMsg else ""
      ensures |date| != 5 ==> expiryError == old(expiryError)
      ensures cardNumber == old(cardNumber) && expiryDate == old(expiryDate) && cvv == old(cvv)
    {
      if |date| == 5 {
        var expiryMonth := DecimalValue(date[..2]);
        var expiryYear := 2000 + DecimalValue(date[3..]);
        if expiryYear < currentYear || (expiryYear == currentYear && expiryMonth < currentMonth) {
          expiryError := ExpiredMsg;
        } else {
          expiryError := "";
        }
      }
    }

    /** `handleExpiryChange`: the field shows the formatted expiry of what was
        typed and a complete one is judged against the current month. */
    method HandleExpiryChange(input: string, currentYear: int, currentMonth: int)
      modifies this
      ensures expiryDate == FormatExpiryDate(input)
      ensures |expiryDate| == 5 ==> ExpiryShape(expiryDate)
      ensures |expiryDate| == 5 ==>
        expiryError == if IsExpired(DecimalValue(expiryDate[..2]), 2000 + DecimalValue(expiryDate[3..]), currentYear, currentMonth)
                       then ExpiredMsg else ""
      ensures |expiryDate| < 5 ==> expiryError == old(expiryError)
      ensures cardNumber == old(cardNumber) && cvv == old(cvv)
    {
      var value := KeepDigitsAndSlash(input);
      expiryDate := FormatExpiryDate(value);
      FormattedExpiryShape(value);
      ValidateExpiryDate(FormatExpiryDate(value), currentYear, currentMonth);
    }

    /** `handleModeChange`: the modality changes and nothing else; installments
        and frequency in particular keep their values. */
    method HandleModeChange(tab: ModeTab)
      requires store.Valid()
      modifies store
      ensures store.Valid()
      ensures store.draft == old(store.draft).With(Modalidad(TabModality(tab)))
      ensures store.draft.plazo == old(store.draft.plazo) && store.draft.frecuenciaDias == old(store.draft.frecuenciaDias)
      ensures store.isLoading == old(store.isLoading) && store.error == old(store.error) && store.success == old(store.success)
      ensures store.pending == old(store.pending) && store.inFlight == old(store.inFlight) && store.sent == old(store.sent)
    {
      if tab == CorrienteTab {
        store.SetField(Modalidad(SIM));
      } else {
        store.SetField(Modalidad(TabModality(tab)));
      }
    }

    /** `handleCvvChange`: the digits typed, accepted when there are at most
        three of them. */
    method HandleCvvChange(input: string)
      modifies this
      ensures var v := Digits(input); cvv == if |v| <= MaxCvvDigits then v else old(cvv)
      ensures AllDigits(old(cvv)) ==> AllDigits(cvv)
      ensures |old(cvv)| <= MaxCvvDigits ==> |cvv| <= MaxCvvDigits
      ensures cardNumber == old(cardNumber) && expiryDate == old(expiryDate) && expiryError == old(expiryError)
    {
      var value := Digits(input);
      if |value| <= MaxCvvDigits {
        cvv := value;
      }
    }

    /** The effect on the store's card number and holder: both empty is read
        as a reset, and all four local fields are cleared. */
    method ResetEffect()
      modifies this
      ensures store.draft.numeroTarjeta == "" && store.draft.nombreTitular == "" ==>
        cardNumber == "" && expiryDate == "" && cvv == "" && expiryError == ""
      ensures !(store.draft.numeroTarjeta == "" && store.draft.nombreTitular == "") ==>
        cardNumber == old(cardNumber) && expiryDate == old(expiryDate) && cvv == old(cvv) && expiryError == old(expiryError)
    {
      if store.draft.numeroTarjeta == "" && store.draft.nombreTitular == "" {
        cardNumber, expiryDate, cvv, expiryError := "", "", "", "";
      }
    }

    /** `handleSubmit`, as the terminal screen wires it: the click runs the
        screen's `handleProcessTransaction`. A click can only happen while the
        button is enabled, so the amount guard passes, exactly one payload is
        posted, and the button is disabled until the submission settles. */
    method HandleSubmit(terminal: PosTerminal)
      requires terminal.store == store && store.Valid() && SubmitEnabled()
      modifies terminal, store
      ensures store.Valid()
      ensures |store.sent| == |old(store.sent)| + 1 && store.sent[..|old(store.sent)|] == old(store.sent)
      ensures store.sent[|old(store.sent)|] == PayloadOf(old(store.draft))
      ensures store.isLoading && store.error == None && !store.success && !SubmitEnabled()
      ensures store.inFlight == old(store.inFlight) + 1 && store.pending == old(store.pending)
      ensures store.draft == old(store.draft) && terminal.error == old(terminal.error) && terminal.amount == old(terminal.amount)
    {
      terminal.HandleProcessTransaction();
    }

    /** The "Procesar Pago" button is enabled: not loading, a holder, a card
        number, an expiry and a CVV entered, no expiry error, and a positive
        amount. */
    predicate SubmitEnabled(): (enabled: bool)
      reads this, store
      ensures enabled ==> store.draft.monto > 0 && !store.isLoading
      ensures enabled ==> store.draft.nombreTitular != "" && cardNumber != "" && expiryDate != "" && cvv != "" && expiryError == ""
    {
      !store.isLoading && store.draft.nombreTitular != "" && cardNumber != "" && expiryDate != ""
      && cvv != "" && expiryError == "" && store.draft.monto > 0
    }
  }

  // ---------------------------------------------------------------------------
  // Terminal screen: the amount filter
  // ---------------------------------------------------------------------------

  const AmountZeroMsg := "El monto debe ser mayor a 0"
  const MaxDecimals := 2

  predicate AmountChar(c: char) { IsDigit(c) || c == '.' }

  predicate AllAmountChars(s: string) { forall i :: 0 <= i < |s| ==> AmountChar(s[i]) }

  /** `value.replace(/[^\d.]/g, '')` */
  function KeepAmountChars(s: string): (r: string)
    ensures AllAmountChars(r)
    ensures Digits(r) == Digits(s) && Count(r, '.') == Count(s, '.')
    ensures AllAmountChars(s) ==> r == s
    ensures |s| == 1 && !AmountChar(s[0]) ==> r == []
  {
    if s == [] then []
    else
      var rest := KeepAmountChars(s[1..]);
      assert s == [s[0]] + s[1..];
      DigitsAppend([s[0]], s[1..]);
      CountAppend([s[0]], s[1..], '.');
      if AmountChar(s[0]) then
        DigitsAppend([s[0]], rest);
        CountAppend([s[0]], rest, '.');
        [s[0]] + rest
      else
        rest
  }

  /** The filter works character by character: filtering a concatenation
      filters each part. With the contract of `KeepAmountChars` this fixes the
      result: every digit and '.' kept in place, every other character gone. */
  lemma {:induction false} KeepAmountCharsAppend(a: string, b: string)
    ensures KeepAmountChars(a + b) == KeepAmountChars(a) + KeepAmountChars(b)
  {
    if a == [] {
      assert a + b == b;
    } else {
      assert (a + b)[0] == a[0] && (a + b)[1..] == a[1..] + b;
      KeepAmountCharsAppend(a[1..], b);
    }
  }

  /** `s.split('.')` */
  function SplitDot(s: string): (parts: seq<string>)
    ensures |parts| == Count(s, '.') + 1
  {
    if s == [] then [""]
    else
      var rest := SplitDot(s[1..]);
      if s[0] == '.' then [""] + rest else [[s[0]] + rest[0]] + rest[1..]
  }

  /** The text before the first '.' (all of `s` when there is none). */
  function WholePart(s: string): (r: string)
    ensures |r| <= |s|
  {
    if s == [] || s[0] == '.' then [] else [s[0]] + WholePart(s[1..])
  }

  /** The text after the first '.' (empty when there is none). */
  function FracPart(s: string): (r: string)
    ensures |r| <= |s|
  {
    if s == [] then [] else if s[0] == '.' then s[1..] else FracPart(s[1..])
  }

  /** The two checks of `handleAmountChange` on the split value: at most two
      parts, and a second part of at most two characters. */
  predicate AmountAccepted(value: string): (ok: bool)
    ensures ok <==> Count(value, '.') <= 1 && |FracPart(value)| <= MaxDecimals
  {
    SplitParts(value);
    var parts := SplitDot(value);
    |parts| <= 2 && (|parts| == 2 ==> |parts[1]| <= MaxDecimals)
  }

  /** The pieces around the first '.': the first piece of the split is the
      whole part, and with exactly one '.' the second is the fractional part. */
  lemma {:induction false} SplitParts(s: string)
    ensures SplitDot(s)[0] == WholePart(s)
    ensures Count(s, '.') == 0 ==> WholePart(s) == s && FracPart(s) == ""
    ensures Count(s, '.') >= 1 ==> s == WholePart(s) + "." + FracPart(s)
    ensures Count(s, '.') == 1 ==> SplitDot(s)[1] == FracPart(s) && Count(FracPart(s), '.') == 0
  {
    if s != [] {
      var tail := s[1..];
      assert s == [s[0]] + tail;
      SplitParts(tail);
      if s[0] == '.' {
        assert WholePart(s) == [] && FracPart(s) == tail;
        assert Count(s, '.') == Count(tail, '.') + 1;
      } else {
        assert WholePart(s) == [s[0]] + WholePart(tail) && FracPart(s) == FracPart(tail);
        assert Count(s, '.') == Count(tail, '.');
        assert SplitDot(s)[0] == [s[0]] + SplitDot(tail)[0];
        if Count(s, '.') >= 1 {
          assert s == [s[0]] + (WholePart(tail) + "." + FracPart(tail));
        }
        if Count(s, '.') == 1 {
          assert SplitDot(s)[1] == SplitDot(tail)[1];
        }
      }
    }
  }

  lemma {:induction false} PartsAreDigits(s: string)
    requires AllAmountChars(s)
    ensures AllDigits(WholePart(s))
    ensures Count(s, '.') <= 1 ==> AllDigits(FracPart(s))
  {
    if s != [] {
      PartsAreDigits(s[1..]);
      if s[0] == '.' && Count(s, '.') <= 1 {
        NoDotDigits(s[1..]);
      }
    }
  }

  lemma {:induction false} NoDotDigits(s: string)
    requires AllAmountChars(s) && Count(s, '.') == 0
    ensures AllDigits(s)
  {
    if s != [] { NoDotDigits(s[1..]); }
  }

  /** The digits of an accepted amount are those of its whole part followed
      by those of its fractional part. */
  lemma AcceptedAmountParts(value: string)
    requires AllAmountChars(value) && AmountAccepted(value)
    ensures AllDigits(WholePart(value)) && AllDigits(FracPart(value)) && |FracPart(value)| <= MaxDecimals
    ensures Digits(value) == WholePart(value) + FracPart(value)
  {
    PartsAreDigits(value);
    SplitParts(value);
    var whole, frac := WholePart(value), FracPart(value);
    DigitsOfDigits(whole);
    DigitsOfDigits(frac);
    if Count(value, '.') == 1 {
      DigitsAppend(whole, ".");
      DigitsAppend(whole + ".", frac);
    } else {
      DigitsOfDigits(value);
    }
  }

  /** `parseFloat(value)` on an accepted value, in cents: `None` stands for
      NaN, which happens exactly when no digit is present ("" or "."). */
  function ParseAmount(value: string): (cents: Option<nat>)
    requires AllAmountChars(value) && AmountAccepted(value)
    ensures cents.None? <==> Digits(value) == ""
    ensures cents.Some? ==> cents.value == DecimalValue(Digits(value)) * Pow10(MaxDecimals - |FracPart(value)|)
  {
    AcceptedAmountParts(value);
    var whole, frac := WholePart(value), FracPart(value);
    var zeros := seq(MaxDecimals - |frac|, _ => '0');
    ZerosValue(MaxDecimals - |frac|);
    var padded := frac + zeros;
    DecimalAppend(frac, zeros);
    DecimalAppend(whole, frac);
    ScaleToCents(DecimalValue(whole), DecimalValue(frac), |frac|);
    if whole == "" && frac == "" then None
    else Some(100 * DecimalValue(whole) + DecimalValue(padded))
  }

  /** Whole units and `k` decimals in cents: the digits read as one number,
      scaled by the decimals that are missing. */
  lemma ScaleToCents(w: nat, f: nat, k: nat)
    requires k <= MaxDecimals
    ensures 100 * w + f * Pow10(MaxDecimals - k) == (w * Pow10(k) + f) * Pow10(MaxDecimals - k)
  {
    assert Pow10(0) == 1 && Pow10(1) == 10 && Pow10(2) == 100;
  }

  predicate HasNonZeroDigit(s: string) { exists i :: 0 <= i < |s| && '1' <= s[i] <= '9' }

  /** A digit string denotes a positive number exactly when one of its digits
      is not zero. */
  lemma {:induction false} DecimalPositive(s: string)
    requires AllDigits(s)
    ensures DecimalValue(s) > 0 <==> HasNonZeroDigit(s)
  {
    if s != [] {
      var init := s[..|s| - 1];
      DecimalPositive(init);
      if HasNonZeroDigit(init) {
        var i :| 0 <= i < |init| && '1' <= init[i] <= '9';
        assert s[i] == init[i];
      }
      if HasNonZeroDigit(s) && !('1' <= s[|s| - 1] <= '9') {
        var i :| 0 <= i < |s| && '1' <= s[i] <= '9';
        assert i < |s| - 1 && init[i] == s[i];
      }
    }
  }

  lemma NonZeroAppend(a: string, b: string)
    ensures HasNonZeroDigit(a + b) <==> HasNonZeroDigit(a) || HasNonZeroDigit(b)
  {
    if HasNonZeroDigit(a + b) {
      var i :| 0 <= i < |a + b| && '1' <= (a + b)[i] <= '9';
      if i >= |a| { assert b[i - |a|] == (a + b)[i]; }
    }
    if HasNonZeroDigit(b) {
      var i :| 0 <= i < |b| && '1' <= b[i] <= '9';
      assert (a + b)[|a| + i] == b[i];
    }
    if HasNonZeroDigit(a) {
      var i :| 0 <= i < |a| && '1' <= a[i] <= '9';
      assert (a + b)[i] == a[i];
    }
  }

  /** An accepted amount parses to a positive number of cents exactly when
      one of its digits is not zero: "0", "0.00", "." and "" all end up as a
      zero amount, which the submission guard refuses. */
  lemma AmountPositiveIff(value: string)
    requires AllAmountChars(value) && AmountAccepted(value)
    ensures (ParseAmount(value).Some? && ParseAmount(value).value > 0) <==> HasNonZeroDigit(value)
  {
    PartsAreDigits(value);
    SplitParts(value);
    var whole, frac := WholePart(value), FracPart(value);
    var zeros := seq(MaxDecimals - |frac|, _ => '0');
    ZerosValue(MaxDecimals - |frac|);
    DecimalPositive(whole);
    DecimalPositive(frac + zeros);
    NonZeroAppend(frac, zeros);
    assert !HasNonZeroDigit(zeros);
    if Count(value, '.') == 1 {
      NonZeroAppend(whole, ".");
      NonZeroAppend(whole + ".", frac);
      assert !HasNonZeroDigit(".");
    }
  }

  // ---------------------------------------------------------------------------
  // Terminal screen: component state
  // ---------------------------------------------------------------------------

  class PosTerminal {
    const store: TransactionStore
    var amount: string
    var error: string

    constructor (store: TransactionStore)
      ensures this.store == store && amount == "" && error == ""
    {
      this.store := store;
      amount, error := "", "";
    }

    /** `handleAmountChange`: the typed text loses every character but digits
        and '.'; more than one '.' or more than two decimals is refused with no
        change; an accepted text is shown as it is, clears the error, and sets
        the store's amount to its value, or to zero when it has no digit. */
    method HandleAmountChange(input: string)
      requires store.Valid()
      modifies this, store
      ensures store.Valid()
      ensures var value := KeepAmountChars(input);
        if Count(value, '.') <= 1 && |FracPart(value)| <= MaxDecimals then
          && amount == value && error == ""
          && AmountAccepted(value)
          && store.draft == old(store.draft).With(Monto(
               if ParseAmount(value).Some? then ParseAmount(value).value else 0))
        else
          amount == old(amount) && error == old(error) && store.draft == old(store.draft)
      ensures store.isLoading == old(store.isLoading) && store.error == old(store.error) && store.success == old(store.success)
      ensures store.pending == old(store.pending) && store.inFlight == old(store.inFlight) && store.sent == old(store.sent)
    {
      var value := KeepAmountChars(input);
      SplitParts(value);
      var parts := SplitDot(value);
      if |parts| > 2 {
        return;
      }
      if |parts| == 2 && |parts[1]| > MaxDecimals {
        return;
      }
      amount := value;
      error := "";
      var parsedAmount := ParseAmount(value);
      if parsedAmount.Some? {
        store.SetField(Monto(parsedAmount.value));
      } else {
        store.SetField(Monto(0));
      }
    }

    /** `handleProcessTransaction`: a non-positive amount sets the amount
        error and posts nothing; otherwise the store's submission starts and
        exactly one payload is posted. */
    method HandleProcessTransaction()
      requires store.Valid()
      modifies this, store
      ensures store.Valid()
      ensures old(store.draft.monto) <= 0 ==>
        && error == AmountZeroMsg
        && store.sent == old(store.sent) && store.inFlight == old(store.inFlight)
        && store.isLoading == old(store.isLoading) && store.error == old(store.error) && store.success == old(store.success)
      ensures old(store.draft.monto) > 0 ==>
        && error == old(error)
        && |store.sent| == |old(store.sent)| + 1 && store.sent[..|old(store.sent)|] == old(store.sent)
        && store.sent[|old(store.sent)|] == PayloadOf(old(store.draft))
        && store.inFlight == old(store.inFlight) + 1
        && store.isLoading && store.error == None && !store.success
      ensures store.draft == old(store.draft) && store.pending == old(store.pending) && amount == old(amount)
    {
      if store.draft.monto <= 0 {
        error := AmountZeroMsg;
        return;
      }
      var p := store.BeginSubmit();
    }

    /** The effect on the store's card number, holder and amount: all three
        empty or zero is read as a reset, and the amount and error are cleared. */
    method ResetEffect()
      modifies this
      ensures store.draft.numeroTarjeta == "" && store.draft.nombreTitular == "" && store.draft.monto == 0 ==>
        amount == "" && error == ""
      ensures !(store.draft.numeroTarjeta == "" && store.draft.nombreTitular == "" && store.draft.monto == 0) ==>
        amount == old(amount) && error == old(error)
    {
      if store.draft.numeroTarjeta == "" && store.draft.nombreTitular == "" && store.draft.monto == 0 {
        amount, error := "", "";
      }
    }
  }
}
