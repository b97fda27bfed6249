# Point-of-sale terminal: card data, transaction store, authorization endpoint

This project is a Dafny model of the logic of a point-of-sale payment terminal
(a Next.js/React application). The model covers:

- **Card-data helpers** (`helpers.dfy`, module `Helpers`). Brand detection from
  the digit prefix. Display formatting of a card number: groups of 4-6-5 for
  AMEX, groups of four otherwise. Display formatting of an expiry as `MM/YY`.
- **Transaction store** (`store.dfy`, module `Store`). One shared store holds
  the draft transaction, three status flags (`isLoading`, `error`, `success`)
  and the submission flow. The flow shapes the draft into the wire payload and
  posts it once. It then maps the outcome onto the flags and schedules a
  reset. The store is a class whose methods update its fields in place.
  - `processTransaction` is split at its `await` into `BeginSubmit` and
    `Settle`, so other events may run between the two.
  - Each `setTimeout` callback is an explicit `FireTimer` step.
- **Simulated authorization endpoint** (`route.dfy`, module `Route`). The
  `POST` handler runs its validations in order, then accepts or rejects at
  random, then echoes the request.
- **Form components** (`forms.dfy`, module `Forms`). The card form filters the
  card number, expiry and CVV, maps the modality tabs, and holds the effect
  that copies the card number and brand into the store. The terminal screen
  filters and parses the amount and guards submission. Both are classes over
  a shared store. Each React effect is a method that runs after the change it
  reacts to.

Conventions:

- Amounts (`monto`) are whole cents rather than JavaScript numbers. The
  code only ever compares `monto` with zero (`<= 0` at
  `PosTerminal.tsx:98`, `CardForm.tsx:266` and `route.ts:10`, `=== 0` at
  `PosTerminal.tsx:69`). Each of those comparisons gives the same answer on
  the double that `parseFloat` returns as on the number of cents. The value
  sent in the JSON prints back as the decimal typed, up to about 15
  significant digits.
- The HTTP outcome is an input datatype: a 2xx resolution, or a thrown axios
  error with its `code`, `message` and optional response.
- `Math.random()`, `Date.now()` and `new Date()` are parameters.
- A string's JavaScript `length` counts UTF-16 code units, so the card-number
  length check of the endpoint counts a character outside the Basic
  Multilingual Plane twice (`Route.Utf16Length`).

The model follows the code on these points:

- A deferred (`DIF`) draft goes out on the wire as `SIM`.
- CVV and expiry are never put in the payload.
- `plazo` is sent only when it is set and non-zero, not for every deferred
  draft.
- Switching modality neither clears nor defaults `plazo` or `frecuenciaDias`.

Some behaviour the model makes visible:

- The detailed "Datos inválidos: verifique número de tarjeta…" message can
  never be the final message. Only a string body reaches the branch that picks
  it, and a string body then always replaces it.
- An empty string body gives an empty error message.
- A request that carries its own `id` keeps that `id` in the approved reply.
  The generated `TX-…` id is replaced.
- `resetForm` does not remove `cvv` or `fechaExpiracion` keys that `setField`
  may have added.
- A reset timer from an earlier submission clears `isLoading` even while a
  later submission is still in flight. This is allowed because `FireTimer`
  does not require `inFlight == 0`.
- Clearing the card-number field resets the brand and leaves the stored
  number as it was.

## Model

| member | source | states |
|---|---|---|
| Helpers.Digits | src/utils/helpers.ts:5 | removing non-digits yields only digits and never lengthens the text |
| Helpers.DetectCardBrand | src/utils/helpers.ts:4-18 | a known brand is always the brand of one of the 16 recognised prefixes that starts the digits of the input |
| Helpers.BrandIgnoresNonDigits | src/utils/helpers.ts:4-5 | the brand depends on the digits of the input only |
| Helpers.LeadingFourIsVisa | src/utils/helpers.ts:7-8 | every digit string starting with '4' is VISA, whatever follows, since that test runs first |
| Helpers.BrandMatchesTable | src/utils/helpers.ts:7-15 | a number starting with any of the 16 recognised prefixes (4; 51–55; 22–27; 34, 37; 6011, 65) gets that prefix's brand |
| Helpers.UnknownBrandIffNoPrefix | src/utils/helpers.ts:9-17 | the brand is 'unknown' exactly when no recognised prefix starts the digits, the empty string included |
| Helpers.Trim | src/utils/helpers.ts:26-28 | the trimmed text is no longer than the input and neither starts nor ends with white space; a text without white space at either end is returned unchanged |
| Helpers.TrimIsSlice | src/utils/helpers.ts:26-28 | `trim` removes only white space: the result is a slice of the input with nothing but white space on either side |
| Helpers.GroupFours | src/utils/helpers.ts:28 | grouping never shortens the text, and the first and last characters are the first and last digits, so no space is left at either end |
| Helpers.AmexGroups | src/utils/helpers.ts:26 | under 10 digits no match and the text is unchanged; from 10 digits two spaces are added, after digit 4 and after digit 10 |
| Helpers.GroupFoursLayout | src/utils/helpers.ts:28 | grouping n ≥ 1 digits by four puts a space exactly at positions 4 mod 5, (n-1) div 4 spaces in all, none at either end, and deleting the spaces restores the digits |
| Helpers.AmexLayout | src/utils/helpers.ts:25-26 | AMEX: under 10 digits ungrouped; 10 digits get one space after digit 4; more get spaces after digits 4 and 10 only; the trailing space of the 10-digit case is trimmed |
| Helpers.FormatCardNumber | src/utils/helpers.ts:21-30 | the formatted number holds only digits and spaces, and deleting its spaces gives exactly the input's digits, for both layouts |
| Helpers.FormatCardNumberFours | src/utils/helpers.ts:21-29 | for any brand but AMEX the output has length n + (n-1) div 4 and (n-1) div 4 spaces at positions 4 mod 5, and is empty for no digits |
| Helpers.FormatCardNumberIdempotent | src/utils/helpers.ts:21-30 | formatting a formatted number changes nothing |
| Helpers.FormatExpiryDate | src/utils/helpers.ts:32-40 | at most 5 characters; ≤ 2 digits come back unchanged; otherwise the first 2 digits, '/', then at most 2 more; the digits kept are the first min(n,4) of the input |
| Helpers.FormatExpiryDateIdempotent | src/utils/helpers.ts:32-40 | formatting a formatted expiry changes nothing |
| Store.Draft.With | src/store/useTransactionStore.ts:56 | setting a field gives that field the new value and leaves every other field as it was |
| Store.ResetDraft | src/store/useTransactionStore.ts:58-72 | every key of the initial state is restored; keys the reset does not list (cvv, fechaExpiracion) are kept |
| Store.TransactionStore.constructor | src/store/useTransactionStore.ts:34-48 | the initial state: empty draft with brand 'unknown', modality SIM, amount 0, USD, no installments or frequency, all flags off |
| Store.TransactionStore.SetField | src/store/useTransactionStore.ts:56 | exactly one draft field changes; flags, timers and posted payloads are untouched |
| Store.TransactionStore.ResetForm | src/store/useTransactionStore.ts:58-72 | the draft is reset as ResetDraft says and all three flags return to their initial values |
| Store.PayloadOf | src/store/useTransactionStore.ts:86-110 | tipo PAG; the draft's brand, with 'unknown' sent as VISA; wire modality REC iff REC, else SIM (DIF included); card number digits only; plazo only for DIF with a truthy plazo; recurrente true and a truthy frecuenciaDias (the draft's if truthy, else 30) only for REC; never plazo and frecuenciaDias together; no CVV or expiry |
| Store.TransactionStore.BuildPayload | src/store/useTransactionStore.ts:86-110 | the payload built step by step (modality variable, then optional keys added) is exactly the one PayloadOf describes for the current draft |
| Store.TransactionStore.BeginSubmit | src/store/useTransactionStore.ts:80-114 | submitting turns on isLoading, clears error and success, and posts exactly one payload, the one PayloadOf describes for the draft |
| Store.TransactionStore.Settle | src/store/useTransactionStore.ts:114-165 | success sets success and clears isLoading; failure sets the mapped message, clears isLoading and success; either schedules its reset timer; isLoading and success are never both on |
| Store.TransactionStore.FireTimer | src/store/useTransactionStore.ts:120-123 | a fired timer (success timer here, failure timer at lines 162-165) clears its flag and resets the form, leaving all flags off |
| Store.FailureMessage | src/store/useTransactionStore.ts:128-156 | the message shown is either a text the failure itself carries (its message or the response body's) or one of the five fixed messages |
| Store.ErrorMessage | src/store/useTransactionStore.ts:128-156 | the catch block's step-by-step reassignment gives the same message as the precedence list: connectivity, then body message, then status, then the error's own message, then the generic text |
| Store.NetworkIgnoresResponse | src/store/useTransactionStore.ts:131-132 | a connectivity failure (ERR_NETWORK, ECONNREFUSED or "Network Error") gets the connectivity message whatever response it carries |
| Store.ValidationDetailNeverChosen | src/store/useTransactionStore.ts:134-150 | the detailed validation message is shown only if the failure itself carries that very text |
| Store.StatusMessages | src/store/useTransactionStore.ts:133-150 | a body message always wins; without one, 400, 404 and 500 each have their message (iff) and any other status keeps the generic one |
| Route.NatToString | src/app/api/transacciones/route.ts:48 | the decimal text of n consists of digits, denotes n and has no leading zero |
| Route.AuthorizationCode | src/app/api/transacciones/route.ts:48 | the authorization code is exactly 6 digits and denotes the number drawn in [0, 999999] |
| Route.Utf16Length | src/app/api/transacciones/route.ts:17 | the JavaScript length lies between the number of characters and twice it, equals it when every character is in the Basic Multilingual Plane, and a single character counts 1 inside that plane and 2 outside it |
| Route.Utf16LengthAppend | src/app/api/transacciones/route.ts:17 | the length of a concatenation is the sum of the lengths, so with the one-character case every character is counted on its own |
| Route.Post | src/app/api/transacciones/route.ts:5-57 | 200 iff the body parses, the amount is > 0, the card has ≥ 13 UTF-16 units, a holder is given and the draw approves; each 400 message iff its check is the first to fail, and the bank rejection iff all checks pass and the draw refuses; every other reply to a readable body is 400; 500 iff the body cannot be read; the approved reply echoes the request, has estado APROBADO, a 6-digit code and an id prefixed TX- unless the request brings one |
| Route.FirstFailureDecides | src/app/api/transacciones/route.ts:10-29 | once a check fails, later fields, the draws and the clock do not change the 400 reply |
| Forms.TabModality | src/components/common/CardForm.tsx:88-95 | COR maps to SIM, DIF and REC pass through (each iff) |
| Forms.KeepDigitsAndSlash | src/components/common/CardForm.tsx:63 | the expiry input filter keeps every digit |
| Forms.FormattedExpiryShape | src/components/common/CardForm.tsx:62-71 | a formatted expiry of 5 characters is two digits, '/', two digits, so the split into month and year is well defined |
| Forms.IsExpired | src/components/common/CardForm.tsx:79-83 | for months 1–12, expired iff the expiry's calendar month is strictly before the current one; the current month itself is never expired |
| Forms.TypedCardNumber | src/components/common/CardForm.tsx:40-59 | typing 1–16 digits shows a non-empty text whose space-free form, which the effect stores, is exactly those digits, with their brand |
| Forms.CardForm.constructor | src/components/common/CardForm.tsx:23-26 | the four local fields start empty |
| Forms.CardForm.HandleCardNumberChange | src/components/common/CardForm.tsx:54-59 | over 16 digits leaves the field unchanged, otherwise it shows the formatted digits |
| Forms.CardForm.CardNumberEffect | src/components/common/CardForm.tsx:40-51 | a non-empty number stores its brand and space-free number; an empty one sets the brand to 'unknown' and leaves the stored number |
| Forms.CardForm.ValidateExpiryDate | src/components/common/CardForm.tsx:69-85 | a 5-character MM/YY sets the error iff 2000+YY is before the current year, or equal with MM before the current month, and clears it otherwise; shorter input leaves the error |
| Forms.CardForm.HandleExpiryChange | src/components/common/CardForm.tsx:62-66 | the field shows the formatted expiry of the input and a complete one is judged |
| Forms.CardForm.HandleModeChange | src/components/common/CardForm.tsx:88-95 | only the modality changes; plazo and frecuenciaDias keep their values |
| Forms.CardForm.HandleCvvChange | src/components/common/CardForm.tsx:98-103 | the CVV becomes the input's digits when there are at most 3, otherwise stays |
| Forms.CardForm.ResetEffect | src/components/common/CardForm.tsx:29-37 | with the stored number and holder both empty all four local fields are cleared, otherwise none changes |
| Forms.CardForm.SubmitEnabled | src/components/common/CardForm.tsx:259-267 | an enabled button implies a positive amount, no submission loading, a holder name, card number, expiry and CVV entered and no expiry error |
| Forms.CardForm.HandleSubmit | src/components/common/CardForm.tsx:106-112 | a click on the enabled button (not loading, holder, card, expiry and CVV present, no expiry error, amount > 0; lines 259-267) posts exactly one payload, the one PayloadOf describes for the draft; loading on, error and success cleared, one call in flight more, timers, draft and the screen's amount and error unchanged; the button is then disabled |
| Forms.KeepAmountChars | src/components/common/PosTerminal.tsx:77 | the amount filter keeps only digits and '.', keeps every digit and every '.' of the input, returns an input made only of them unchanged, and drops a single other character |
| Forms.KeepAmountCharsAppend | src/components/common/PosTerminal.tsx:77 | the filter works character by character: filtering a concatenation is filtering each part, so digits and '.' stay in their order and place |
| Forms.SplitDot | src/components/common/PosTerminal.tsx:80 | splitting on '.' gives one piece more than there are dots |
| Forms.SplitParts | src/components/common/PosTerminal.tsx:80-82 | the first piece is the text before the first dot and, with one dot, the second is the text after it |
| Forms.AmountAccepted | src/components/common/PosTerminal.tsx:80-82 | an amount is accepted iff it has at most one '.' and at most two characters after it |
| Forms.AcceptedAmountParts | src/components/common/PosTerminal.tsx:77-82 | an accepted amount's digits are its whole part then its decimals, at most two |
| Forms.ParseAmount | src/components/common/PosTerminal.tsx:88-93 | an accepted amount fails to parse exactly when it has no digit; otherwise its cents are its digits read as one number, times 10 for each of the two decimals that is missing |
| Forms.AmountPositiveIff | src/components/common/PosTerminal.tsx:88-101 | an accepted amount becomes a positive number of cents iff one of its digits is not 0 |
| Forms.PosTerminal.constructor | src/components/common/PosTerminal.tsx:29-31 | amount and error start empty |
| Forms.PosTerminal.HandleAmountChange | src/components/common/PosTerminal.tsx:75-94 | a refused input changes nothing; an accepted one is shown verbatim, clears the error, and sets the stored amount to its value or 0 |
| Forms.PosTerminal.HandleProcessTransaction | src/components/common/PosTerminal.tsx:96-114 | an amount ≤ 0 sets the amount error and posts nothing; otherwise exactly one payload is posted, the one PayloadOf describes for the draft, with loading on, error and success cleared |
| Forms.PosTerminal.ResetEffect | src/components/common/PosTerminal.tsx:67-73 | with number and holder empty and amount 0 the amount and error are cleared, otherwise they stay |

## Left out

- Rendering, animations, theming, the dialog and `CardBrandIcon` (a brand-to-icon lookup): presentation only.
- The terminal configuration fetch and its field renaming (`PosTerminal.tsx:44-64`), and the request itself (`axios.post`): network I/O. The outcome of the call is an input instead.
- `setLoading`, `setError` and `setSuccess` (`useTransactionStore.ts:74-78`): no component calls them. With them, the store could reach `isLoading && success`.
- Real time: the 1.5 s delay of the endpoint and the 2 s and 5 s timers. A timer is a step that may fire at any point after it is scheduled.
- `console.log` / `console.error` calls, zustand's `create`, and React's scheduling of renders and effects.
- Floating point: the amount is a whole number of cents, not a double. Amounts with more than about 15 significant digits, which a double no longer prints back as typed, are not modelled.
- The store's `monto`, `plazo` and `frecuenciaDias` are integers. `NaN` is not modelled: `parseInt` of the fixed select options never gives it.
- Route.Post: the request keeps only the keys the handler reads plus `id`; other keys are echoed unchanged in the source. JSON values of the wrong type (a numeric `numeroTarjeta`, a string `monto`) are not modelled.
- Forms.CardForm.ValidateExpiryDate: requires a 5-character date to have the MM/YY shape. Its only caller passes a formatted expiry, which always has that shape (`Forms.FormattedExpiryShape`). Other strings would reach `parseInt`, which is not modelled.
- A truthy non-string `message` in a response object is not modelled. The message is a string or absent.
- `CardForm`'s `handleSubmit` without an `onSubmit` (calling `processTransaction` directly) is not modelled. The terminal screen always passes `onSubmit`.
