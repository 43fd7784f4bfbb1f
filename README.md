# AE Solar landing site: proposal calculator and lead-capture form

This project models, in Dafny, the two parts of the AE Solar marketing site
that hold logic. The site sells subscription solar energy in Goiás.

- **The proposal page** (`/proposta`, `proposta.dfy`). It reads the visitor's data from
  the query string (`nome`, `empresa`, `cidade`, `tipo_estabelecimento`,
  `valor_conta`). It estimates consumption in kWh from the monthly bill at the
  reference tariff of R$ 1.15/kWh. It derives the guaranteed 20 % saving, the new bill,
  the yearly saving and the "trees preserved" figure (one per R$ 200 saved a year).
  It tabulates the effective discount under each tariff flag ("bandeira tarifária").
  It computes the headline "Reduza sua conta em até N%", rounded down. It also
  builds the WhatsApp message and the wa.me link that carries it.
- **The lead-capture form** (`lead_capture_form.dfy`). The WhatsApp field is
  re-masked as `(DD) DDDDD-DDDD` on every keystroke. Submitting runs three checks
  in order: name, WhatsApp, e-mail. The first failure shows its toast. When every
  check passes, the component goes from idle to submitting to success. It is a
  class with the component's state as fields: `formData`, `isSubmitting`,
  `isSuccess`, and the toasts shown so far.
- **`text.dfy`** models the JavaScript string built-ins these files rely on:
  - `trim` and the `\s` class share one set of white-space characters;
  - `\D`;
  - `replace` with a string pattern replaces the first occurrence only;
  - `length`, counted in UTF-16 code units.

  `IndexOf` is not called by the site; it is the reference definition of
  "first occurrence" that the contract of `ReplaceFirst` is stated against.
- **`wrappers.dfy`** is the `Option` type.

Arithmetic is exact (`real`). JavaScript's `Number(string)`, the number
formatters (`toLocaleString("pt-BR")`, `toFixed(2)`) and `encodeURIComponent`
are function parameters. The model does not fix how they map text to numbers or
numbers to text. `Number` returns `None` where JavaScript gives `NaN`.

`handleSubmit` is an `async` function with one `await` (the 1.5-second delay
that stands in for an API call). It is modelled as two methods:
`HandleSubmit` runs up to the `await`, and `ResumeAfterDelay` runs after it.

Some consequences of the code, each proved below:
- The headline evaluates to 26 %: (1.15·0.2 + 0.101)/(1.15 + 0.101)·100 = 33100/1251 ≈ 26.46, rounded down.
- A bill with a thousands point, "9.000,50", becomes "9.000.50", which `Number`
  rejects, so it reads as 0.
- An absent, unparseable or zero bill is shown as 0 (for an absent bill, given that `Number("")` is 0).
- A negative bill is not clamped: the savings come out negative.

## Model

| member | source | states |
|---|---|---|
| Text.Digits | src/components/LeadCaptureForm.tsx:57 | `replace(/\D/g, "")` keeps only digits and never lengthens the string |
| Text.DigitsAppend | src/components/LeadCaptureForm.tsx:57 | taking the digits distributes over concatenation |
| Text.DigitsOfDigits | src/components/LeadCaptureForm.tsx:57 | a string of digits is left unchanged by removing non-digits |
| Text.DigitsOfNonDigits | src/components/LeadCaptureForm.tsx:57 | a string without digits is erased completely |
| Text.IndexOf | src/pages/Proposta.tsx:32 | the first position of a character, -1 exactly when it is absent, with no earlier occurrence |
| Text.ReplaceFirst | src/pages/Proposta.tsx:32 | `replace(",", ".")` changes only the first occurrence and keeps every other position and the length |
| Text.ReplaceFirstAt | src/pages/Proposta.tsx:32 | with no earlier occurrence, the occurrence right after `pre` is the one replaced |
| Text.ReplaceFirstAbsent | src/pages/Proposta.tsx:32 | a string without the pattern is returned unchanged |
| Text.IsWhitespace | src/components/LeadCaptureForm.tsx:92 | definition: the characters `\s` and `trim` treat as white space (ECMAScript WhiteSpace and LineTerminator) |
| Text.TrimStart | src/pages/Proposta.tsx:27-30 | definition: drops white space at the front; its property is `TrimStartSpec` |
| Text.TrimEnd | src/pages/Proposta.tsx:27-30 | definition: drops white space at the back; its property is `TrimEndSpec` |
| Text.TrimStartSpec | src/pages/Proposta.tsx:27-30 | leading trim keeps a suffix that does not start with white space; everything dropped is white space |
| Text.TrimEndSpec | src/pages/Proposta.tsx:27-30 | trailing trim keeps a prefix that does not end with white space; everything dropped is white space |
| Text.Trim | src/components/LeadCaptureForm.tsx:74 | `trim()` neither starts nor ends with white space, and is empty exactly when the input is all white space |
| Text.TrimIsSlice | src/pages/Proposta.tsx:27-30 | `trim()` is the slice of the input left between a run of white space at the front and one at the back |
| Text.TrimIdempotent | src/pages/Proposta.tsx:27-30 | trimming twice is trimming once |
| Text.TrimOr | src/pages/Proposta.tsx:27 | `s.trim() \|\| fallback` is the fallback for all-white-space input, otherwise the non-empty trimmed text |
| Text.Utf16Length | src/components/LeadCaptureForm.tsx:74 | `length` counts between one and two code units per character |
| Proposta.Param | src/pages/Proposta.tsx:27-32 | definition: `q.get(key) \|\| ""`, the empty string for a missing key |
| Proposta.ValorConta | src/pages/Proposta.tsx:32 | definition: `Number(bill with first comma as point) \|\| 0`; its properties are `FirstCommaRead`, `DecimalCommaAsPoint`, `ThousandsSeparatorReadsAsZero` and `NegativeBillNotClamped` |
| Proposta.OrZero | src/pages/Proposta.tsx:32 | `Number(...) \|\| 0`: an unparseable value reads as 0, a parsed one as itself |
| Proposta.NormalizeDecimal | src/pages/Proposta.tsx:32 | the first comma of the bill becomes a point and nothing else changes |
| Proposta.FirstCommaRead | src/pages/Proposta.tsx:32 | a bill is parsed with its first comma turned into a point |
| Proposta.DecimalCommaAsPoint | src/pages/Proposta.tsx:32 | a bill with one decimal comma reads exactly as the same bill with a decimal point |
| Proposta.ThousandsSeparatorReadsAsZero | src/pages/Proposta.tsx:32 | "9.000,50" becomes "9.000.50" and, when `Number` rejects that, the bill reads as 0 |
| Proposta.Calcular | src/pages/Proposta.tsx:34-43 | consumption times tariff gives back a positive bill (0 otherwise); saving plus new cost is the bill; new cost is 80 %; yearly is 12 months; trees is the floor of yearly/200; all non-negative for a non-negative bill |
| Proposta.Calcular1000 | src/pages/Proposta.tsx:34-43 | a R$ 1000 bill gives about 869.57 kWh, R$ 200 saved, R$ 800 to pay, R$ 2400 a year and 12 trees |
| Proposta.AbsentBillReadsAsZero | src/pages/Proposta.tsx:32 | without `valor_conta` the bill reads from "", and with `Number("")` = 0 it reads as 0 |
| Proposta.NegativeBillNotClamped | src/pages/Proposta.tsx:32-42 | a negative bill is kept, consumption shows 0 and the savings are negative |
| Proposta.EconomiaRealPct | src/pages/Proposta.tsx:180-182 | the effective discount under a non-negative surcharge is at least 20 % and below 100 %, and exactly 20 % with no surcharge |
| Proposta.EconomiaRealPctStrictlyIncreasing | src/pages/Proposta.tsx:180-182 | a higher surcharge gives a strictly higher effective discount |
| Proposta.Tabela | src/pages/Proposta.tsx:179-191 | one row per flag, in order, with its name and surcharge and a discount in [20, 100) |
| Proposta.BandeirasOrdered | src/pages/Proposta.tsx:13-18 | the flag surcharges are non-negative and strictly increasing |
| Proposta.TabelaStrictlyIncreasing | src/pages/Proposta.tsx:179-191 | for strictly increasing surcharges, the table's discounts strictly increase down the rows |
| Proposta.MaxEconomyPct | src/pages/Proposta.tsx:46-51 | definition: the floor of the discount at the 0.101 surcharge; its property is `MaxEconomyPctIsWorstFlag` |
| Proposta.MaxEconomyPctIsWorstFlag | src/pages/Proposta.tsx:45-51 | the headline is the last flag's discount rounded down, every row's discount is below the headline plus one, and the headline is 26 |
| Proposta.LerDados | src/pages/Proposta.tsx:27-32 | name, city and kind are trimmed with placeholders "Cliente"/"—" when blank (so never empty); company is trimmed and may be empty; the bill is `ValorConta` |
| Proposta.MensagemLinhas | src/pages/Proposta.tsx:55-63 | definition: the template segments of the message, the "Empresa" one only for a non-empty company; its property is `EmpresaLine` |
| Proposta.JoinLines | src/pages/Proposta.tsx:55-63 | definition: segments joined with `\n` |
| Proposta.Mensagem | src/pages/Proposta.tsx:55-63 | definition: the message text before URL encoding |
| Proposta.WhatsappHref | src/pages/Proposta.tsx:53-65 | definition: `https://wa.me/556236382770?text=` followed by the encoded message; its property is `WhatsappHrefCarriesMessage` |
| Proposta.WhatsappHrefCarriesMessage | src/pages/Proposta.tsx:53-65 | with an injective encoding, two links are equal exactly when their messages are equal |
| Proposta.EmpresaLine | src/pages/Proposta.tsx:55-63 | some template segment of the message starts with "Empresa: " exactly when the company is non-empty, and then it is "Empresa: " followed by the company |
| LeadCapture.KeptDigits | src/components/LeadCaptureForm.tsx:57 | the kept digits are the first min(11, n) digits of the typed value |
| LeadCapture.Layout | src/components/LeadCaptureForm.tsx:58-60 | definition: the three cases of the mask; its properties are `DigitsOfLayout` and `FormatShape` |
| LeadCapture.FormatWhatsApp | src/components/LeadCaptureForm.tsx:56-61 | definition: `formatWhatsApp`, the mask over the kept digits; its properties are `FormatKeepsDigits`, `FormatShape` and `FormatIdempotent` |
| LeadCapture.DigitsOfLayout | src/components/LeadCaptureForm.tsx:58-60 | the mask adds no digits: reading the digits of the layout gives back the digits laid out |
| LeadCapture.DigitsOfPiece | src/components/LeadCaptureForm.tsx:59-60 | appending mask characters and then digits adds exactly those digits |
| LeadCapture.FormatKeepsDigits | src/components/LeadCaptureForm.tsx:56-61 | the formatted value's digits are the kept digits, and every other character is `(`, `)`, space or `-` |
| LeadCapture.FormatShape | src/components/LeadCaptureForm.tsx:58-60 | up to 2 digits are returned bare; 3 to 7 give `(DD) D…`; 8 or more give `(DD) DDDDD-D…`, with lengths n, n+3, n+4 |
| LeadCapture.FormatIdempotent | src/components/LeadCaptureForm.tsx:63-66 | re-masking a masked value changes nothing, so masking on every keystroke is stable |
| LeadCapture.NomeValido | src/components/LeadCaptureForm.tsx:74 | definition: the trimmed name is non-empty and the name is at most 100 UTF-16 units long |
| LeadCapture.WhatsAppValido | src/components/LeadCaptureForm.tsx:83 | definition: the value is non-empty and has at least ten digits; its property is `AcceptedNumbers` |
| LeadCapture.EmailPattern | src/components/LeadCaptureForm.tsx:92 | definition: the regex as a split at an `@` and a later `.` into three runs of `[^\s@]`; its property is `EmailPatternIsRule` |
| LeadCapture.EmailValido | src/components/LeadCaptureForm.tsx:92 | definition: the trimmed e-mail is non-empty and the e-mail matches the pattern; its property is `EmailValidoIsRule` |
| LeadCapture.EmailPatternIsRule | src/components/LeadCaptureForm.tsx:92 | `^[^\s@]+@[^\s@]+\.[^\s@]+$` accepts exactly the strings with no white space, exactly one `@` not at the start, and a `.` after it that is neither right after the `@` nor last |
| LeadCapture.EmailValidoIsRule | src/components/LeadCaptureForm.tsx:92 | the trimmed-empty test adds nothing: the e-mail check is exactly that rule |
| LeadCapture.AcceptedNumbers | src/components/LeadCaptureForm.tsx:83 | a masked WhatsApp value passes exactly when at least ten digits were typed, and then holds 10 or 11 digits |
| LeadCapture.Validate | src/components/LeadCaptureForm.tsx:74-99 | definition: the first failing check of the chain, if any; its properties are `ValidateAccepts` and `ValidateIgnoresOptionalFields` |
| LeadCapture.ValidateAccepts | src/components/LeadCaptureForm.tsx:74-99 | a submission is accepted exactly when the name is valid, the number has at least ten digits and the e-mail follows the rule; each check fails only after the earlier ones passed |
| LeadCapture.ValidateIgnoresOptionalFields | src/components/LeadCaptureForm.tsx:74-99 | company, kind of business and bill range do not affect validation |
| LeadCapture.FormData.With | src/components/LeadCaptureForm.tsx:67 | `{ ...prev, [field]: value }` sets the field and leaves the other five as they were |
| LeadCapture.Entered | src/components/LeadCaptureForm.tsx:63-66 | definition: the WhatsApp field stores the masked value, every other field the value typed |
| LeadCapture.Report | src/components/LeadCaptureForm.tsx:74-99 | definition: a failed check shows its one toast, a passed validation none |
| LeadCapture.LeadCaptureForm.View | src/components/LeadCaptureForm.tsx:115 | definition: the confirmation card once `isSuccess` holds, the form otherwise |
| LeadCapture.LeadCaptureForm.constructor | src/components/LeadCaptureForm.tsx:45-54 | the form starts with six empty fields, both flags false, no toasts, the form on screen |
| LeadCapture.LeadCaptureForm.HandleInputChange | src/components/LeadCaptureForm.tsx:63-68 | only the edited field changes; WhatsApp stores the masked value, and other fields store the value typed |
| LeadCapture.LeadCaptureForm.HandleSubmit | src/components/LeadCaptureForm.tsx:70-101 | the first failing check adds its toast and leaves the flags unset and the accepted data as it was; otherwise submitting starts, with that form data accepted |
| LeadCapture.LeadCaptureForm.ResumeAfterDelay | src/components/LeadCaptureForm.tsx:104-112 | submitting ends, success holds, the success toast is added and the confirmation card replaces the form |
| LeadCapture.FillAndSubmit | src/components/LeadCaptureForm.tsx:63-115 | typing a valid name, a number with ten or more digits and a well-formed e-mail, then submitting, ends in success with exactly the success toast shown |

## Left out

- `Number(string)`: a parameter, not a parser; even `Number("")` = 0 is a precondition of AbsentBillReadsAsZero, not a fact of the model. What JavaScript accepts (exponents, hexadecimal, surrounding white space, `Infinity`) is not fixed.
- Number formatting (`toLocaleString`, `toFixed`) and `encodeURIComponent`: parameters, not modelled.
- IEEE-754 doubles are not modelled: arithmetic is exact, so rounding, `NaN`, infinities and `-0` do not arise. Calcular states exact identities that hold only approximately in floating point.
- `URLSearchParams`: modelled as a map from key to its first value. Percent-decoding and repeated keys are not modelled.
- Field values may hold line breaks (`%0A` in the query string; `trim` only removes them at the ends). EmpresaLine is about the template's segments, not about the lines of the joined message text, which such a value can add to.
- Utf16Length: JavaScript strings may hold unpaired surrogates, which a Dafny `char` cannot; the model covers well-formed strings only.
- React itself is not modelled: hooks, `useMemo`, re-rendering, routing, JSX markup and styling.
- The toasts' titles, descriptions and styling: a toast is recorded only by its kind.
- The 1.5-second `setTimeout`: time is not modelled. The two halves of a submission are separate method calls.
- LeadCaptureForm.HandleSubmit requires neither flag to be set. The source gives that through the disabled submit button and through the form being replaced by the confirmation card; neither the button nor the markup is modelled.
- The browser's own form validation, which runs before `onSubmit`, is not modelled: `required` on the name, WhatsApp and e-mail inputs (src/components/LeadCaptureForm.tsx:146, 168, 181) and `type="email"` (:176). Empty fields, and e-mails the regex accepts but the browser rejects such as "a@b..c", never reach `handleSubmit`; FillAndSubmit's success is stated for the handler alone.
- The `maxLength` attributes of the inputs are not modelled: they are browser-side input limits. The name check itself, `length > 100`, is modelled.
- The option lists `establishmentTypes` and `consumoRanges` are not modelled: they are display data and play no part in validation.
- The other components are not part of this model: the static sections, the footer's clock, the floating WhatsApp button and the city combobox.
