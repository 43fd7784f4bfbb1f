/**
 * The lead-capture form of the landing page ("Calcule sua Economia"): the
 * WhatsApp number is reformatted on every keystroke, and submitting runs
 * three checks in order (name, WhatsApp, e-mail) before the form moves from
 * idle to submitting to success.
 *
 * Toasts are recorded in the order they are shown; the 1.5-second delay
 * that stands in for the API call splits a submission into `HandleSubmit`
 * (up to the `await`) and `ResumeAfterDelay` (after it).
 */
module LeadCapture {
  import opened Wrappers
  import opened Text

  // ---------------------------------------------------------------------------
  // WhatsApp formatting

  /** `numbers`: the digits of the typed value, at most eleven of them. */
  function KeptDigits(value: string): (d: string)
    ensures AllDigits(d) && |d| <= 11
    ensures |d| == if |Digits(value)| <= 11 then |Digits(value)| else 11
    ensures d == Digits(value)[..|d|]
  {
    var numbers := Digits(value);
    if |numbers| <= 11 then numbers else numbers[..11]
  }

  /** The mask `(DD) DDDDD-DDDD`, filled as far as there are digits. */
  function Layout(numbers: string): string
    requires |numbers| <= 11
  {
    if |numbers| <= 2 then numbers
    else if |numbers| <= 7 then "(" + numbers[..2] + ") " + numbers[2..]
    else "(" + numbers[..2] + ") " + numbers[2..7] + "-" + numbers[7..]
  }

  /** `formatWhatsApp`. */
  function FormatWhatsApp(value: string): string {
    Layout(KeptDigits(value))
  }

  /** The characters the mask adds around the digits. */
  predicate IsMaskChar(c: char) {
    c == '(' || c == ')' || c == ' ' || c == '-'
  }

  /** The mask adds no digits: reading the digits of the layout gives them back. */
  lemma {:induction false} DigitsOfLayout(numbers: string)
    requires AllDigits(numbers) && |numbers| <= 11
    ensures Digits(Layout(numbers)) == numbers
  {
    var n := numbers;
    if |n| <= 2 {
      DigitsOfDigits(n);
    } else {
      var s1 := "(" + n[..2];
      DigitsOfPiece([], "(", n[..2]);
      assert [] + "(" + n[..2] == s1;
      assert Digits(s1) == n[..2];
      if |n| <= 7 {
        DigitsOfPiece(s1, ") ", n[2..]);
        assert Layout(n) == s1 + ") " + n[2..];
        assert n[..2] + n[2..] == n;
      } else {
        var s2 := s1 + ") " + n[2..7];
        DigitsOfPiece(s1, ") ", n[2..7]);
        DigitsOfPiece(s2, "-", n[7..]);
        assert Layout(n) == s2 + "-" + n[7..];
        assert n[..2] + n[2..7] + n[7..] == n;
      }
    }
  }

  /** Appending a piece of mask and then a run of digits adds exactly those digits. */
  lemma DigitsOfPiece(acc: string, mask: string, run: string)
    requires forall k :: 0 <= k < |mask| ==> IsMaskChar(mask[k])
    requires AllDigits(run)
    ensures Digits(acc + mask + run) == Digits(acc) + run
  {
    DigitsAppend(acc + mask, run);
    DigitsAppend(acc, mask);
    DigitsOfNonDigits(mask);
    DigitsOfDigits(run);
    assert Digits(acc + mask) == Digits(acc) + [];
    assert Digits(acc) + [] == Digits(acc);
  }

  /**
   * The digits of the formatted value, read in order, are exactly the first
   * eleven digits of the typed value (all of them when there are fewer); every
   * other character of the output is one of the mask's `(`, `)`, space, `-`.
   */
  lemma FormatKeepsDigits(value: string)
    ensures Digits(FormatWhatsApp(value)) == KeptDigits(value)
    ensures var r := FormatWhatsApp(value);
      forall k :: 0 <= k < |r| ==> IsDigit(r[k]) || IsMaskChar(r[k])
  {
    DigitsOfLayout(KeptDigits(value));
  }

  /** The three shapes of the output, by the number of digits kept. */
  lemma FormatShape(value: string)
    ensures var d := KeptDigits(value);
      var r := FormatWhatsApp(value);
      (|d| <= 2 ==> r == d) &&
      (3 <= |d| <= 7 ==> r == "(" + d[..2] + ") " + d[2..] && |r| == |d| + 3) &&
      (8 <= |d| ==> r == "(" + d[..2] + ") " + d[2..7] + "-" + d[7..] && |r| == |d| + 4)
  {
  }

  /**
   * Reformatting a formatted value changes nothing, so re-applying the mask
   * on every keystroke is stable.
   */
  lemma FormatIdempotent(value: string)
    ensures FormatWhatsApp(FormatWhatsApp(value)) == FormatWhatsApp(value)
  {
    var d := KeptDigits(value);
    FormatKeepsDigits(value);
    assert KeptDigits(FormatWhatsApp(value)) == d;
  }

  // ---------------------------------------------------------------------------
  // Validation

  /** The name, trimmed, is not empty, and the name as typed is at most 100 long. */
  predicate NomeValido(nome: string) {
    Trim(nome) != [] && Utf16Length(nome) <= 100
  }

  /** The WhatsApp value is not empty and has at least ten digits. */
  predicate WhatsAppValido(whatsapp: string) {
    whatsapp != [] && |Digits(whatsapp)| >= 10
  }

  /** A character of the class `[^\s@]`. */
  predicate EmailChar(c: char) {
    !IsWhitespace(c) && c != '@'
  }

  /** A match of `[^\s@]+`. */
  predicate EmailRun(s: string) {
    s != [] && forall k :: 0 <= k < |s| ==> EmailChar(s[k])
  }

  /**
   * `e` matches `[^\s@]+@[^\s@]+\.[^\s@]+` with its `@` at position `i` and
   * the escaped `.` at position `j`.
   */
  predicate PatternSplit(e: string, i: int, j: int) {
    0 <= i < j < |e| && EmailRun(e[..i]) && e[i] == '@'
    && EmailRun(e[i + 1..j]) && e[j] == '.' && EmailRun(e[j + 1..])
  }

  /** The whole string matches `^[^\s@]+@[^\s@]+\.[^\s@]+$`. */
  predicate EmailPattern(e: string) {
    exists i, j | 0 <= i < j < |e| :: PatternSplit(e, i, j)
  }

  /**
   * The e-mail rule in words: no white space, exactly one `@`, something
   * before it, and after it a `.` that is neither the first nor the last
   * character of the domain.
   */
  ghost predicate EmailRule(e: string) {
    && (forall k :: 0 <= k < |e| ==> !IsWhitespace(e[k]))
    && (exists i :: 0 < i < |e| && e[i] == '@'
          && (forall k :: 0 <= k < |e| && k != i ==> e[k] != '@')
          && (exists j :: i + 1 < j < |e| - 1 && e[j] == '.'))
  }

  /** The pattern and the rule in words accept the same strings. */
  lemma EmailPatternIsRule(e: string)
    ensures EmailPattern(e) <==> EmailRule(e)
  {
    if EmailPattern(e) {
      var i, j :| 0 <= i < j < |e| && PatternSplit(e, i, j);
      forall k | 0 <= k < |e| && k != i ensures EmailChar(e[k]) {
        if k < i {
          assert e[k] == e[..i][k];
        } else if k < j {
          assert e[k] == e[i + 1..j][k - i - 1];
        } else if k > j {
          assert e[k] == e[j + 1..][k - j - 1];
        }
      }
      assert EmailRule(e);
    }
    if EmailRule(e) {
      var i :| 0 < i < |e| && e[i] == '@'
        && (forall k :: 0 <= k < |e| && k != i ==> e[k] != '@')
        && exists j :: i + 1 < j < |e| - 1 && e[j] == '.';
      var j :| i + 1 < j < |e| - 1 && e[j] == '.';
      assert EmailRun(e[..i]);
      assert EmailRun(e[i + 1..j]);
      assert EmailRun(e[j + 1..]);
      assert PatternSplit(e, i, j);
    }
  }

  /** The e-mail, trimmed, is not empty, and it matches the pattern. */
  predicate EmailValido(email: string) {
    Trim(email) != [] && EmailPattern(email)
  }

  /** The trimmed-empty test adds nothing to the pattern: the rule in words decides. */
  lemma EmailValidoIsRule(email: string)
    ensures EmailValido(email) <==> EmailRule(email)
  {
    EmailPatternIsRule(email);
    if EmailRule(email) {
      assert !IsWhitespace(email[0]);
    }
  }

  /**
   * A WhatsApp value the mask produced passes its check exactly when at least
   * ten digits were typed, and then it holds ten or eleven digits.
   */
  lemma AcceptedNumbers(value: string)
    ensures WhatsAppValido(FormatWhatsApp(value)) <==> |Digits(value)| >= 10
    ensures WhatsAppValido(FormatWhatsApp(value)) ==> 10 <= |Digits(FormatWhatsApp(value))| <= 11
  {
    FormatKeepsDigits(value);
  }

  // ---------------------------------------------------------------------------
  // Form data

  datatype Field = Nome | Empresa | WhatsApp | Email | TipoEstabelecimento | ConsumoMensal

  /** `FormData`: the six text fields of the form. */
  datatype FormData = FormData(
    nome: string,
    empresa: string,
    whatsapp: string,
    email: string,
    tipoEstabelecimento: string,
    consumoMensal: string)
  {
    function Get(f: Field): string {
      match f
      case Nome => nome
      case Empresa => empresa
      case WhatsApp => whatsapp
      case Email => email
      case TipoEstabelecimento => tipoEstabelecimento
      case ConsumoMensal => consumoMensal
    }

    /** `{ ...prev, [field]: value }`: field `f` becomes `v`, the others stay. */
    function With(f: Field, v: string): (r: FormData)
      ensures r.Get(f) == v
      ensures forall g :: g != f ==> r.Get(g) == Get(g)
    {
      match f
      case Nome => this.(nome := v)
      case Empresa => this.(empresa := v)
      case WhatsApp => this.(whatsapp := v)
      case Email => this.(email := v)
      case TipoEstabelecimento => this.(tipoEstabelecimento := v)
      case ConsumoMensal => this.(consumoMensal := v)
    }
  }

  const EmptyForm: FormData := FormData("", "", "", "", "", "")

  /** The value stored for field `f` when `v` is typed into it. */
  function Entered(f: Field, v: string): string {
    if f == WhatsApp then FormatWhatsApp(v) else v
  }

  datatype Check = NomeInvalido | WhatsAppInvalido | EmailInvalido

  /** The validation chain of `handleSubmit`: the first failing check, if any. */
  function Validate(f: FormData): Option<Check>
  {
    if !NomeValido(f.nome) then Some(NomeInvalido)
    else if !WhatsAppValido(f.whatsapp) then Some(WhatsAppInvalido)
    else if !EmailValido(f.email) then Some(EmailInvalido)
    else None
  }

  /**
   * A submission is accepted exactly when the name is valid, the WhatsApp
   * value holds at least ten digits and the e-mail follows the rule in words;
   * each check is reported only once the checks before it have passed.
   */
  lemma ValidateAccepts(f: FormData)
    ensures Validate(f) == None <==>
      NomeValido(f.nome) && |Digits(f.whatsapp)| >= 10 && EmailRule(f.email)
    ensures Validate(f) == Some(WhatsAppInvalido) ==> NomeValido(f.nome)
    ensures Validate(f) == Some(EmailInvalido) ==>
      NomeValido(f.nome) && WhatsAppValido(f.whatsapp) && !EmailRule(f.email)
  {
    EmailValidoIsRule(f.email);
  }

  /** Company, kind of business and bill range play no part in validation. */
  lemma ValidateIgnoresOptionalFields(f: FormData, g: Field, v: string)
    requires g == Empresa || g == TipoEstabelecimento || g == ConsumoMensal
    ensures Validate(f.With(g, v)) == Validate(f)
  {
    assert f.With(g, v).Get(Nome) == f.nome;
    assert f.With(g, v).Get(WhatsApp) == f.whatsapp;
    assert f.With(g, v).Get(Email) == f.email;
  }

  /** A toast shown to the visitor. */
  datatype Toast = Invalid(check: Check) | Sent

  /** The toast a validation outcome shows: none when every check passed. */
  function Report(outcome: Option<Check>): seq<Toast> {
    match outcome
    case None => []
    case Some(c) => [Invalid(c)]
  }

  /** What the component renders. */
  datatype Screen = FormScreen | SuccessScreen

  // ---------------------------------------------------------------------------
  // The component's state

  class LeadCaptureForm {
    var formData: FormData
    var isSubmitting: bool
    var isSuccess: bool
    /** Toasts shown so far, oldest first. */
    var toasts: seq<Toast>
    /** The form data that passed validation in the latest submission. */
    ghost var accepted: FormData

    /**
     * Submitting and success never hold together, and either one means the
     * form data of the latest submission passed all three checks.
     */
    ghost predicate Valid()
      reads this
    {
      !(isSubmitting && isSuccess) && ((isSubmitting || isSuccess) ==> Validate(accepted) == None)
    }

    /** The form is replaced by the confirmation card once it succeeded. */
    function View(): Screen
      reads this
    {
      if isSuccess then SuccessScreen else FormScreen
    }

    constructor ()
      ensures Valid()
      ensures formData == EmptyForm && !isSubmitting && !isSuccess && toasts == []
      ensures View() == FormScreen
    {
      formData := EmptyForm;
      isSubmitting := false;
      isSuccess := false;
      toasts := [];
      accepted := EmptyForm;
    }

    /** `handleInputChange(field, value)`: only `field` changes; WhatsApp gets the mask. */
    method HandleInputChange(field: Field, value: string)
      requires Valid()
      modifies this`formData
      ensures Valid()
      ensures formData == old(formData).With(field, Entered(field, value))
      ensures formData.Get(field) == Entered(field, value)
      ensures forall g :: g != field ==> formData.Get(g) == old(formData).Get(g)
    {
      var v := value;
      if field == WhatsApp {
        v := FormatWhatsApp(v);
      }
      formData := formData.With(field, v);
    }

    /**
     * `handleSubmit` up to the `await`: the first failing check shows its
     * toast and leaves both flags as they were; otherwise the form starts
     * submitting. The form is only on screen, and its button only enabled,
     * while neither flag is set.
     */
    method HandleSubmit()
      requires Valid() && !isSubmitting && !isSuccess
      modifies this`isSubmitting, this`toasts, this`accepted
      ensures Valid() && !isSuccess
      ensures isSubmitting <==> Validate(formData) == None
      ensures toasts == old(toasts) + Report(Validate(formData))
      ensures isSubmitting ==> accepted == formData
      ensures !isSubmitting ==> accepted == old(accepted)
    {
      if !NomeValido(formData.nome) {
        toasts := toasts + [Invalid(NomeInvalido)];
        return;
      }
      if !WhatsAppValido(formData.whatsapp) {
        toasts := toasts + [Invalid(WhatsAppInvalido)];
        return;
      }
      if !EmailValido(formData.email) {
        toasts := toasts + [Invalid(EmailInvalido)];
        return;
      }
      isSubmitting := true;
      accepted := formData;
    }

    /**
     * `handleSubmit` after the delay: submitting ends, success begins, the
     * confirmation toast is shown and the form leaves the screen.
     */
    method ResumeAfterDelay()
      requires Valid() && isSubmitting
      modifies this`isSubmitting, this`isSuccess, this`toasts
      ensures Valid()
      ensures !isSubmitting && isSuccess && View() == SuccessScreen
      ensures toasts == old(toasts) + [Sent]
      ensures Validate(accepted) == None
    {
      isSubmitting := false;
      isSuccess := true;
      toasts := toasts + [Sent];
    }
  }

  /**
   * A visitor who types a valid name, a number with at least ten digits and a
   * well-formed e-mail, then submits, ends on the confirmation screen.
   */
  method FillAndSubmit(nome: string, whatsapp: string, email: string) returns (form: LeadCaptureForm)
    requires NomeValido(nome) && |Digits(whatsapp)| >= 10 && EmailRule(email)
    ensures fresh(form) && form.Valid()
    ensures form.isSuccess && !form.isSubmitting && form.toasts == [Sent]
    ensures form.formData.whatsapp == FormatWhatsApp(whatsapp)
  {
    form := new LeadCaptureForm();
    form.HandleInputChange(Nome, nome);
    form.HandleInputChange(WhatsApp, whatsapp);
    form.HandleInputChange(Email, email);
    AcceptedNumbers(whatsapp);
    EmailValidoIsRule(email);
    form.HandleSubmit();
    form.ResumeAfterDelay();
  }
}
