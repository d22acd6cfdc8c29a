/**
 * The sign-up form: the schema its resolver enforces (nickname length, an
 * e-mail, a password matching a complexity pattern, a confirmation of at
 * least eight characters that equals the password), the live checklist shown
 * under the password, and the state the submit handler steps through.
 */
module Registro {
  import opened Wrappers
  import Schema

  datatype RegistroProps = RegistroProps(nickName: string, email: string, password: string, passwordConfirm: string)

  const Blank: RegistroProps := RegistroProps("", "", "", "")

  /** The character classes the pattern and the checklist use. */
  datatype CharClass = Digit | Special | Letter

  predicate InClass(c: char, k: CharClass)
  {
    match k
    case Digit => '0' <= c <= '9'
    case Special => c in "!@#$%^&*()?"
    case Letter => 'a' <= c <= 'z' || 'A' <= c <= 'Z'
  }

  /** The characters a JavaScript `.` does not match. */
  predicate IsLineTerminator(c: char)
  {
    c == '\n' || c == '\r' || c == '\U{2028}' || c == '\U{2029}'
  }

  predicate NoLineTerminator(s: string)
  {
    forall i | 0 <= i < |s| :: !IsLineTerminator(s[i])
  }

  /** `/[k]/.test(s)`: some character of `s` lies in the class. */
  predicate Contains(s: string, k: CharClass)
  {
    exists i | 0 <= i < |s| :: InClass(s[i], k)
  }

  /** `(?=.*[k])` at the start of `s`: a character of the class after a run of non-terminators. */
  predicate LookaheadAnyThen(s: string, k: CharClass)
  {
    if s == [] then false
    else InClass(s[0], k) || (!IsLineTerminator(s[0]) && LookaheadAnyThen(s[1..], k))
  }

  /** `.{n,}$` at the start of `s`: at least `n` non-terminators and then the end of the input. */
  predicate AnyAtLeastToEnd(s: string, n: nat)
  {
    if s == [] then n == 0
    else !IsLineTerminator(s[0]) && AnyAtLeastToEnd(s[1..], if n == 0 then 0 else n - 1)
  }

  /** `/^(?=.*[0-9])(?=.*[!@#$%^&*()?]).{8,}$/.test(s)`, without the `m` flag. */
  function PasswordPattern(s: string): (r: bool)
    ensures r ==> |s| >= 8 && NoLineTerminator(s) && Contains(s, Digit) && Contains(s, Special)
  {
    AnyAtLeastToEndMeaning(s, 8);
    LookaheadMeaning(s, Digit);
    LookaheadMeaning(s, Special);
    LookaheadAnyThen(s, Digit) && LookaheadAnyThen(s, Special) && AnyAtLeastToEnd(s, 8)
  }

  /** What the pattern demands, in words: eight characters, no line break, a digit and a special character. */
  predicate StrongPassword(s: string)
  {
    |s| >= 8 && NoLineTerminator(s) && Contains(s, Digit) && Contains(s, Special)
  }

  lemma {:induction false} AnyAtLeastToEndMeaning(s: string, n: nat)
    ensures AnyAtLeastToEnd(s, n) <==> |s| >= n && NoLineTerminator(s)
  {
    if s != [] {
      AnyAtLeastToEndMeaning(s[1..], if n == 0 then 0 else n - 1);
      assert NoLineTerminator(s) <==> !IsLineTerminator(s[0]) && NoLineTerminator(s[1..]) by {
        assert forall i | 1 <= i < |s| :: s[i] == s[1..][i - 1];
      }
    }
  }

  lemma {:induction false} LookaheadMeaning(s: string, k: CharClass)
    ensures LookaheadAnyThen(s, k) ==> Contains(s, k)
    ensures NoLineTerminator(s) ==> (LookaheadAnyThen(s, k) <==> Contains(s, k))
  {
    if s != [] {
      LookaheadMeaning(s[1..], k);
      assert forall i | 1 <= i < |s| :: s[i] == s[1..][i - 1];
      if Contains(s, k) && !InClass(s[0], k) {
        var i :| 0 <= i < |s| && InClass(s[i], k);
        assert InClass(s[1..][i - 1], k);
      }
      if NoLineTerminator(s) {
        assert NoLineTerminator(s[1..]);
      }
    }
  }

  /** The password pattern accepts exactly the strong passwords. */
  lemma PasswordPatternMeaning(s: string)
    ensures PasswordPattern(s) <==> StrongPassword(s)
  {
    AnyAtLeastToEndMeaning(s, 8);
    LookaheadMeaning(s, Digit);
    LookaheadMeaning(s, Special);
  }

  const NickTooShort: string := "Mínimo 4 caracteres"
  const NickTooLong: string := "Máximo 15 carácteres"
  const EmailInvalid: string := "Ingresa un e-mail valido."
  const PasswordWeak: string := "Ver requerimientos"
  const ConfirmInvalid: string := "Contraseña incorrecta"
  const Mismatch: string := "Las contraseñas no coinciden"

  predicate NickNameValid(n: string)
  {
    4 <= |n| <= 15
  }

  /** Every field rule holds; `isEmail` is the library's e-mail test. */
  predicate FieldsValid(d: RegistroProps, isEmail: string -> bool)
  {
    NickNameValid(d.nickName) && isEmail(d.email) && StrongPassword(d.password) && |d.passwordConfirm| >= 8
  }

  function NickNameIssues(n: string): (r: seq<Schema.Issue>)
    ensures r == [] <==> NickNameValid(n)
    ensures |n| < 4 ==> Schema.Rule("nickName", NickTooShort) in r
    ensures |n| > 15 ==> Schema.Rule("nickName", NickTooLong) in r
  {
    var checks := [Schema.Min(4, NickTooShort), Schema.Max(15, NickTooLong)];
    Schema.MinMaxChecks(4, NickTooShort, 15, NickTooLong);
    assert |n| < 4 ==> !Schema.Satisfies(n, checks[0]);
    assert |n| > 15 ==> !Schema.Satisfies(n, checks[1]);
    Schema.CheckIssues("nickName", n, checks)
  }

  function PasswordIssues(p: string): (r: seq<Schema.Issue>)
    ensures r == [] <==> StrongPassword(p)
    ensures r != [] ==> r == [Schema.Rule("password", PasswordWeak)]
  {
    PasswordPatternMeaning(p);
    if PasswordPattern(p) then [] else [Schema.Rule("password", PasswordWeak)]
  }

  function ConfirmIssues(c: string): (r: seq<Schema.Issue>)
    ensures r == [] <==> |c| >= 8
    ensures r != [] ==> r == [Schema.Rule("passwordConfirm", ConfirmInvalid)]
  {
    var checks := [Schema.Min(8, ConfirmInvalid)];
    assert Schema.Satisfies(c, checks[0]) <==> |c| >= 8;
    Schema.CheckIssues("passwordConfirm", c, checks)
  }

  /**
   * The issues of the sign-up schema, field by field in declaration order, followed by the
   * object-level equality refinement. The fields are always strings, so the refinement runs
   * even when a field rule fails.
   */
  function RegistroIssues(d: RegistroProps, isEmail: string -> bool): (r: seq<Schema.Issue>)
    ensures FieldsValid(d, isEmail) ==> r == if d.password == d.passwordConfirm then [] else [Schema.Rule("", Mismatch)]
    ensures r == [] <==> FieldsValid(d, isEmail) && d.password == d.passwordConfirm
  {
    NickNameIssues(d.nickName)
    + (if isEmail(d.email) then [] else [Schema.Rule("email", EmailInvalid)])
    + PasswordIssues(d.password)
    + ConfirmIssues(d.passwordConfirm)
    + (if d.password == d.passwordConfirm then [] else [Schema.Rule("", Mismatch)])
  }

  function ValidateRegistro(d: RegistroProps, isEmail: string -> bool): (r: Result<RegistroProps, seq<Schema.Issue>>)
    ensures r.Success? <==> FieldsValid(d, isEmail) && d.password == d.passwordConfirm
    ensures r.Success? ==> r.value == d
    ensures r.Failure? ==> r.error == RegistroIssues(d, isEmail) && r.error != []
    ensures FieldsValid(d, isEmail) ==> (r == Failure([Schema.Rule("", Mismatch)]) <==> d.password != d.passwordConfirm)
  {
    var issues := RegistroIssues(d, isEmail);
    if issues == [] then Success(d) else Failure(issues)
  }

  /** A short nickname, a bad e-mail and a weak password are each reported, by their own rule. */
  lemma RejectsBadFields(isEmail: string -> bool)
    requires !isEmail("bad")
    ensures var r := ValidateRegistro(RegistroProps("abc", "bad", "x", "x"), isEmail);
      r.Failure? && Schema.Rule("nickName", NickTooShort) in r.error && Schema.Rule("email", EmailInvalid) in r.error &&
      Schema.Rule("password", PasswordWeak) in r.error && Schema.Rule("passwordConfirm", ConfirmInvalid) in r.error
  {
  }

  /** A complete, matching entry with a strong password passes, whatever letters it holds. */
  lemma AcceptsGoodEntry(isEmail: string -> bool)
    requires isEmail("a@b.com")
    ensures ValidateRegistro(RegistroProps("validname", "a@b.com", "Abcdefg1!", "Abcdefg1!"), isEmail).Success?
  {
    var p := "Abcdefg1!";
    assert InClass(p[7], Digit) && InClass(p[8], Special);
    assert NoLineTerminator(p);
  }

  /** The checklist's input: `undefined` until the password field has been typed in. */
  function AsTestString(pw: Option<string>): string
  {
    if pw.Some? then pw.value else "undefined"
  }

  /** `contraseniaCheck?.length > 7`: green exactly when at least eight characters are typed. */
  function LengthItem(pw: Option<string>): (r: bool)
    ensures r <==> pw.Some? && |pw.value| >= 8
  {
    pw.Some? && |pw.value| > 7
  }

  /** This item alone guards against `undefined`, whose text would contain letters. */
  function LetterItem(pw: Option<string>): (r: bool)
    ensures r ==> pw.Some?
    ensures pw.Some? ==> (r <==> exists i | 0 <= i < |pw.value| :: InClass(pw.value[i], Letter))
  {
    pw.Some? && Contains(pw.value, Letter)
  }

  /** `/\d/.test(contraseniaCheck)`: never green before typing, as "undefined" holds no digit. */
  function DigitItem(pw: Option<string>): (r: bool)
    ensures r ==> pw.Some?
    ensures pw.Some? ==> (r <==> exists i | 0 <= i < |pw.value| :: InClass(pw.value[i], Digit))
  {
    assert pw.None? ==> forall i | 0 <= i < |AsTestString(pw)| :: !InClass(AsTestString(pw)[i], Digit);
    Contains(AsTestString(pw), Digit)
  }

  /** The special-character test: never green before typing, as "undefined" holds none of them. */
  function SpecialItem(pw: Option<string>): (r: bool)
    ensures r ==> pw.Some?
    ensures pw.Some? ==> (r <==> exists i | 0 <= i < |pw.value| :: InClass(pw.value[i], Special))
  {
    assert pw.None? ==> forall i | 0 <= i < |AsTestString(pw)| :: !InClass(AsTestString(pw)[i], Special);
    Contains(AsTestString(pw), Special)
  }

  /** Before anything is typed no item is green, although the text "undefined" holds letters. */
  lemma ChecklistBeforeTyping()
    ensures !LengthItem(None) && !LetterItem(None) && !DigitItem(None) && !SpecialItem(None)
    ensures Contains(AsTestString(None), Letter)
  {
    var u := AsTestString(None);
    assert InClass(u[0], Letter);
    assert forall i | 0 <= i < |u| :: !InClass(u[i], Digit) && !InClass(u[i], Special);
  }

  /**
   * For a typed password without line breaks, the schema accepts it exactly when the length,
   * digit and special-character items are all green.
   */
  lemma ChecklistMatchesSchema(s: string)
    requires NoLineTerminator(s)
    ensures PasswordPattern(s) <==> LengthItem(Some(s)) && DigitItem(Some(s)) && SpecialItem(Some(s))
  {
    PasswordPatternMeaning(s);
  }

  /** The letter item is not part of the schema: a password without letters passes. */
  lemma LetterItemNotRequired()
    ensures PasswordPattern("12345678!") && !LetterItem(Some("12345678!"))
  {
    var p := "12345678!";
    assert InClass(p[0], Digit) && InClass(p[8], Special);
    assert NoLineTerminator(p);
    assert forall i | 0 <= i < |p| :: !InClass(p[i], Letter);
    PasswordPatternMeaning(p);
  }

  /** How the sign-up request ended: a response with a status, an HTTP-client error carrying the response body (if any), or another error. */
  datatype SignupOutcome = Responded(status: int) | ClientError(body: Option<string>) | OtherError

  /** The component's state: the form values and the three fields the submit handler sets. */
  class RegistroForm {
    var values: RegistroProps
    var confirmEmail: bool
    var isLoading: bool
    /** `None` once the handler has stored an absent response body (`undefined`). */
    var error: Option<string>

    constructor ()
      ensures values == Blank && !confirmEmail && !isLoading && error == Some("")
    {
      values := Blank;
      confirmEmail := false;
      isLoading := false;
      error := Some("");
    }

    /** The error paragraph is rendered only for a non-empty text. */
    predicate ErrorShown()
      reads this
    {
      error.Some? && error.value != ""
    }

    /** The user types into the registered inputs. */
    method EnterValues(d: RegistroProps)
      modifies this
      ensures values == d
      ensures confirmEmail == old(confirmEmail) && isLoading == old(isLoading) && error == old(error)
    {
      values := d;
    }

    /** The handler's first two steps, before it waits for the response. */
    method BeginSubmit()
      modifies this
      ensures error == Some("") && isLoading
      ensures values == old(values) && confirmEmail == old(confirmEmail)
    {
      error := Some("");
      isLoading := true;
    }

    /** The rest of the handler, once the request has ended. A response other than 201 leaves the state as it is. */
    method FinishSubmit(outcome: SignupOutcome)
      modifies this
      ensures outcome == Responded(201) ==>
                !isLoading && confirmEmail && values == Blank && error == old(error)
      ensures outcome.Responded? && outcome.status != 201 ==>
                isLoading == old(isLoading) && confirmEmail == old(confirmEmail) && values == old(values) && error == old(error)
      ensures outcome.ClientError? ==>
                !isLoading && !confirmEmail && error == outcome.body && values == old(values)
      ensures outcome.OtherError? ==>
                !isLoading && !confirmEmail && error == old(error) && values == old(values)
    {
      match outcome
      case Responded(status) =>
        if status == 201 {
          isLoading := false;
          values := Blank;
          confirmEmail := true;
        }
      case ClientError(body) =>
        isLoading := false;
        confirmEmail := false;
        error := body;
      case OtherError =>
        isLoading := false;
        confirmEmail := false;
    }

    /** Pressing "Registrate": the handler runs only when the schema accepts the values. */
    method Submit(isEmail: string -> bool, outcome: SignupOutcome)
      modifies this
      ensures ValidateRegistro(old(values), isEmail).Failure? ==>
                values == old(values) && confirmEmail == old(confirmEmail) && isLoading == old(isLoading) && error == old(error)
      ensures ValidateRegistro(old(values), isEmail).Success? ==>
                (isLoading <==> outcome.Responded? && outcome.status != 201) &&
                (outcome == Responded(201) ==> confirmEmail && values == Blank) &&
                (outcome.Responded? && outcome.status != 201 ==> confirmEmail == old(confirmEmail) && values == old(values)) &&
                (!outcome.Responded? ==> !confirmEmail && values == old(values)) &&
                (error == if outcome.ClientError? then outcome.body else Some("")) &&
                (ErrorShown() <==> outcome.ClientError? && outcome.body.Some? && outcome.body.value != "")
    {
      var parsed := ValidateRegistro(values, isEmail);
      if parsed.Success? {
        BeginSubmit();
        FinishSubmit(outcome);
      }
    }
  }
}
