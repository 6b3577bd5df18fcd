/** `useAuthForm`: the form state shared by the sign-in, sign-up, forgot-password and
    reset-password pages, and its field validation. Form values are a string map; a key
    that is absent is JavaScript's `undefined`. */
module AuthForm {
  import opened Text

  const FULL_NAME: string := "fullName"
  const EMAIL: string := "email"
  const PHONE: string := "phone"
  const PASSWORD: string := "password"
  const CONFIRM_PASSWORD: string := "confirmPassword"

  /** `validate()` with no argument checks these. */
  const DEFAULT_FIELDS: seq<string> := [EMAIL, PASSWORD]

  // ---------------------------------------------------------------- e-mail

  /** A run of `[^\s@]`. */
  predicate NoSpaceOrAt(s: string)
  {
    forall i :: 0 <= i < |s| ==> !IsSpace(s[i]) && s[i] != '@'
  }

  /** The language of `^[^\s@]+@[^\s@]+\.[^\s@]+$`: a non-empty local part, '@', a
      non-empty run, '.', and a non-empty run, none of the three holding a space or '@'. */
  predicate EmailPattern(s: string)
  {
    exists at: nat, dot: nat ::
      0 < at && at + 1 < dot && dot + 1 < |s| && s[at] == '@' && s[dot] == '.'
      && NoSpaceOrAt(s[..at]) && NoSpaceOrAt(s[at + 1..dot]) && NoSpaceOrAt(s[dot + 1..])
  }

  /** The first '@' of `s`, if any. */
  function IndexOfAt(s: string): (r: Option<nat>)
    ensures r.Some? ==> r.value < |s| && s[r.value] == '@'
    ensures r.Some? ==> forall i :: 0 <= i < r.value ==> s[i] != '@'
    ensures r.None? ==> forall i :: 0 <= i < |s| ==> s[i] != '@'
    decreases |s|
  {
    if s == [] then None
    else if s[0] == '@' then Some(0)
    else match IndexOfAt(s[1..])
      case None => None
      case Some(k) => Some(k + 1)
  }

  /** A '.' with at least one character on either side. */
  predicate HasInnerDot(d: string)
  {
    exists j :: 0 < j < |d| - 1 && d[j] == '.'
  }

  /** `validateEmail`, as a scan: the first '@' is not at the start, nothing before it
      is a space, the rest holds no space and no second '@', and has an inner '.'. */
  predicate EmailScan(s: string)
  {
    var at := IndexOfAt(s);
    at.Some? && at.value > 0 && NoSpaceOrAt(s[..at.value])
    && NoSpaceOrAt(s[at.value + 1..]) && HasInnerDot(s[at.value + 1..])
  }

  function ValidateEmail(s: string): (b: bool)
    ensures b <==> EmailPattern(s)
  {
    ScanIffPattern(s);
    EmailScan(s)
  }

  /** The scan accepts exactly the strings the regular expression matches. */
  lemma ScanIffPattern(s: string)
    ensures EmailScan(s) <==> EmailPattern(s)
  {
    if EmailScan(s) {
      ScanGivesPattern(s);
    }
    if EmailPattern(s) {
      PatternGivesScan(s);
    }
  }

  lemma ScanGivesPattern(s: string)
    requires EmailScan(s)
    ensures EmailPattern(s)
  {
    var a := IndexOfAt(s).value;
    var d := s[a + 1..];
    var j :| 0 < j < |d| - 1 && d[j] == '.';
    var dot: nat := a + 1 + j;
    assert s[a + 1..dot] == d[..j];
    assert s[dot + 1..] == d[j + 1..];
    assert s[dot] == d[j];
    assert NoSpaceOrAt(s[a + 1..dot]);
    assert NoSpaceOrAt(s[dot + 1..]);
  }

  lemma PatternGivesScan(s: string)
    requires EmailPattern(s)
    ensures EmailScan(s)
  {
    var a: nat, dot: nat :| 0 < a && a + 1 < dot && dot + 1 < |s| && s[a] == '@' && s[dot] == '.'
      && NoSpaceOrAt(s[..a]) && NoSpaceOrAt(s[a + 1..dot]) && NoSpaceOrAt(s[dot + 1..]);
    FirstAtIs(s, a);
    var d := s[a + 1..];
    DomainClean(s, a, dot);
    assert d[dot - a - 1] == '.';
  }

  lemma FirstAtIs(s: string, a: nat)
    requires a < |s| && s[a] == '@' && NoSpaceOrAt(s[..a])
    ensures IndexOfAt(s) == Some(a)
  {
    assert forall i :: 0 <= i < a ==> s[i] == s[..a][i];
  }

  lemma DomainClean(s: string, a: nat, dot: nat)
    requires a + 1 < dot < |s| && s[dot] == '.'
    requires NoSpaceOrAt(s[a + 1..dot]) && NoSpaceOrAt(s[dot + 1..])
    ensures NoSpaceOrAt(s[a + 1..])
  {
    var d := s[a + 1..];
    forall i | 0 <= i < |d|
      ensures !IsSpace(d[i]) && d[i] != '@'
    {
      if a + 1 + i < dot {
        assert d[i] == s[a + 1..dot][i];
      } else if a + 1 + i > dot {
        assert d[i] == s[dot + 1..][i - (dot - a)];
      } else {
        assert d[i] == s[dot];
      }
    }
  }

  // ---------------------------------------------------------------- per-field checks

  function FullNameError(v: Option<string>): (e: Option<string>)
    ensures e.None? <==> Truthy(v) && |v.value| >= 3
    ensures !Truthy(v) ==> e == Some("Full name is required")
    ensures Truthy(v) && |v.value| < 3 ==> e == Some("Full name must be at least 3 characters")
  {
    if !Truthy(v) then Some("Full name is required")
    else if |v.value| < 3 then Some("Full name must be at least 3 characters")
    else None
  }

  /** The "required" message comes before the format check. */
  function EmailError(v: Option<string>): (e: Option<string>)
    ensures e.None? <==> Truthy(v) && EmailPattern(v.value)
    ensures !Truthy(v) ==> e == Some("Email is required")
    ensures Truthy(v) && !EmailPattern(v.value) ==> e == Some("Invalid email format")
  {
    if !Truthy(v) then Some("Email is required")
    else if !ValidateEmail(v.value) then Some("Invalid email format")
    else None
  }

  /** `^[0-9]{10,11}$`. */
  predicate PhonePattern(p: string)
  {
    10 <= |p| <= 11 && AllDigits(p)
  }

  function PhoneError(v: Option<string>): (e: Option<string>)
    ensures e.None? <==> Truthy(v) && PhonePattern(v.value)
    ensures !Truthy(v) ==> e == Some("Phone number is required")
    ensures Truthy(v) && !PhonePattern(v.value) ==> e == Some("Phone number must be 10-11 digits")
  {
    if !Truthy(v) then Some("Phone number is required")
    else if !PhonePattern(v.value) then Some("Phone number must be 10-11 digits")
    else None
  }

  function PasswordError(v: Option<string>): (e: Option<string>)
    ensures e.None? <==> Truthy(v) && |v.value| >= 6
    ensures !Truthy(v) ==> e == Some("Password is required")
    ensures Truthy(v) && |v.value| < 6 ==> e == Some("Password must be at least 6 characters")
  {
    if !Truthy(v) then Some("Password is required")
    else if |v.value| < 6 then Some("Password must be at least 6 characters")
    else None
  }

  /** `formData.password !== formData.confirmPassword`: an absent password differs from
      every confirmation. */
  function ConfirmError(password: Option<string>, confirm: Option<string>): (e: Option<string>)
    ensures e.None? <==> Truthy(confirm) && password == confirm
    ensures !Truthy(confirm) ==> e == Some("Confirm password is required")
    ensures Truthy(confirm) && password != confirm ==> e == Some("Passwords do not match")
  {
    if !Truthy(confirm) then Some("Confirm password is required")
    else if password != confirm then Some("Passwords do not match")
    else None
  }

  /** One `if (fields.includes(field))` block of `validate`: the field it guards and the
      message its checks produce, if any. */
  datatype Check = Check(field: string, error: Option<string>)

  /** The five blocks of `validate`, in the source's order. */
  function Checks(data: map<string, string>): (cs: seq<Check>)
    ensures |cs| == 5
    ensures cs[0] == Check(FULL_NAME, FullNameError(Get(data, FULL_NAME)))
    ensures cs[1] == Check(EMAIL, EmailError(Get(data, EMAIL)))
    ensures cs[2] == Check(PHONE, PhoneError(Get(data, PHONE)))
    ensures cs[3] == Check(PASSWORD, PasswordError(Get(data, PASSWORD)))
    ensures cs[4] == Check(CONFIRM_PASSWORD, ConfirmError(Get(data, PASSWORD), Get(data, CONFIRM_PASSWORD)))
  {
    [Check(FULL_NAME, FullNameError(Get(data, FULL_NAME))),
     Check(EMAIL, EmailError(Get(data, EMAIL))),
     Check(PHONE, PhoneError(Get(data, PHONE))),
     Check(PASSWORD, PasswordError(Get(data, PASSWORD))),
     Check(CONFIRM_PASSWORD, ConfirmError(Get(data, PASSWORD), Get(data, CONFIRM_PASSWORD)))]
  }

  predicate DistinctFields(cs: seq<Check>)
  {
    forall i, j :: 0 <= i < j < |cs| ==> cs[i].field != cs[j].field
  }

  /** The five field names are different strings. */
  lemma ChecksDistinct(data: map<string, string>)
    ensures DistinctFields(Checks(data))
  {
    var cs := Checks(data);
    assert cs[0].field[0] == 'f' && cs[1].field[0] == 'e' && cs[2].field[0] == 'p';
    assert cs[3].field[0] == 'p' && cs[4].field[0] == 'c';
    assert cs[2].field[1] == 'h' && cs[3].field[1] == 'a';
  }

  /** What one block does to `newErrors`: a listed field whose check fails gets the
      check's message. */
  function Recorded(newErrors: map<string, string>, fields: seq<string>, c: Check): map<string, string>
  {
    if c.field in fields && c.error.Some? then newErrors[c.field := c.error.value] else newErrors
  }

  /** Running the blocks `cs` in order into an initially empty `newErrors`. */
  function Collect(cs: seq<Check>, fields: seq<string>): map<string, string>
    decreases |cs|
  {
    if cs == [] then map[] else Recorded(Collect(cs[..|cs| - 1], fields), fields, cs[|cs| - 1])
  }

  /** Running one more block. */
  lemma CollectStep(cs: seq<Check>, fields: seq<string>, k: nat)
    requires k < |cs|
    ensures Collect(cs[..k + 1], fields) == Recorded(Collect(cs[..k], fields), fields, cs[k])
  {
    assert cs[..k + 1][..k] == cs[..k];
  }

  /** The five blocks of `validate`, one after the other. */
  lemma CollectFive(cs: seq<Check>, fields: seq<string>)
    requires |cs| == 5
    ensures Collect(cs, fields) ==
            Recorded(Recorded(Recorded(Recorded(Recorded(map[], fields, cs[0]), fields, cs[1]), fields, cs[2]),
                              fields, cs[3]), fields, cs[4])
  {
    assert cs[..0] == [];
    CollectStep(cs, fields, 0);
    CollectStep(cs, fields, 1);
    CollectStep(cs, fields, 2);
    CollectStep(cs, fields, 3);
    CollectStep(cs, fields, 4);
    assert cs[..5] == cs;
  }

  /** With distinct fields, a name has an entry exactly when its block is listed and
      fails, and the entry is that block's message. */
  lemma {:induction false} CollectSpec(cs: seq<Check>, fields: seq<string>, k: nat)
    requires DistinctFields(cs) && k < |cs|
    ensures cs[k].field in Collect(cs, fields) <==> cs[k].field in fields && cs[k].error.Some?
    ensures cs[k].field in Collect(cs, fields) ==> Collect(cs, fields)[cs[k].field] == cs[k].error.value
    decreases |cs|
  {
    var init := cs[..|cs| - 1];
    if k < |cs| - 1 {
      assert init[k] == cs[k];
      assert DistinctFields(init);
      assert cs[|cs| - 1].field != cs[k].field;
      CollectSpec(init, fields, k);
    } else {
      forall i | 0 <= i < |init|
        ensures init[i].field != cs[k].field
      {
        assert init[i] == cs[i];
      }
      CollectOnlyFields(init, fields, cs[k].field);
    }
  }

  /** No name outside the blocks ever gets an entry. */
  lemma {:induction false} CollectOnlyFields(cs: seq<Check>, fields: seq<string>, f: string)
    requires forall i :: 0 <= i < |cs| ==> cs[i].field != f
    ensures f !in Collect(cs, fields)
    decreases |cs|
  {
    if cs != [] {
      CollectOnlyFields(cs[..|cs| - 1], fields, f);
    }
  }

  /** The error map `validate(fields)` builds. */
  function Errors(data: map<string, string>, fields: seq<string>): map<string, string>
  {
    Collect(Checks(data), fields)
  }

  /** The check of field number k in the source's order. */
  lemma ErrorsSpec(data: map<string, string>, fields: seq<string>, k: nat)
    requires k < 5
    ensures var c := Checks(data)[k];
            (c.field in Errors(data, fields) <==> c.field in fields && c.error.Some?)
            && (c.field in Errors(data, fields) ==> Errors(data, fields)[c.field] == c.error.value)
  {
    ChecksDistinct(data);
    CollectSpec(Checks(data), fields, k);
  }

  /** A name that is not one of the five never gets an error. */
  lemma UnknownFieldNoError(data: map<string, string>, fields: seq<string>, f: string)
    requires f != FULL_NAME && f != EMAIL && f != PHONE && f != PASSWORD && f != CONFIRM_PASSWORD
    ensures f !in Errors(data, fields)
  {
    CollectOnlyFields(Checks(data), fields, f);
  }

  /** A field left out of `fields` never gets an error, whatever its value. */
  lemma {:induction false} UnlistedFieldNoError(cs: seq<Check>, fields: seq<string>, f: string)
    requires f !in fields
    ensures f !in Collect(cs, fields)
    decreases |cs|
  {
    if cs != [] {
      UnlistedFieldNoError(cs[..|cs| - 1], fields, f);
    }
  }

  /** Validation passes exactly when no listed block fails. */
  lemma ValidIffListedChecksPass(data: map<string, string>, fields: seq<string>)
    ensures Errors(data, fields) == map[] <==>
            forall k :: 0 <= k < 5 && Checks(data)[k].field in fields ==> Checks(data)[k].error.None?
  {
    var cs := Checks(data);
    if Errors(data, fields) == map[] {
      forall k | 0 <= k < 5 && cs[k].field in fields
        ensures cs[k].error.None?
      {
        ErrorsSpec(data, fields, k);
      }
    } else {
      var f :| f in Errors(data, fields);
      if f == FULL_NAME { ErrorsSpec(data, fields, 0); }
      else if f == EMAIL { ErrorsSpec(data, fields, 1); }
      else if f == PHONE { ErrorsSpec(data, fields, 2); }
      else if f == PASSWORD { ErrorsSpec(data, fields, 3); }
      else if f == CONFIRM_PASSWORD { ErrorsSpec(data, fields, 4); }
      else { UnknownFieldNoError(data, fields, f); }
    }
  }

  /** With the default list, only the e-mail and password can be reported. */
  lemma DefaultChecksEmailAndPassword(data: map<string, string>)
    ensures FULL_NAME !in Errors(data, DEFAULT_FIELDS)
    ensures PHONE !in Errors(data, DEFAULT_FIELDS)
    ensures CONFIRM_PASSWORD !in Errors(data, DEFAULT_FIELDS)
  {
    ChecksDistinct(data);
    var cs := Checks(data);
    assert FULL_NAME !in DEFAULT_FIELDS by { assert cs[0].field != cs[1].field && cs[0].field != cs[3].field; }
    assert PHONE !in DEFAULT_FIELDS by { assert cs[2].field != cs[1].field && cs[2].field != cs[3].field; }
    assert CONFIRM_PASSWORD !in DEFAULT_FIELDS by { assert cs[4].field != cs[1].field && cs[4].field != cs[3].field; }
    UnlistedFieldNoError(cs, DEFAULT_FIELDS, FULL_NAME);
    UnlistedFieldNoError(cs, DEFAULT_FIELDS, PHONE);
    UnlistedFieldNoError(cs, DEFAULT_FIELDS, CONFIRM_PASSWORD);
  }

  /** A confirmation equal to a password of six characters or more passes both checks. */
  lemma MatchingPasswordsPass(data: map<string, string>, p: string)
    requires Get(data, PASSWORD) == Some(p) && Get(data, CONFIRM_PASSWORD) == Some(p) && |p| >= 6
    ensures PASSWORD !in Errors(data, [PASSWORD, CONFIRM_PASSWORD])
    ensures CONFIRM_PASSWORD !in Errors(data, [PASSWORD, CONFIRM_PASSWORD])
  {
    ErrorsSpec(data, [PASSWORD, CONFIRM_PASSWORD], 3);
    ErrorsSpec(data, [PASSWORD, CONFIRM_PASSWORD], 4);
  }

  /** One block of `validate`: when the block's field is listed and its check fails,
      the check's message is recorded under that field. */
  method Record(newErrors: map<string, string>, fields: seq<string>, c: Check) returns (r: map<string, string>)
    ensures r == Recorded(newErrors, fields, c)
  {
    r := newErrors;
    if c.field in fields {
      if c.error.Some? {
        r := r[c.field := c.error.value];
      }
    }
  }

  /** The hook's state. `navigations` records `navigate` calls; `pendingRedirect` is the
      target of the simulated request's `setTimeout`. */
  class AuthFormState {
    var formData: map<string, string>
    var errors: map<string, string>
    var loading: bool
    var pendingRedirect: Option<string>
    var navigations: seq<string>

    /** `{ email: '', password: '', ...initialValues }`. */
    constructor (initialValues: map<string, string>)
      ensures formData == map[EMAIL := "", PASSWORD := ""] + initialValues
      ensures errors == map[] && !loading && pendingRedirect.None? && navigations == []
    {
      formData := map[EMAIL := "", PASSWORD := ""] + initialValues;
      errors := map[];
      loading := false;
      pendingRedirect := None;
      navigations := [];
    }

    /** `handleChange`: the named field takes the value; a truthy error on that field is
        blanked; nothing else changes. */
    method HandleChange(name: string, value: string)
      modifies this`formData, this`errors
      ensures formData == old(formData)[name := value]
      ensures name in old(errors) && old(errors)[name] != "" ==> errors == old(errors)[name := ""]
      ensures !(name in old(errors) && old(errors)[name] != "") ==> errors == old(errors)
    {
      formData := formData[name := value];
      if name in errors && errors[name] != "" {
        errors := errors[name := ""];
      }
    }

    /** `validate(fields = ['email', 'password'])`: the blocks run in the source's order,
        each adding at most one message (the `if`/`else if` chain of its field function);
        the result replaces the old errors entirely. */
    method Validate(fields: Option<seq<string>>) returns (ok: bool)
      modifies this`errors
      ensures errors == Errors(formData, if fields.Some? then fields.value else DEFAULT_FIELDS)
      ensures ok <==> errors == map[]
    {
      var fs := if fields.Some? then fields.value else DEFAULT_FIELDS;
      var cs := Checks(formData);
      var newErrors: map<string, string> := map[];
      newErrors := Record(newErrors, fs, cs[0]);
      newErrors := Record(newErrors, fs, cs[1]);
      newErrors := Record(newErrors, fs, cs[2]);
      newErrors := Record(newErrors, fs, cs[3]);
      newErrors := Record(newErrors, fs, cs[4]);
      CollectFive(cs, fs);
      errors := newErrors;
      ok := |newErrors| == 0;
      assert ok <==> newErrors == map[] by {
        if |newErrors| != 0 {
          var f :| f in newErrors.Keys;
        }
      }
    }

    /** `handleSubmit(e, redirectTo = '/', validationFields)`: a failed validation only sets
        the errors; a passing one starts loading and schedules the redirect. */
    method HandleSubmit(redirectTo: Option<string>, validationFields: Option<seq<string>>)
      modifies this`errors, this`loading, this`pendingRedirect
      ensures errors == Errors(formData, if validationFields.Some? then validationFields.value else DEFAULT_FIELDS)
      ensures errors != map[] ==> loading == old(loading) && pendingRedirect == old(pendingRedirect)
      ensures errors == map[] ==>
                loading && pendingRedirect == Some(if redirectTo.Some? then redirectTo.value else "/")
    {
      var ok := Validate(validationFields);
      if !ok {
        return;
      }
      loading := true;
      pendingRedirect := Some(if redirectTo.Some? then redirectTo.value else "/");
    }

    /** The simulated request's `setTimeout` firing: loading ends and the page navigates. */
    method FinishSubmit()
      modifies this`loading, this`pendingRedirect, this`navigations
      ensures old(pendingRedirect).Some? ==>
                !loading && navigations == old(navigations) + [old(pendingRedirect).value]
                && pendingRedirect.None?
      ensures old(pendingRedirect).None? ==>
                loading == old(loading) && navigations == old(navigations) && pendingRedirect.None?
    {
      if pendingRedirect.Some? {
        loading := false;
        navigations := navigations + [pendingRedirect.value];
        pendingRedirect := None;
      }
    }
  }
}
