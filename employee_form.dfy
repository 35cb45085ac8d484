/**
 * The employee details form: the validator, with the meaning of its two
 * regular expressions spelled out character by character, the choice of the
 * employee number when the form opens, and the component state (field values,
 * touched flags, and the forms handed to `onSave`). The `errors` state is the
 * derived value `Validate(form)`.
 */
module EmployeeForm {
  import opened Js
  import Decimal

  /** The form's values, field name to text; a field that is absent reads as "". */
  type Form = map<string, string>

  function Field(values: Form, name: string): string
  {
    if name in values then values[name] else ""
  }

  /** The initial `useState` value: thirteen fields, all empty. */
  const EmptyForm: Form := map[
    "empNo" := "", "name" := "", "email" := "", "phone" := "", "address" := "",
    "department" := "", "designation" := "", "joiningDate" := "", "role" := "",
    "dob" := "", "gender" := "", "manager" := "", "location" := ""
  ]

  /** The eleven validated fields and the message each gets when it is empty; `address` and `empNo` are not validated. */
  const RequiredMessages: map<string, string> := map[
    "name" := "Required", "email" := "Required", "phone" := "Required",
    "department" := "Select department", "designation" := "Select designation",
    "joiningDate" := "Required", "role" := "Required", "dob" := "Required",
    "gender" := "Select", "manager" := "Required", "location" := "Select"
  ]

  const InvalidEmail := "Invalid email format"
  const InvalidPhone := "Enter valid phone number"

  // ---------------------------------------------------------------- E-mail

  /** `[^\s@]+`: one or more characters, none of them white space or `@`. */
  predicate EmailAtom(t: string)
  {
    |t| > 0 && forall k :: 0 <= k < |t| ==> !IsWhitespace(t[k]) && t[k] != '@'
  }

  /**
   * `^[^\s@]+@[^\s@]+\.[^\s@]+$` matches: some `@` and some later `.` split the
   * text into three atoms.
   */
  predicate EmailRegexMatches(s: string)
  {
    exists i, j :: 0 <= i < j < |s| && s[i] == '@' && s[j] == '.'
      && EmailAtom(s[..i]) && EmailAtom(s[i + 1..j]) && EmailAtom(s[j + 1..])
  }

  predicate NoWhitespace(s: string)
  {
    forall k :: 0 <= k < |s| ==> !IsWhitespace(s[k])
  }

  /** Position `i` holds the text's only `@`. */
  predicate OnlyAtSignAt(s: string, i: int)
  {
    0 <= i < |s| && s[i] == '@' && forall k :: 0 <= k < |s| && s[k] == '@' ==> k == i
  }

  /**
   * The e-mail shape the form accepts: no white space, exactly one `@` with
   * text before it, and a `.` in the domain with text on both sides of it.
   */
  predicate EmailShape(s: string)
  {
    NoWhitespace(s) &&
    exists i :: 0 < i < |s| && OnlyAtSignAt(s, i) && exists j :: i + 1 < j < |s| - 1 && s[j] == '.'
  }

  lemma EmailRegexHasShape(s: string, i: int, j: int)
    requires 0 <= i < j < |s| && s[i] == '@' && s[j] == '.'
    requires EmailAtom(s[..i]) && EmailAtom(s[i + 1..j]) && EmailAtom(s[j + 1..])
    ensures EmailShape(s)
  {
    assert !IsWhitespace('@') && !IsWhitespace('.');
    forall k | 0 <= k < |s| && k != i
      ensures !IsWhitespace(s[k]) && s[k] != '@'
    {
      if k < i {
        assert s[k] == s[..i][k];
      } else if k < j {
        assert s[k] == s[i + 1..j][k - i - 1];
      } else if k > j {
        assert s[k] == s[j + 1..][k - j - 1];
      }
    }
    assert OnlyAtSignAt(s, i);
  }

  lemma ShapeIsEmailRegex(s: string, i: int, j: int)
    requires NoWhitespace(s) && 0 < i < |s| && OnlyAtSignAt(s, i) && i + 1 < j < |s| - 1 && s[j] == '.'
    ensures EmailRegexMatches(s)
  {
    assert EmailAtom(s[..i]);
    assert EmailAtom(s[i + 1..j]);
    assert EmailAtom(s[j + 1..]);
  }

  /** The regular expression accepts exactly the texts of that shape. */
  lemma {:induction false} EmailRegexMeaning(s: string)
    ensures EmailRegexMatches(s) <==> EmailShape(s)
  {
    if EmailRegexMatches(s) {
      var i, j :| 0 <= i < j < |s| && s[i] == '@' && s[j] == '.'
        && EmailAtom(s[..i]) && EmailAtom(s[i + 1..j]) && EmailAtom(s[j + 1..]);
      EmailRegexHasShape(s, i, j);
    }
    if EmailShape(s) {
      var i :| 0 < i < |s| && OnlyAtSignAt(s, i) && exists j :: i + 1 < j < |s| - 1 && s[j] == '.';
      var j :| i + 1 < j < |s| - 1 && s[j] == '.';
      ShapeIsEmailRegex(s, i, j);
    }
  }

  // ---------------------------------------------------------------- Phone

  /** `replace(/\D/g, "")`: the ASCII digits of `s`, in order. */
  function StripNonDigits(s: string): (r: string)
    ensures |r| <= |s|
    ensures forall k :: 0 <= k < |r| ==> IsDigit(r[k])
    decreases |s|
  {
    if s == [] then []
    else
      StripNonDigits(s[..|s| - 1]) + (if IsDigit(s[|s| - 1]) then [s[|s| - 1]] else [])
  }

  /** The positions of `s` that hold an ASCII digit. */
  function DigitPositions(s: string): set<nat>
  {
    set k: nat | k < |s| && IsDigit(s[k])
  }

  /** The number the phone check looks at: how many ASCII digits the text holds. */
  function DigitCount(s: string): nat
  {
    |DigitPositions(s)|
  }

  /** `^\d{10,15}$`. */
  predicate PhoneRegexMatches(t: string)
  {
    10 <= |t| <= 15 && forall k :: 0 <= k < |t| ==> IsDigit(t[k])
  }

  predicate PhoneValid(s: string)
  {
    10 <= DigitCount(s) <= 15
  }

  /** Stripping keeps one character per digit position. */
  lemma {:induction false} StripLength(s: string)
    ensures |StripNonDigits(s)| == DigitCount(s)
    decreases |s|
  {
    if s != [] {
      var init := s[..|s| - 1];
      StripLength(init);
      var n := |s| - 1;
      assert DigitPositions(s) == DigitPositions(init) + (if IsDigit(s[n]) then {n} else {}) by {
        forall k: nat | k < |s|
          ensures k in DigitPositions(s) <==> k in DigitPositions(init) + (if IsDigit(s[n]) then {n} else {})
        {
          if k < n {
            assert s[k] == init[k];
          }
        }
      }
      assert n !in DigitPositions(init);
    }
  }

  /** The phone check accepts exactly the texts with 10 to 15 ASCII digits, whatever else they contain. */
  lemma PhoneRegexMeaning(s: string)
    ensures PhoneRegexMatches(StripNonDigits(s)) <==> PhoneValid(s)
  {
    StripLength(s);
  }

  lemma {:induction false} StripAppend(a: string, b: string)
    ensures StripNonDigits(a + b) == StripNonDigits(a) + StripNonDigits(b)
    decreases |b|
  {
    if b == [] {
      assert a + b == a;
    } else {
      var binit := b[..|b| - 1];
      StripAppend(a, binit);
      assert (a + b)[..|a + b| - 1] == a + binit;
      assert (a + b)[|a + b| - 1] == b[|b| - 1];
    }
  }

  /** Inserting a non-digit anywhere (a space, a dash, a `+`) never changes the phone verdict. */
  lemma NonDigitIgnored(a: string, c: char, b: string)
    requires !IsDigit(c)
    ensures StripNonDigits(a + [c] + b) == StripNonDigits(a + b)
    ensures PhoneValid(a + [c] + b) <==> PhoneValid(a + b)
  {
    StripAppend(a + [c], b);
    StripAppend(a, [c]);
    StripAppend(a, b);
    assert StripNonDigits([c]) == [] by {
      assert [c][..0] == [];
    }
    StripLength(a + [c] + b);
    StripLength(a + b);
  }

  // ---------------------------------------------------------------- Validation

  /** The error `validate` records for one validated field, if any. */
  function FieldError(values: Form, f: string): Option<string>
    requires f in RequiredMessages
  {
    var v := Field(values, f);
    if v == "" then Some(RequiredMessages[f])
    else if f == "email" && !EmailRegexMatches(v) then Some(InvalidEmail)
    else if f == "phone" && !PhoneRegexMatches(StripNonDigits(v)) then Some(InvalidPhone)
    else None
  }

  /**
   * `validate(values)`: every empty validated field gets its fixed message; a
   * non-empty e-mail or phone of the wrong shape gets its own message; nothing
   * else is reported.
   */
  function Validate(values: Form): (errs: map<string, string>)
    ensures errs.Keys <= RequiredMessages.Keys
    ensures "address" !in errs && "empNo" !in errs
    ensures forall f :: f in RequiredMessages && Field(values, f) == "" ==> f in errs && errs[f] == RequiredMessages[f]
    ensures forall f :: f in RequiredMessages && f != "email" && f != "phone" && Field(values, f) != "" ==> f !in errs
  {
    map f | f in RequiredMessages && FieldError(values, f).Some? :: FieldError(values, f).value
  }

  /** A filled e-mail errs exactly when it lacks the accepted shape, and then with "Invalid email format". */
  lemma ValidateEmail(values: Form)
    requires Field(values, "email") != ""
    ensures "email" in Validate(values) <==> !EmailShape(Field(values, "email"))
    ensures "email" in Validate(values) ==> Validate(values)["email"] == InvalidEmail
  {
    EmailRegexMeaning(Field(values, "email"));
    assert "email" in RequiredMessages;
    assert "email" in Validate(values) <==> FieldError(values, "email").Some?;
  }

  /** A filled phone errs exactly when it holds fewer than 10 or more than 15 digits, and then with "Enter valid phone number". */
  lemma ValidatePhone(values: Form)
    requires Field(values, "phone") != ""
    ensures "phone" in Validate(values) <==> !PhoneValid(Field(values, "phone"))
    ensures "phone" in Validate(values) ==> Validate(values)["phone"] == InvalidPhone
  {
    PhoneRegexMeaning(Field(values, "phone"));
    assert "phone" in RequiredMessages;
    assert "phone" in Validate(values) <==> FieldError(values, "phone").Some?;
  }

  /** Each field is judged on its own text: changing one field never changes another field's error. */
  lemma ValidatePerField(values: Form, field: string, value: string, g: string)
    requires g != field
    ensures g in Validate(values[field := value]) <==> g in Validate(values)
    ensures g in Validate(values) ==> Validate(values[field := value])[g] == Validate(values)[g]
  {
    assert Field(values[field := value], g) == Field(values, g);
    if g in RequiredMessages {
      assert FieldError(values[field := value], g) == FieldError(values, g);
    }
  }

  /** A form passes validation exactly when every validated field is filled, the e-mail has the shape and the phone has 10 to 15 digits. */
  lemma ValidIff(values: Form)
    ensures Validate(values) == map[] <==>
      (forall f :: f in RequiredMessages ==> Field(values, f) != "")
      && EmailShape(Field(values, "email")) && PhoneValid(Field(values, "phone"))
  {
    var errs := Validate(values);
    if Field(values, "email") != "" {
      ValidateEmail(values);
    }
    if Field(values, "phone") != "" {
      ValidatePhone(values);
    }
    if errs == map[] {
      assert "email" in RequiredMessages && "phone" in RequiredMessages;
      assert "email" !in errs && "phone" !in errs;
    } else {
      var f :| f in errs;
    }
  }

  /** Which fields carry an error: an empty validated field, a malformed e-mail, or a phone without 10 to 15 digits. */
  lemma FieldHasError(values: Form, f: string)
    ensures f in Validate(values) <==> (f in RequiredMessages &&
      (Field(values, f) == "" || (f == "email" && !EmailShape(Field(values, f))) || (f == "phone" && !PhoneValid(Field(values, f)))))
  {
    if f == "email" && Field(values, f) != "" {
      ValidateEmail(values);
    } else if f == "phone" && Field(values, f) != "" {
      ValidatePhone(values);
    }
  }

  /** The opening form has an error on every validated field. */
  lemma EmptyFormErrors()
    ensures Validate(EmptyForm).Keys == RequiredMessages.Keys
  {
    assert forall f :: f in RequiredMessages ==> f in EmptyForm;
  }

  // ---------------------------------------------------------------- Employee number

  /** The number `Math.floor(100000 + Math.random() * 900000)` turns into. */
  function GeneratedEmpNo(random: int): (r: string)
    requires 100000 <= random <= 999999
    ensures |r| == 9 && r[..3] == "EMP" && Decimal.ParseInt(r[3..]) == Some(random)
  {
    assert Decimal.Pow10(5) == 100000 && Decimal.Pow10(6) == 1000000;
    Decimal.DecimalLength(random, 6);
    Decimal.ParseIntOfDecimal(random);
    assert ("EMP" + Decimal.ToDecimal(random))[3..] == Decimal.ToDecimal(random);
    "EMP" + Decimal.ToDecimal(random)
  }

  /**
   * The employee number the opening effect keeps: the first non-empty of the
   * initial value's number, `genEmpNo` and the current number, or else a fresh
   * generated one (`null` and "" are both falsy).
   */
  function ChooseEmpNo(initialEmpNo: string, genEmpNo: string, current: string, random: int): (r: string)
    requires 100000 <= random <= 999999
    ensures r != ""
    ensures initialEmpNo != "" ==> r == initialEmpNo
    ensures initialEmpNo == "" && genEmpNo != "" ==> r == genEmpNo
    ensures initialEmpNo == "" && genEmpNo == "" && current != "" ==> r == current
    ensures initialEmpNo == "" && genEmpNo == "" && current == "" ==>
      |r| == 9 && r[..3] == "EMP" && Decimal.ParseInt(r[3..]) == Some(random)
  {
    if initialEmpNo != "" then initialEmpNo
    else if genEmpNo != "" then genEmpNo
    else if current != "" then current
    else GeneratedEmpNo(random)
  }

  /** Once a number is in the form, reopening with no initial number and no `genEmpNo` keeps it. */
  lemma EmpNoLockedForSession(current: string, r1: int, r2: int)
    requires current != ""
    requires 100000 <= r1 <= 999999 && 100000 <= r2 <= 999999
    ensures ChooseEmpNo("", "", current, r1) == ChooseEmpNo("", "", current, r2) == current
  {
  }

  // ---------------------------------------------------------------- Component state

  class DetailsForm {
    var form: Form
    var touched: set<string>
    /** The forms handed to `onSave`, in order. */
    var saved: seq<Form>

    /**
     * The form always holds an employee number (the mount effect sets one and
     * its input is read-only), and only forms that pass validation, each with a
     * number, are ever handed to `onSave`.
     */
    predicate Valid()
      reads this
    {
      && Field(form, "empNo") != ""
      && forall k :: 0 <= k < |saved| ==> Validate(saved[k]) == map[] && Field(saved[k], "empNo") != ""
    }

    /** Mounting: the thirteen empty fields, then the opening effect's spread of `initial` and choice of number. */
    constructor(initial: Form, genEmpNo: string, random: int)
      requires 100000 <= random <= 999999
      ensures form == (EmptyForm + initial)["empNo" := ChooseEmpNo(Field(initial, "empNo"), genEmpNo, "", random)]
      ensures touched == {} && saved == []
      ensures Valid()
    {
      form := (EmptyForm + initial)["empNo" := ChooseEmpNo(Field(initial, "empNo"), genEmpNo, "", random)];
      touched := {};
      saved := [];
    }

    /** The submit button's `disabled`: some error is recorded, that is, the form does not pass validation. */
    predicate SubmitDisabled(): (disabled: bool)
      reads this
      ensures !disabled <==> ((forall f :: f in RequiredMessages ==> Field(form, f) != "")
        && EmailShape(Field(form, "email")) && PhoneValid(Field(form, "phone")))
    {
      ValidIff(form);
      |Validate(form)| > 0
    }

    /** A field's message is rendered when the field has an error and has been touched. */
    predicate ErrorShown(field: string): (shown: bool)
      reads this
      ensures shown <==> (field in touched && field in RequiredMessages &&
        (Field(form, field) == "" || (field == "email" && !EmailShape(Field(form, field)))
          || (field == "phone" && !PhoneValid(Field(form, field)))))
    {
      FieldHasError(form, field);
      field in Validate(form) && field in touched
    }

    /**
     * The opening effect: the initial values are spread over the current form
     * and the employee number is chosen; touched flags and saves are untouched.
     */
    method Open(initial: Form, genEmpNo: string, random: int)
      requires 100000 <= random <= 999999
      requires Valid()
      modifies this
      ensures form == (old(form) + initial)["empNo" := ChooseEmpNo(Field(initial, "empNo"), genEmpNo, Field(old(form), "empNo"), random)]
      ensures touched == old(touched) && saved == old(saved)
      ensures Valid()
    {
      var empNo := ChooseEmpNo(Field(initial, "empNo"), genEmpNo, Field(form, "empNo"), random);
      form := (form + initial)["empNo" := empNo];
    }

    /** `onFieldChange(field, value)`: sets one field and marks only it as touched; the number's input has no handler. */
    method OnFieldChange(field: string, value: string)
      requires Valid()
      requires field != "empNo"
      modifies this
      ensures form == old(form)[field := value] && touched == old(touched) + {field} && saved == old(saved)
      ensures forall f :: f != field ==> Field(form, f) == Field(old(form), f) && (f in touched <==> f in old(touched))
      ensures ErrorShown(field) <==> field in Validate(form)
      ensures forall g :: g != field ==> (ErrorShown(g) <==> old(ErrorShown(g)))
      ensures Valid()
    {
      form := form[field := value];
      touched := touched + {field};
      forall g | g != field
        ensures g in Validate(form) <==> g in Validate(old(form))
      {
        ValidatePerField(old(form), field, value, g);
      }
    }

    /** `handleSubmit`: `onSave(form)` runs exactly when a callback is given and the form has no errors. */
    method HandleSubmit(hasOnSave: bool) returns (called: bool)
      requires Valid()
      modifies this
      ensures called <==> hasOnSave && Validate(form) == map[]
      ensures called <==> hasOnSave && !SubmitDisabled()
      ensures saved == if called then old(saved) + [form] else old(saved)
      ensures form == old(form) && touched == old(touched)
      ensures Valid()
    {
      var errs := Validate(form);
      called := |errs| == 0 && hasOnSave;
      if called {
        saved := saved + [form];
      }
    }
  }
}
