/**
 * The sign-up form: the registration payload built from the form's fields, and
 * `doSignUp`, which refuses mismatched passwords, raises the loading flag
 * around the register call, and reports the outcome by an alert (and, on
 * success, a navigation to `/login`).
 */
module SignUp {
  import opened Js
  import ApiService

  /** The form's state object. */
  datatype SignUpFields = SignUpFields(
    email: string, password: string, confirmPassword: string,
    firstName: string, lastName: string, role: string,
    department: string, position: string)

  /** The initial form: everything empty except the role, which starts as "employee". */
  const InitialFields := SignUpFields("", "", "", "", "", "employee", "", "")

  const PasswordMismatch := "Passwords do not match!"
  const RegistrationSucceeded := "Registration successful! Please login with your credentials."
  const RegistrationFailed := "Registration failed. Please try again."

  /** `value || null` on a text. */
  function OrNull(s: string): (v: JsValue)
    ensures s != "" ==> v == Str(s)
    ensures s == "" ==> v == Null
  {
    if s != "" then Str(s) else Null
  }

  /** `iso.split('T')[0]`: the text before the first `T`, or all of it when there is none. */
  function HireDate(iso: string): (d: string)
    ensures |d| <= |iso| && d == iso[..|d|]
    ensures 'T' !in d
    ensures |d| < |iso| ==> iso[|d|] == 'T'
  {
    if iso == [] || iso[0] == 'T' then []
    else [iso[0]] + HireDate(iso[1..])
  }

  /** The date part of an ISO timestamp `<date>T<time>` is `<date>`. */
  lemma {:induction false} HireDateOfTimestamp(date: string, time: string)
    requires 'T' !in date
    ensures HireDate(date + "T" + time) == date
  {
    if date != [] {
      HireDateOfTimestamp(date[1..], time);
      assert (date + "T" + time)[1..] == date[1..] + "T" + time;
    }
  }

  /** The keys the backend receives. */
  const PayloadKeys := {"email", "password", "first_name", "last_name", "role", "department", "position", "hire_date"}

  /**
   * `registrationData`: the names are converted to snake case, `department`
   * and `position` are `null` when empty, `confirmPassword` is not sent, and
   * `hire_date` is the date part of the current timestamp.
   */
  function RegistrationPayload(f: SignUpFields, isoNow: string): (p: JsObject)
    ensures p.Keys == PayloadKeys
    ensures "confirmPassword" !in p && "firstName" !in p && "lastName" !in p
    ensures forall k :: k in p ==> p[k] != Undefined
  {
    map[
      "email" := Str(f.email), "password" := Str(f.password),
      "first_name" := Str(f.firstName), "last_name" := Str(f.lastName),
      "role" := Str(f.role),
      "department" := OrNull(f.department), "position" := OrNull(f.position),
      "hire_date" := Str(HireDate(isoNow))
    ]
  }

  /** The text a payload entry carries, with `null` read back as "". */
  function TextOf(v: JsValue): string
  {
    if v.Str? then v.s else ""
  }

  /** Reading a payload back into form fields; the confirmation is taken to equal the password. */
  function FieldsFromPayload(p: JsObject): (f: SignUpFields)
    ensures f.confirmPassword == f.password
  {
    SignUpFields(
      TextOf(Get(p, "email")), TextOf(Get(p, "password")), TextOf(Get(p, "password")),
      TextOf(Get(p, "first_name")), TextOf(Get(p, "last_name")), TextOf(Get(p, "role")),
      TextOf(Get(p, "department")), TextOf(Get(p, "position")))
  }

  /**
   * The payload loses nothing but the confirmation: for a form whose passwords
   * match, the fields can be read back from what is sent.
   */
  lemma PayloadRoundTrip(f: SignUpFields, isoNow: string)
    requires f.password == f.confirmPassword
    ensures FieldsFromPayload(RegistrationPayload(f, isoNow)) == f
  {
  }

  /** Empty optional fields are sent as `null`, non-empty ones as their text; the rest is copied verbatim. */
  lemma PayloadFields(f: SignUpFields, isoNow: string)
    ensures var p := RegistrationPayload(f, isoNow);
      && p["email"] == Str(f.email) && p["password"] == Str(f.password) && p["role"] == Str(f.role)
      && p["first_name"] == Str(f.firstName) && p["last_name"] == Str(f.lastName)
      && (p["department"] == Null <==> f.department == "")
      && (p["position"] == Null <==> f.position == "")
      && p["hire_date"] == Str(HireDate(isoNow))
  {
  }

  /** `error.response?.data?.detail || 'Registration failed. Please try again.'`. */
  function FailureMessage(error: ApiService.HttpOutcome): (m: string)
    ensures error.NoReply? ==> m == RegistrationFailed
    ensures error.Reply? && Truthy(Get(error.data, "detail")) ==> m == Get(error.data, "detail").s
    ensures error.Reply? && !Truthy(Get(error.data, "detail")) ==> m == RegistrationFailed
    ensures m != ""
  {
    if error.Reply? && Truthy(Get(error.data, "detail")) then Get(error.data, "detail").s else RegistrationFailed
  }

  class SignUpForm {
    var fields: SignUpFields
    var isLoading: bool
    /** The messages passed to `alert`, in order. */
    var alerts: seq<string>
    /** The paths passed to `navigate`, in order. */
    var navigations: seq<string>

    constructor()
      ensures fields == InitialFields && !isLoading && alerts == [] && navigations == []
    {
      fields := InitialFields;
      isLoading := false;
      alerts := [];
      navigations := [];
    }

    /**
     * `doSignUp` up to its `await`: a password mismatch alerts and stops with
     * nothing else changed; otherwise loading is raised and the payload to
     * register is produced.
     */
    method BeginSignUp(isoNow: string) returns (payload: Option<JsObject>)
      modifies this
      ensures fields == old(fields) && navigations == old(navigations)
      ensures fields.password != fields.confirmPassword ==>
        payload.None? && alerts == old(alerts) + [PasswordMismatch] && isLoading == old(isLoading)
      ensures fields.password == fields.confirmPassword ==>
        payload == Some(RegistrationPayload(fields, isoNow)) && alerts == old(alerts) && isLoading
    {
      if fields.password != fields.confirmPassword {
        alerts := alerts + [PasswordMismatch];
        payload := None;
        return;
      }
      isLoading := true;
      payload := Some(RegistrationPayload(fields, isoNow));
    }

    /** The rest of `doSignUp`: register, report the outcome, and lower loading in the `finally`. */
    method FinishSignUp(api: ApiService.ApiClient, payload: JsObject, outcome: ApiService.HttpOutcome)
      modifies this, api
      ensures fields == old(fields) && !isLoading
      ensures api.sent == old(api.sent) +
        [ApiService.Request("POST", "/auth/register", ApiService.WithAuth(old(api.storage), ApiService.JsonHeaders), ApiService.JsonBody(payload))]
      ensures api.storage == ApiService.AfterResponse(old(api.storage), outcome)
      ensures api.redirectedTo == if ApiService.Unauthorized(outcome) then Some("/login") else old(api.redirectedTo)
      ensures ApiService.Succeeded(outcome) ==>
        alerts == old(alerts) + [RegistrationSucceeded] && navigations == old(navigations) + ["/login"]
      ensures !ApiService.Succeeded(outcome) ==>
        alerts == old(alerts) + [FailureMessage(outcome)] && navigations == old(navigations)
    {
      var r := api.Register(payload, outcome);
      if r.Resolved? {
        alerts := alerts + [RegistrationSucceeded];
        navigations := navigations + ["/login"];
      } else {
        alerts := alerts + [FailureMessage(r.error)];
      }
      isLoading := false;
    }

    /** `doSignUp` as a whole, with the network's answer given. */
    method DoSignUp(api: ApiService.ApiClient, isoNow: string, outcome: ApiService.HttpOutcome)
      modifies this, api
      ensures fields == old(fields)
      ensures fields.password != fields.confirmPassword ==>
        && alerts == old(alerts) + [PasswordMismatch] && isLoading == old(isLoading) && navigations == old(navigations)
        && api.sent == old(api.sent) && api.storage == old(api.storage) && api.redirectedTo == old(api.redirectedTo)
      ensures fields.password == fields.confirmPassword ==>
        && !isLoading
        && api.sent == old(api.sent) + [ApiService.Request("POST", "/auth/register",
             ApiService.WithAuth(old(api.storage), ApiService.JsonHeaders),
             ApiService.JsonBody(RegistrationPayload(fields, isoNow)))]
        && api.storage == ApiService.AfterResponse(old(api.storage), outcome)
        && api.redirectedTo == (if ApiService.Unauthorized(outcome) then Some("/login") else old(api.redirectedTo))
        && (ApiService.Succeeded(outcome) ==>
              alerts == old(alerts) + [RegistrationSucceeded] && navigations == old(navigations) + ["/login"])
        && (!ApiService.Succeeded(outcome) ==>
              alerts == old(alerts) + [FailureMessage(outcome)] && navigations == old(navigations))
    {
      var payload := BeginSignUp(isoNow);
      if payload.Some? {
        FinishSignUp(api, payload.value, outcome);
      }
    }
  }
}
