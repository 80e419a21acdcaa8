/** The login / registration form's submit handler (`handleSubmit` in
    src/components/Auth.jsx): it builds the request body for the selected
    mode, and turns the answer into the form's error and busy state, the
    stored token and the "authenticated" notification. */
module Auth {
  import opened Wrappers

  datatype Mode = LoginMode | RegisterMode

  datatype Role = HospitalRole | BloodBankRole | DonorRole | AdminRole

  /** The role select's option values. */
  function RoleName(r: Role): string {
    match r
    case HospitalRole => "hospital"
    case BloodBankRole => "bloodbank"
    case DonorRole => "donor"
    case AdminRole => "admin"
  }

  datatype HospitalFields = HospitalFields(name: string, contact: string, city: string)

  /** The form's fields, its busy flag and error line, and the persisted
      token cell it writes. */
  datatype AuthState = AuthState(
    mode: Mode,
    role: Role,
    email: string,
    password: string,
    name: string,
    hospital: HospitalFields,
    loading: bool,
    error: string,
    token: Option<string>)

  /** The JSON body of `POST /auth/register`; an absent `hospitalName` is
      the `undefined` member that serialisation drops. */
  datatype RegisterBody = RegisterBody(
    email: string,
    password: string,
    role: string,
    name: string,
    hospitalName: Option<string>,
    city: string,
    contactNumbers: seq<string>)

  /** The registration body: the hospital name only for non-donor roles,
      the city always, and the contact number as a one-element list when
      one was typed, an empty list otherwise. */
  function RegisterPayload(a: AuthState): (b: RegisterBody)
    ensures b.email == a.email && b.password == a.password && b.name == a.name
    ensures b.role == RoleName(a.role)
    ensures b.hospitalName.Some? <==> a.role != DonorRole
    ensures b.hospitalName.Some? ==> b.hospitalName.value == a.hospital.name
    ensures b.city == a.hospital.city
    ensures |b.contactNumbers| <= 1
    ensures b.contactNumbers == [] <==> a.hospital.contact == ""
    ensures forall c :: c in b.contactNumbers ==> c == a.hospital.contact
  {
    RegisterBody(
      a.email, a.password, RoleName(a.role), a.name,
      if a.role != DonorRole then Some(a.hospital.name) else None,
      a.hospital.city,
      if a.hospital.contact != "" then [a.hospital.contact] else [])
  }

  /** A donor's hospital name never reaches the server, whatever is typed
      in the (hidden) field. */
  lemma DonorHospitalNameNotSent(a: AuthState, other: string)
    requires a.role == DonorRole
    ensures RegisterPayload(a.(hospital := a.hospital.(name := other))) == RegisterPayload(a)
  {
  }

  /** The form-encoded body of `POST /auth/login`, as its parameter list:
      the email under `username`, then the password. */
  function LoginBody(a: AuthState): (params: seq<(string, string)>)
    ensures |params| == 2
    ensures params[0] == ("username", a.email) && params[1] == ("password", a.password)
  {
    [("username", a.email), ("password", a.password)]
  }

  /** `URLSearchParams.get`: the first value under `key`. */
  function Lookup(params: seq<(string, string)>, key: string): (v: Option<string>)
    ensures v.Some? <==> exists i :: 0 <= i < |params| && params[i].0 == key
    ensures v.Some? ==> (key, v.value) in params
    ensures v.Some? ==> exists i :: 0 <= i < |params| && params[i] == (key, v.value)
                                  && forall j :: 0 <= j < i ==> params[j].0 != key
  {
    if params == [] then None
    else if params[0].0 == key then Some(params[0].1)
    else
      var v := Lookup(params[1..], key);
      assert forall i :: 1 <= i < |params| ==> params[i] == params[1..][i - 1];
      if v.Some? then
        var i :| 0 <= i < |params[1..]| && params[1..][i] == (key, v.value)
                 && forall j :: 0 <= j < i ==> params[1..][j].0 != key;
        assert params[i + 1] == (key, v.value);
        assert forall j :: 0 <= j < i + 1 ==> params[j].0 != key by {
          forall j | 0 <= j < i + 1
            ensures params[j].0 != key
          {
            if j > 0 {
              assert params[j] == params[1..][j - 1];
            }
          }
        }
        v
      else v
  }

  /** The login body carries exactly two fields: the email as `username`,
      and the password. */
  lemma LoginBodyFields(a: AuthState)
    ensures |LoginBody(a)| == 2
    ensures Lookup(LoginBody(a), "username") == Some(a.email)
    ensures Lookup(LoginBody(a), "password") == Some(a.password)
    ensures forall k :: k != "username" && k != "password" ==> Lookup(LoginBody(a), k).None?
  {
  }

  datatype AuthCall = RegisterCall(body: RegisterBody) | LoginCall(params: seq<(string, string)>)

  /** The call the selected mode issues. */
  function CallFor(a: AuthState): (c: AuthCall)
    ensures c.RegisterCall? <==> a.mode == RegisterMode
    ensures c.RegisterCall? ==> c.body == RegisterPayload(a)
    ensures c.LoginCall? ==> c.params == LoginBody(a)
  {
    match a.mode
    case RegisterMode => RegisterCall(RegisterPayload(a))
    case LoginMode => LoginCall(LoginBody(a))
  }

  /** The `access_token` member of the parsed body: a string, JSON `null`,
      or missing. */
  datatype TokenField = TokenText(text: string) | TokenNull | TokenMissing

  /** The answer: status, raw text, and the `access_token` member. */
  datatype AuthResponse = AuthResponse(ok: bool, text: string, accessToken: TokenField)

  /** What the handler does outside its own state, in order. */
  datatype AuthEffect = StoreToken(token: string) | NotifyAuthed

  datatype AuthStep = AuthStep(state: AuthState, calls: seq<AuthCall>, effects: seq<AuthEffect>)

  /** `localStorage.setItem` stores the string form of its value: a token
      string as is, `null` as "null" and a missing member as "undefined". */
  function StoredText(token: TokenField): (stored: string)
    ensures token.TokenText? ==> stored == token.text
    ensures token.TokenNull? ==> stored == "null"
    ensures token.TokenMissing? ==> stored == "undefined"
  {
    match token
    case TokenText(t) => t
    case TokenNull => "null"
    case TokenMissing => "undefined"
  }

  /** The submit fires (the button is disabled while busy): the busy flag
      goes up, the error line is cleared, and the mode's call is issued. */
  function BeginSubmit(a: AuthState): (st: AuthStep)
    ensures a.loading ==> st == AuthStep(a, [], [])
    ensures !a.loading ==>
      && st.state.loading && st.state.error == ""
      && st.calls == [CallFor(a)] && st.effects == []
      && st.state.(loading := a.loading, error := a.error) == a
  {
    if a.loading then AuthStep(a, [], [])
    else AuthStep(a.(loading := true, error := ""), [CallFor(a)], [])
  }

  /** The answer arrives. A failure shows the response text as the error
      and writes nothing; a success stores the token and then notifies
      the application. The busy flag drops either way. */
  function FinishSubmit(a: AuthState, res: AuthResponse): (st: AuthStep)
    ensures !st.state.loading
    ensures st.calls == []
    ensures !res.ok ==> st.state.error == res.text && st.state.token == a.token && st.effects == []
    ensures res.ok ==>
      && st.state.error == a.error
      && st.state.token == Some(StoredText(res.accessToken))
      && st.effects == [StoreToken(StoredText(res.accessToken)), NotifyAuthed]
    ensures st.state.(loading := a.loading, error := a.error, token := a.token) == a
  {
    if !res.ok then AuthStep(a.(error := res.text, loading := false), [], [])
    else
      var t := StoredText(res.accessToken);
      AuthStep(a.(token := Some(t), loading := false), [], [StoreToken(t), NotifyAuthed])
  }

  /** `handleSubmit` from click to answer. */
  function HandleSubmit(a: AuthState, res: AuthResponse): (st: AuthStep)
    ensures a.loading ==> st == AuthStep(a, [], [])
    ensures !a.loading ==>
      && !st.state.loading
      && st.calls == [CallFor(a)]
      && (res.ok ==> st.state.error == "")
      && (!res.ok ==> st.state.error == res.text)
      && st.state.(loading := a.loading, error := a.error, token := a.token) == a
    ensures !a.loading && !res.ok ==> st.state.token == a.token && st.effects == []
    ensures !a.loading && res.ok ==>
      && st.state.token.Some? && st.state.token.value == StoredText(res.accessToken)
      && st.effects == [StoreToken(StoredText(res.accessToken)), NotifyAuthed]
    ensures st.state.mode == a.mode && st.state.role == a.role && st.state.email == a.email
    ensures st.state.password == a.password && st.state.hospital == a.hospital
  {
    var begin := BeginSubmit(a);
    if begin.calls == [] then begin
    else
      var fin := FinishSubmit(begin.state, res);
      AuthStep(fin.state, begin.calls, fin.effects)
  }

  /** Submissions handled one after another, each from the state the
      previous one left. */
  function SubmitAll(a: AuthState, rs: seq<AuthResponse>): AuthState {
    if rs == [] then a else HandleSubmit(SubmitAll(a, rs[..|rs| - 1]), rs[|rs| - 1]).state
  }

  /** The token of the last successful answer, if any. */
  function LastToken(rs: seq<AuthResponse>): Option<string> {
    if rs == [] then None
    else if rs[|rs| - 1].ok then Some(StoredText(rs[|rs| - 1].accessToken))
    else LastToken(rs[..|rs| - 1])
  }

  /** From an idle form, any series of submissions leaves the form idle,
      the persisted token that of the last successful answer (the one it
      started with when none succeeded), and the typed fields as they were. */
  lemma {:induction false} SubmitAllKeepsLastToken(a: AuthState, rs: seq<AuthResponse>)
    requires !a.loading
    ensures !SubmitAll(a, rs).loading
    ensures SubmitAll(a, rs).token == (if LastToken(rs).Some? then LastToken(rs) else a.token)
    ensures SubmitAll(a, rs).(loading := a.loading, error := a.error, token := a.token) == a
  {
    if rs != [] {
      SubmitAllKeepsLastToken(a, rs[..|rs| - 1]);
    }
  }
}
