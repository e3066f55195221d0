/** The two-stage login of pages/Login.py (credentials, then a one-time
    passcode) and the Logout button of app.py. The Streamlit session
    fields are the fields of `Session`; each button handler is a
    transition. Time (`time.time()`) and the OTP draw are parameters, and
    the mail `send_otp_email` would send is returned as a `Deliver` outcome,
    issued after the state is updated. */
module Login {
  import opened Common
  import Text
  import OtpCode
  import AuthStore

  datatype Stage = Credentials | OtpPending

  function StageName(stage: Stage): string {
    match stage
    case Credentials => "credentials"
    case OtpPending => "otp"
  }

  datatype Role = UserRole | AdminRole

  function RoleName(role: Role): string {
    match role
    case UserRole => "user"
    case AdminRole => "admin"
  }

  /** `st.session_state` as far as the login page uses it. */
  datatype Session = Session(
    loggedIn: bool,
    userEmail: Option<string>,
    role: Role,
    stage: Stage,
    otpCode: Option<string>,
    otpTs: Option<real>,
    pendingEmail: Option<string>)

  /** The values the page's session-init block gives a fresh session. */
  const Initial: Session := Session(false, None, UserRole, Credentials, None, None, None)

  /** What a button press leads to; `Deliver` is the call to `send_otp_email`. */
  datatype Outcome =
    | Ignored               // the button is not on the page in this state
    | InvalidCredentials    // "Invalid email or password. If new, register first."
    | Deliver(address: string, code: string)
    | OtpExpired            // "OTP expired. Go back and resend."
    | WrongOtp              // "Wrong OTP."
    | LoginSucceeded
    | BackToCredentials
    | LoggedOut

  const OtpExpirySeconds: real := 300.0

  /** Python's `int()` on a float: truncation toward zero. */
  function Trunc(x: real): int {
    if x >= 0.0 then x.Floor else -((-x).Floor)
  }

  /** The seconds left that the OTP stage shows. */
  function Remaining(now: real, issuedAt: real): int {
    Trunc(OtpExpirySeconds - (now - issuedAt))
  }

  predicate Expired(now: real, issuedAt: real) {
    Remaining(now, issuedAt) <= 0
  }

  /** Because `int()` truncates, a code counts as expired as soon as more
      than 299 seconds have passed, not 300. */
  lemma ExpiredIff(now: real, issuedAt: real)
    ensures Expired(now, issuedAt) <==> now - issuedAt > 299.0
  {
    var x := OtpExpirySeconds - (now - issuedAt);
    if x >= 0.0 {
      assert x < 1.0 ==> x.Floor == 0;
      assert x >= 1.0 ==> x.Floor >= 1;
    } else {
      assert (-x).Floor >= 0;
    }
  }

  /** The invariant every reachable session keeps. */
  ghost predicate Inv(s: Session) {
    // the three OTP fields are set and cleared together with the stage
    && (s.stage == OtpPending <==> s.otpCode.Some?)
    && (s.stage == OtpPending <==> s.otpTs.Some?)
    && (s.stage == OtpPending <==> s.pendingEmail.Some?)
    && (s.otpCode.Some? ==> OtpCode.IsOtp(s.otpCode.value))
    && (s.pendingEmail.Some? ==> Text.Normalize(s.pendingEmail.value) == s.pendingEmail.value)
    // a logged-in session has an identity and no OTP in flight
    && (s.loggedIn <==> s.userEmail.Some?)
    && (s.loggedIn ==> s.stage == Credentials)
    && (s.userEmail.Some? ==> Text.Normalize(s.userEmail.value) == s.userEmail.value)
    // admin exactly for the privileged address
    && (s.role == AdminRole <==> s.loggedIn && s.userEmail == Some(AdminEmail))
  }

  lemma InitialInv()
    ensures Inv(Initial)
  {
  }

  /** The "Next" button of the credentials stage. */
  function PressNext(s: Session, users: AuthStore.Users, kdf: AuthStore.Kdf,
                     email: string, password: string, draw: nat, now: real): (r: (Session, Outcome))
    requires draw < OtpCode.OtpBound
    ensures Inv(s) ==> Inv(r.0)
    // a failed check (unknown user or wrong password alike) changes nothing
    ensures r.1 in {Ignored, InvalidCredentials} ==> r.0 == s
    ensures r.1 == InvalidCredentials <==>
              !s.loggedIn && s.stage == Credentials && !AuthStore.VerifyPassword(users, kdf, email, password)
    ensures r.1.Deliver? <==>
              !s.loggedIn && s.stage == Credentials && AuthStore.VerifyPassword(users, kdf, email, password)
    // success: the OTP fields are set, then the code is mailed to the normalised address
    ensures r.1.Deliver? ==>
              && r.0 == s.(stage := OtpPending, otpCode := Some(r.1.code), otpTs := Some(now),
                           pendingEmail := Some(Text.Normalize(email)))
              && r.1.address == Text.Normalize(email)
              && r.1.code == OtpCode.GenerateOtp(draw)
  {
    if s.loggedIn || s.stage != Credentials then (s, Ignored)
    else if !AuthStore.VerifyPassword(users, kdf, email, password) then (s, InvalidCredentials)
    else
      var otp := OtpCode.GenerateOtp(draw);
      var pending := Text.Normalize(email);
      Text.NormalizeIdempotent(email);
      (s.(otpCode := Some(otp), otpTs := Some(now), pendingEmail := Some(pending), stage := OtpPending),
       Deliver(pending, otp))
  }

  /** The "Back" button, offered only once the code has expired. */
  function PressBack(s: Session, now: real): (r: (Session, Outcome))
    ensures Inv(s) ==> Inv(r.0)
    ensures r.1 == BackToCredentials <==>
              !s.loggedIn && s.stage == OtpPending && s.otpTs.Some? && Expired(now, s.otpTs.value)
    ensures r.1 == BackToCredentials ==>
              r.0 == s.(stage := Credentials, otpCode := None, otpTs := None, pendingEmail := None)
    ensures r.1 != BackToCredentials ==> r.0 == s
  {
    if !s.loggedIn && s.stage == OtpPending && s.otpTs.Some? && Expired(now, s.otpTs.value) then
      (s.(stage := Credentials, otpCode := None, otpTs := None, pendingEmail := None), BackToCredentials)
    else (s, Ignored)
  }

  /** The role the page assigns to a freshly confirmed email. */
  function RoleFor(email: string): (role: Role)
    ensures role == AdminRole <==> email == AdminEmail
  {
    if email == AdminEmail then AdminRole else UserRole
  }

  /** The OTP stage is on screen: not logged in, a code issued and pending.
      Under `Inv` the last three conjuncts follow from the stage. */
  predicate Waiting(s: Session) {
    !s.loggedIn && s.stage == OtpPending && s.otpCode.Some? && s.otpTs.Some? && s.pendingEmail.Some?
  }

  /** The "Verify" button of the OTP stage, with the typed code `input`. */
  function PressVerify(s: Session, input: string, now: real): (r: (Session, Outcome))
    ensures Inv(s) ==> Inv(r.0)
    // an expired code is refused before it is compared
    ensures r.1 == OtpExpired <==> Waiting(s) && Expired(now, s.otpTs.value)
    ensures r.1 == WrongOtp <==>
              Waiting(s) && !Expired(now, s.otpTs.value) && Text.Strip(input) != s.otpCode.value
    ensures r.1 == LoginSucceeded <==>
              Waiting(s) && !Expired(now, s.otpTs.value) && Text.Strip(input) == s.otpCode.value
    ensures r.1 != LoginSucceeded ==> r.0 == s
    ensures r.1 == LoginSucceeded ==>
              && r.0.loggedIn && r.0.userEmail == s.pendingEmail
              && r.0.role == RoleFor(s.pendingEmail.value)
              && r.0.stage == Credentials && r.0.otpCode.None? && r.0.otpTs.None? && r.0.pendingEmail.None?
    ensures r.1 in {Ignored, OtpExpired, WrongOtp, LoginSucceeded}
  {
    if !Waiting(s) then (s, Ignored)
    else if Expired(now, s.otpTs.value) then (s, OtpExpired)
    else if Text.Strip(input) == s.otpCode.value then
      (Session(true, s.pendingEmail, RoleFor(s.pendingEmail.value), Credentials, None, None, None), LoginSucceeded)
    else (s, WrongOtp)
  }

  /** The "Resend OTP" button: a new code and issue time for the same address. */
  function PressResend(s: Session, draw: nat, now: real): (r: (Session, Outcome))
    requires draw < OtpCode.OtpBound
    ensures Inv(s) ==> Inv(r.0)
    ensures r.1 == OtpExpired <==> Waiting(s) && Expired(now, s.otpTs.value)
    ensures r.1.Deliver? <==> Waiting(s) && !Expired(now, s.otpTs.value)
    ensures r.1.Deliver? ==>
              && r.0 == s.(otpCode := Some(OtpCode.GenerateOtp(draw)), otpTs := Some(now))
              && r.1 == Deliver(s.pendingEmail.value, OtpCode.GenerateOtp(draw))
    ensures !r.1.Deliver? ==> r.0 == s
  {
    if !Waiting(s) then (s, Ignored)
    else if Expired(now, s.otpTs.value) then (s, OtpExpired)
    else
      var otp := OtpCode.GenerateOtp(draw);
      (s.(otpCode := Some(otp), otpTs := Some(now)), Deliver(s.pendingEmail.value, otp))
  }

  /** The Logout button of app.py, shown only to a logged-in user:
      `st.session_state.clear()`, after which the page re-initialises. */
  function PressLogout(s: Session): (r: (Session, Outcome))
    ensures s.loggedIn ==> r == (Initial, LoggedOut)
    ensures !s.loggedIn ==> r == (s, Ignored)
  {
    if s.loggedIn then (Initial, LoggedOut) else (s, Ignored)
  }

  /** Once logged in, no login-page button changes the session. */
  lemma LoggedInIsFinal(s: Session, users: AuthStore.Users, kdf: AuthStore.Kdf, email: string, password: string,
                        input: string, draw: nat, now: real)
    requires Inv(s) && s.loggedIn && draw < OtpCode.OtpBound
    ensures PressNext(s, users, kdf, email, password, draw, now).0 == s
    ensures PressBack(s, now).0 == s
    ensures PressVerify(s, input, now).0 == s
    ensures PressResend(s, draw, now).0 == s
  {
  }

  /** A code is never surrounded by white space, so typing it exactly is
      the same as typing it with the stripping the page applies. */
  lemma StripOtp(code: string)
    requires OtpCode.IsOtp(code)
    ensures Text.Strip(code) == code
  {
    Text.StripOfTrimmed(code);
  }

  /** After a resend, the code issued before it is refused unless the new
      draw happens to produce the same code. */
  lemma ResendInvalidatesOldCode(s: Session, draw: nat, now: real, later: real)
    requires Inv(s) && !s.loggedIn && s.stage == OtpPending && draw < OtpCode.OtpBound
    requires !Expired(now, s.otpTs.value)
    requires !Expired(later, now)
    requires OtpCode.GenerateOtp(draw) != s.otpCode.value
    ensures var s' := PressResend(s, draw, now).0;
            PressVerify(s', s.otpCode.value, later) == (s', WrongOtp)
  {
    StripOtp(s.otpCode.value);
  }

  /** The second half of the protocol: a login whose password verifies,
      answered with the mailed code within 299 seconds, ends logged in
      under the normalised email. */
  lemma LoginWithValidPassword(users: AuthStore.Users, kdf: AuthStore.Kdf, login: string, password: string,
                               draw: nat, sentAt: real, typedAt: real)
    requires AuthStore.VerifyPassword(users, kdf, login, password)
    requires draw < OtpCode.OtpBound
    requires sentAt <= typedAt <= sentAt + 299.0
    ensures var code := OtpCode.GenerateOtp(draw);
            var r1 := PressNext(Initial, users, kdf, login, password, draw, sentAt);
            var r2 := PressVerify(r1.0, code, typedAt);
            && r1.1 == Deliver(Text.Normalize(login), code)
            && r2.1 == LoginSucceeded
            && r2.0.loggedIn && r2.0.userEmail == Some(Text.Normalize(login))
            && r2.0.role == RoleFor(Text.Normalize(login))
  {
    var code := OtpCode.GenerateOtp(draw);
    var r1 := PressNext(Initial, users, kdf, login, password, draw, sentAt);
    assert r1.1.Deliver?;
    assert r1.1.code == code;
    assert r1.1.address == Text.Normalize(login);
  }

  /** The whole protocol: an account registered under `email` logs in
      with any spelling `login` of it, the mailed code and a reply within
      299 seconds; the identity is the normalised email and the role is
      admin exactly for the privileged address. */
  lemma RegisterAndLogin(users: AuthStore.Users, kdf: AuthStore.Kdf, email: string, password: string,
                         salt: AuthStore.Salt, created: int, login: string, draw: nat, sentAt: real, typedAt: real)
    requires AuthStore.Register(users, kdf, email, password, salt, created).error.None?
    requires Text.Normalize(login) == Text.Normalize(email)
    requires draw < OtpCode.OtpBound
    requires sentAt <= typedAt <= sentAt + 299.0
    ensures var users' := AuthStore.Register(users, kdf, email, password, salt, created).users;
            var code := OtpCode.GenerateOtp(draw);
            var r1 := PressNext(Initial, users', kdf, login, password, draw, sentAt);
            var r2 := PressVerify(r1.0, code, typedAt);
            && r1.1 == Deliver(Text.Normalize(email), code)
            && r2.1 == LoginSucceeded
            && r2.0.loggedIn && r2.0.userEmail == Some(Text.Normalize(email))
            && r2.0.role == RoleFor(Text.Normalize(email))
  {
    var users' := AuthStore.Register(users, kdf, email, password, salt, created).users;
    AuthStore.RegisterThenVerify(users, kdf, email, password, salt, created, login);
    LoginWithValidPassword(users', kdf, login, password, draw, sentAt, typedAt);
  }

  /** The login page's slice of `st.session_state`, updated field by field
      by the button handlers. */
  class LoginPage {
    var loggedIn: bool
    var userEmail: Option<string>
    var role: Role
    var loginStage: Stage
    var otpCode: Option<string>
    var otpTs: Option<real>
    var pendingEmail: Option<string>

    function State(): Session
      reads this
    {
      Session(loggedIn, userEmail, role, loginStage, otpCode, otpTs, pendingEmail)
    }

    ghost predicate Valid()
      reads this
    {
      Inv(State())
    }

    /** The session-init block. */
    constructor ()
      ensures State() == Initial && Valid()
    {
      loggedIn := false;
      userEmail := None;
      role := UserRole;
      loginStage := Credentials;
      otpCode := None;
      otpTs := None;
      pendingEmail := None;
    }

    method Next(store: AuthStore.UserStore, email: string, password: string, draw: nat, now: real)
      returns (outcome: Outcome)
      requires Valid() && draw < OtpCode.OtpBound
      modifies this
      ensures Valid()
      ensures (State(), outcome) == PressNext(old(State()), store.users, store.kdf, email, password, draw, now)
    {
      if loggedIn || loginStage != Credentials {
        return Ignored;
      }
      ghost var r := PressNext(State(), store.users, store.kdf, email, password, draw, now);
      if store.Verify(email, password) {
        var otp := OtpCode.GenerateOtp(draw);
        otpCode := Some(otp);
        otpTs := Some(now);
        pendingEmail := Some(Text.Normalize(email));
        loginStage := OtpPending;
        outcome := Deliver(pendingEmail.value, otp);
        assert (State(), outcome) == r;
      } else {
        outcome := InvalidCredentials;
      }
    }

    method Back(now: real) returns (outcome: Outcome)
      requires Valid()
      modifies this
      ensures Valid()
      ensures (State(), outcome) == PressBack(old(State()), now)
    {
      if loggedIn || loginStage != OtpPending || otpTs.None? || !Expired(now, otpTs.value) {
        return Ignored;
      }
      loginStage := Credentials;
      otpCode := None;
      otpTs := None;
      pendingEmail := None;
      outcome := BackToCredentials;
    }

    method Verify(input: string, now: real) returns (outcome: Outcome)
      requires Valid()
      modifies this
      ensures Valid()
      ensures (State(), outcome) == PressVerify(old(State()), input, now)
    {
      if !Waiting(State()) {
        return Ignored;
      }
      if Expired(now, otpTs.value) {
        return OtpExpired;
      }
      if Text.Strip(input) == otpCode.value {
        loggedIn := true;
        userEmail := pendingEmail;
        if userEmail.value == AdminEmail {
          role := AdminRole;
        } else {
          role := UserRole;
        }
        loginStage := Credentials;
        otpCode := None;
        otpTs := None;
        pendingEmail := None;
        outcome := LoginSucceeded;
      } else {
        outcome := WrongOtp;
      }
    }

    method Resend(draw: nat, now: real) returns (outcome: Outcome)
      requires Valid() && draw < OtpCode.OtpBound
      modifies this
      ensures Valid()
      ensures (State(), outcome) == PressResend(old(State()), draw, now)
    {
      if !Waiting(State()) {
        return Ignored;
      }
      if Expired(now, otpTs.value) {
        return OtpExpired;
      }
      var otp := OtpCode.GenerateOtp(draw);
      otpCode := Some(otp);
      otpTs := Some(now);
      outcome := Deliver(pendingEmail.value, otp);
    }

    method Logout() returns (outcome: Outcome)
      requires Valid()
      modifies this
      ensures Valid()
      ensures (State(), outcome) == PressLogout(old(State()))
    {
      if !loggedIn {
        return Ignored;
      }
      loggedIn := false;
      userEmail := None;
      role := UserRole;
      loginStage := Credentials;
      otpCode := None;
      otpTs := None;
      pendingEmail := None;
      outcome := LoggedOut;
    }
  }
}
