/** Accounts and e-mail sign-up (apps/users/models.py, apps/users/services.py):
    the checks and defaults of the user manager, the one-time code, and the
    two-step registration that first stores the sign-up data under a code
    and then creates the account when the code is confirmed in time.

    The random draw, the clock (seconds) and the mail transport are outside
    the model: the draw and the time are parameters, and no mail is sent. */
module Users {
  import opened Common

  // ---------------------------------------------------------------------
  // CustomUserManager and User
  // ---------------------------------------------------------------------

  /** A user row. `password` is what set_password was given. */
  datatype User = User(
    email: string,
    password: string,
    role: string,
    firstName: string,
    lastName: string,
    isActive: bool,
    isStaff: bool,
    isSuperuser: bool)

  const DefaultRole: string := "customer"

  /** The keyword arguments a caller may pass; None is "not passed". */
  datatype ExtraFields = ExtraFields(
    role: Option<string>,
    firstName: Option<string>,
    lastName: Option<string>,
    isActive: Option<bool>,
    isStaff: Option<bool>,
    isSuperuser: Option<bool>)

  const NoExtraFields: ExtraFields := ExtraFields(None, None, None, None, None, None)

  /** The ValueErrors of the manager. */
  datatype ManagerError = EmailNotSet | SuperuserNeedsStaff | SuperuserNeedsSuperuser

  function ManagerMessage(e: ManagerError): string {
    match e
    case EmailNotSet => "The Email must be set"
    case SuperuserNeedsStaff => "Superuser must have is_staff=True."
    case SuperuserNeedsSuperuser => "Superuser must have is_superuser=True."
  }

  function OrElse<T>(o: Option<T>, default: T): T {
    if o.Some? then o.value else default
  }

  /** create_user: an empty e-mail is refused; every field not passed takes
      the model's default (inactive, not staff, role "customer", empty
      names). */
  function CreateUser(email: string, password: string, extra: ExtraFields): (r: Result<User, ManagerError>)
    ensures r.Err? <==> email == ""
    ensures r.Err? ==> r.error == EmailNotSet
    ensures r.Ok? ==> r.value.email == email && r.value.password == password
    ensures r.Ok? ==> r.value.isActive == (extra.isActive == Some(true))
    ensures r.Ok? ==> r.value.isStaff == (extra.isStaff == Some(true))
    ensures r.Ok? ==> r.value.isSuperuser == (extra.isSuperuser == Some(true))
    ensures r.Ok? && extra.role.None? ==> r.value.role == DefaultRole
    ensures r.Ok? && extra.role.Some? ==> r.value.role == extra.role.value
    ensures r.Ok? ==> r.value.firstName == (if extra.firstName.Some? then extra.firstName.value else "")
    ensures r.Ok? ==> r.value.lastName == (if extra.lastName.Some? then extra.lastName.value else "")
  {
    if email == "" then Err(EmailNotSet)
    else Ok(User(email, password, OrElse(extra.role, DefaultRole), OrElse(extra.firstName, ""), OrElse(extra.lastName, ""),
                 OrElse(extra.isActive, false), OrElse(extra.isStaff, false), OrElse(extra.isSuperuser, false)))
  }

  /** A user created with no extra fields is an inactive customer. */
  lemma NewUsersAreInactiveCustomers(email: string, password: string)
    requires email != ""
    ensures var u := CreateUser(email, password, NoExtraFields).value;
            !u.isActive && !u.isStaff && !u.isSuperuser && u.role == DefaultRole && u.firstName == "" && u.lastName == ""
  {
  }

  /** create_superuser: is_staff, is_superuser and is_active default to
      True; passing False for is_staff or is_superuser is refused (in that
      order); then create_user. */
  function CreateSuperuser(email: string, password: string, extra: ExtraFields): (r: Result<User, ManagerError>)
    ensures extra.isStaff == Some(false) ==> r == Err(SuperuserNeedsStaff)
    ensures extra.isStaff != Some(false) && extra.isSuperuser == Some(false) ==> r == Err(SuperuserNeedsSuperuser)
    ensures extra.isStaff != Some(false) && extra.isSuperuser != Some(false) ==>
              r == CreateUser(email, password, extra.(
                     isStaff := Some(true), isSuperuser := Some(true), isActive := Some(OrElse(extra.isActive, true))))
    ensures r.Ok? ==> r.value.isStaff && r.value.isSuperuser
  {
    // With the flags defaulted to True, "is not True" holds exactly when
    // False was passed.
    if extra.isStaff == Some(false) then Err(SuperuserNeedsStaff)
    else if extra.isSuperuser == Some(false) then Err(SuperuserNeedsSuperuser)
    else CreateUser(email, password, extra.(
           isStaff := Some(true), isSuperuser := Some(true), isActive := Some(OrElse(extra.isActive, true))))
  }

  /** A superuser created with no extra fields is an active admin. */
  lemma SuperuserDefaults(email: string, password: string)
    requires email != ""
    ensures var r := CreateSuperuser(email, password, NoExtraFields);
            r.Ok? && r.value.isActive && r.value.isStaff && r.value.isSuperuser
  {
  }

  // ---------------------------------------------------------------------
  // One-time codes
  // ---------------------------------------------------------------------

  const OtpLow: int := 100000
  const OtpHigh: int := 999999

  lemma SixDigitBounds()
    ensures Pow10(5) == OtpLow && Pow10(6) == OtpHigh + 1
  {
    assert Pow10(2) == 100;
    assert Pow10(4) == 10000;
  }

  /** generate_otp: str() of the drawn number, which randint takes from
      100000..999999 inclusive; always six decimal digits, no leading zero,
      reading back as the draw. */
  function GenerateOtp(draw: int): (otp: string)
    requires OtpLow <= draw <= OtpHigh
    ensures |otp| == 6 && AllDigits(otp) && otp[0] != '0'
    ensures DigitsValue(otp) == draw
  {
    SixDigitBounds();
    NatToStringLength(draw, 6);
    NatToStringRoundTrip(draw);
    NatToString(draw)
  }

  /** The lifetime of a code: ten minutes. */
  const OtpLifetime: int := 600

  /** A pending sign-up, one per e-mail address. */
  datatype EmailOtp = EmailOtp(
    otp: string,
    expiresAt: int,
    password: string,
    role: string,
    firstName: string,
    lastName: string)

  /** EmailOTP.is_expired: strictly after the expiry instant. */
  predicate IsExpired(o: EmailOtp, now: int) {
    now > o.expiresAt
  }

  /** The sign-up request: role and names may be absent. */
  datatype SignupData = SignupData(email: string, password: string, role: Option<string>, firstName: Option<string>, lastName: Option<string>)

  /** The row send_otp_to_email stores. */
  function OtpRecord(data: SignupData, draw: int, now: int): (r: EmailOtp)
    requires OtpLow <= draw <= OtpHigh
    ensures r.otp == GenerateOtp(draw) && r.expiresAt == now + OtpLifetime && r.password == data.password
    ensures r.role == OrElse(data.role, DefaultRole)
    ensures r.firstName == OrElse(data.firstName, "") && r.lastName == OrElse(data.lastName, "")
  {
    EmailOtp(GenerateOtp(draw), now + OtpLifetime, data.password,
             OrElse(data.role, DefaultRole), OrElse(data.firstName, ""), OrElse(data.lastName, ""))
  }

  /** A code is usable through exactly ten minutes after it was sent. */
  lemma OtpLifetimeIsTenMinutes(data: SignupData, draw: int, sentAt: int, now: int)
    requires OtpLow <= draw <= OtpHigh
    ensures !IsExpired(OtpRecord(data, draw, sentAt), now) <==> now <= sentAt + 600
  {
  }

  /** The outcome of verify_otp_and_create_user: the new user, or the
      message of the first check that failed, or the ValueError of
      create_user. */
  datatype VerifyOutcome = Created(user: User) | Refused(message: string) | Raised(error: ManagerError)

  const OtpNotFound: string := "OTP not found."
  const InvalidOtp: string := "Invalid OTP."
  const OtpExpired: string := "OTP has expired."
  const UserExists: string := "User already exists."

  /** The outcome and the two tables after verify_otp_and_create_user. */
  datatype Verified = Verified(outcome: VerifyOutcome, otps: map<string, EmailOtp>, users: map<string, User>)

  /** verify_otp_and_create_user: the checks in order (a code on file, the
      right code, not expired, no account yet), then an active account from
      the stored data, and the code is deleted. */
  function Verify(otps: map<string, EmailOtp>, users: map<string, User>, email: string, otp: string, now: int): (r: Verified)
    ensures r.outcome == Refused(OtpNotFound) <==> email !in otps
    ensures r.outcome == Refused(InvalidOtp) <==> email in otps && otps[email].otp != otp
    ensures r.outcome == Refused(OtpExpired) <==> email in otps && otps[email].otp == otp && IsExpired(otps[email], now)
    ensures r.outcome == Refused(UserExists) <==>
              email in otps && otps[email].otp == otp && !IsExpired(otps[email], now) && email in users
    ensures (email in otps && otps[email].otp == otp && !IsExpired(otps[email], now) && email !in users && email != "")
              ==> r.outcome.Created?
    ensures !r.outcome.Created? ==> r.otps == otps && r.users == users
    ensures r.outcome.Created? ==>
              && email in otps && email !in users && email != ""
              && r.otps == otps - {email}
              && r.users == users[email := r.outcome.user]
              && r.outcome.user == User(email, otps[email].password, otps[email].role,
                                        otps[email].firstName, otps[email].lastName, true, false, false)
  {
    if email !in otps then Verified(Refused(OtpNotFound), otps, users)
    else
      var o := otps[email];
      if o.otp != otp then Verified(Refused(InvalidOtp), otps, users)
      else if IsExpired(o, now) then Verified(Refused(OtpExpired), otps, users)
      else if email in users then Verified(Refused(UserExists), otps, users)
      else
        var created := CreateUser(email, o.password, ExtraFields(Some(o.role), Some(o.firstName), Some(o.lastName), Some(true), None, None));
        if created.Err? then Verified(Raised(created.error), otps, users)
        else Verified(Created(created.value), otps - {email}, users[email := created.value])
  }

  /** A confirmed code cannot be used twice: the second attempt finds no
      code. */
  lemma VerifyTwiceFindsNoCode(otps: map<string, EmailOtp>, users: map<string, User>, email: string, otp: string, now: int, later: int)
    requires Verify(otps, users, email, otp, now).outcome.Created?
    ensures var r := Verify(otps, users, email, otp, now);
            Verify(r.otps, r.users, email, otp, later).outcome == Refused(OtpNotFound)
  {
  }

  /** Sending a code and confirming it within ten minutes creates the
      account from the sign-up data, provided the address is new. */
  lemma SignupCompletes(otps: map<string, EmailOtp>, users: map<string, User>, data: SignupData, draw: int, sentAt: int, now: int)
    requires OtpLow <= draw <= OtpHigh && data.email != "" && data.email !in users
    requires sentAt <= now <= sentAt + OtpLifetime
    ensures var r := Verify(otps[data.email := OtpRecord(data, draw, sentAt)], users, data.email, GenerateOtp(draw), now);
            && r.outcome.Created?
            && r.outcome.user.email == data.email
            && r.outcome.user.password == data.password
            && r.outcome.user.role == OrElse(data.role, DefaultRole)
            && data.email !in r.otps
  {
  }

  /** Every account sits under its own e-mail address, which is never
      empty (the e-mail column is unique and create_user refuses ""). */
  ghost predicate UsersKeyedByEmail(users: map<string, User>) {
    forall e :: e in users ==> users[e].email == e && e != ""
  }

  /** Verification keeps the accounts keyed by their addresses. */
  lemma VerifyKeepsUsersKeyedByEmail(otps: map<string, EmailOtp>, users: map<string, User>, email: string, otp: string, now: int)
    requires UsersKeyedByEmail(users)
    ensures UsersKeyedByEmail(Verify(otps, users, email, otp, now).users)
  {
    var r := Verify(otps, users, email, otp, now);
    if r.outcome.Created? {
      assert r.outcome.user.email == email;
    }
  }

  /** The pending sign-ups and the accounts, keyed by e-mail (both columns
      are unique). */
  class Registry {
    var otps: map<string, EmailOtp>
    var users: map<string, User>

    ghost predicate Valid()
      reads this
    {
      UsersKeyedByEmail(users)
    }

    constructor ()
      ensures Valid()
      ensures otps == map[] && users == map[]
    {
      otps := map[];
      users := map[];
    }

    /** send_otp_to_email: update_or_create the row for the address with a
        fresh code, the expiry and the sign-up data. */
    method SendOtpToEmail(data: SignupData, draw: int, now: int) returns (otp: string)
      requires OtpLow <= draw <= OtpHigh
      requires Valid()
      modifies this`otps
      ensures Valid()
      ensures otp == GenerateOtp(draw)
      ensures otps == old(otps)[data.email := OtpRecord(data, draw, now)]
    {
      otp := GenerateOtp(draw);
      var role := if data.role.Some? then data.role.value else DefaultRole;
      var firstName := if data.firstName.Some? then data.firstName.value else "";
      var lastName := if data.lastName.Some? then data.lastName.value else "";
      otps := otps[data.email := EmailOtp(otp, now + OtpLifetime, data.password, role, firstName, lastName)];
    }

    /** verify_otp_and_create_user. */
    method VerifyOtpAndCreateUser(email: string, otp: string, now: int) returns (outcome: VerifyOutcome)
      requires Valid()
      modifies this
      ensures Valid()
      ensures Verified(outcome, otps, users) == Verify(old(otps), old(users), email, otp, now)
    {
      VerifyKeepsUsersKeyedByEmail(otps, users, email, otp, now);
      if email !in otps {
        return Refused(OtpNotFound);
      }
      var o := otps[email];
      if o.otp != otp {
        return Refused(InvalidOtp);
      }
      if IsExpired(o, now) {
        return Refused(OtpExpired);
      }
      if email in users {
        return Refused(UserExists);
      }
      var created := CreateUser(email, o.password, ExtraFields(Some(o.role), Some(o.firstName), Some(o.lastName), Some(true), None, None));
      if created.Err? {
        return Raised(created.error);
      }
      users := users[email := created.value];
      otps := otps - {email};
      outcome := Created(created.value);
    }
  }
}
