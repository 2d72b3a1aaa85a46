/** The form validators (schemas/index.ts). A form arrives as a record of
    optional strings, `None` standing for a missing field; each schema is a
    predicate that holds exactly when the schema's parse succeeds. The
    e-mail format test belongs to the validation library and is taken as a
    parameter `isEmail`. */
module Schemas {
  import opened Wrappers

  /** The closed role enumeration. */
  datatype Role = Admin | Client | Signatory

  function RoleName(r: Role): string {
    match r
    case Admin => "ADMIN"
    case Client => "CLIENT"
    case Signatory => "SIGNATORY"
  }

  /** Reads a role from its name; any other string is rejected. */
  function ParseRole(s: string): (r: Option<Role>)
    ensures r.Some? ==> RoleName(r.value) == s
    ensures r.None? ==> forall q :: RoleName(q) != s
  {
    if s == "ADMIN" then Some(Admin)
    else if s == "CLIENT" then Some(Client)
    else if s == "SIGNATORY" then Some(Signatory)
    else None
  }

  /** Every role is read back from its own name. */
  lemma RoleRoundTrip(r: Role)
    ensures ParseRole(RoleName(r)) == Some(r)
  {
  }

  /** A required field holding one of the role names. */
  predicate IsRole(o: Option<string>) {
    o.Some? && ParseRole(o.value).Some?
  }

  /** A required string field of at least `n` characters. */
  predicate MinLen(o: Option<string>, n: nat) {
    o.Some? && |o.value| >= n
  }

  /** An optional string field that, when present, has at least `n` characters. */
  predicate OptionalMinLen(o: Option<string>, n: nat) {
    o.None? || |o.value| >= n
  }

  /** A required e-mail field. */
  predicate Email(isEmail: string -> bool, o: Option<string>) {
    o.Some? && isEmail(o.value)
  }

  /** An optional e-mail field. */
  predicate OptionalEmail(isEmail: string -> bool, o: Option<string>) {
    o.None? || isEmail(o.value)
  }

  /** JavaScript truthiness of an optional string: present and not empty. */
  predicate Truthy(o: Option<string>) {
    o.Some? && |o.value| > 0
  }

  // ---------------------------------------------------------------- settings

  datatype SettingsForm = SettingsForm(
    name: Option<string>,
    isTwoFactorEnabled: Option<bool>,
    role: Option<string>,
    email: Option<string>,
    password: Option<string>,
    newPassword: Option<string>)

  /** The field rules of the settings object: a role, an optional e-mail,
      and two optional passwords of at least six characters. */
  predicate SettingsFields(isEmail: string -> bool, f: SettingsForm) {
    && IsRole(f.role)
    && OptionalEmail(isEmail, f.email)
    && OptionalMinLen(f.password, 6)
    && OptionalMinLen(f.newPassword, 6)
  }

  /** First refinement: neither password may come without the other. */
  predicate SettingsRefine1(f: SettingsForm) {
    && !(Truthy(f.password) && !Truthy(f.newPassword))
    && !(Truthy(f.newPassword) && !Truthy(f.password))
  }

  /** Second refinement: its two tests are the same one, a new password
      without the old one. */
  predicate SettingsRefine2(f: SettingsForm) {
    !(Truthy(f.newPassword) && !Truthy(f.password))
  }

  /** The settings schema: field rules and both refinements. */
  predicate SettingsValid(isEmail: string -> bool, f: SettingsForm) {
    SettingsFields(isEmail, f) && SettingsRefine1(f) && SettingsRefine2(f)
  }

  /** The settings rule in plain terms: a known role, an e-mail of the right
      format if any, and either no password change at all or both passwords
      of at least six characters. */
  predicate SettingsRule(isEmail: string -> bool, f: SettingsForm) {
    && f.role.Some? && f.role.value in {"ADMIN", "CLIENT", "SIGNATORY"}
    && (f.email.Some? ==> isEmail(f.email.value))
    && (|| (f.password.None? && f.newPassword.None?)
        || (f.password.Some? && f.newPassword.Some?
            && |f.password.value| >= 6 && |f.newPassword.value| >= 6))
  }

  /** The schema accepts exactly the records the plain rule describes. */
  lemma SettingsValidIffRule(isEmail: string -> bool, f: SettingsForm)
    ensures SettingsValid(isEmail, f) <==> SettingsRule(isEmail, f)
  {
  }

  /** An accepted settings record carries both passwords or neither, and
      each present one has at least six characters. */
  lemma SettingsPasswordsPaired(isEmail: string -> bool, f: SettingsForm)
    requires SettingsValid(isEmail, f)
    ensures f.password.Some? <==> f.newPassword.Some?
    ensures f.password.Some? ==> |f.password.value| >= 6 && |f.newPassword.value| >= 6
    ensures ParseRole(f.role.value).Some?
  {
  }

  /** The second refinement adds nothing: the first implies it. */
  lemma Refine1ImpliesRefine2(f: SettingsForm)
    ensures SettingsRefine1(f) ==> SettingsRefine2(f)
  {
  }

  /** The converse fails: every record with a non-empty old password and no
      new one passes the second refinement only. */
  lemma Refine2DoesNotImplyRefine1(f: SettingsForm)
    requires Truthy(f.password) && f.newPassword.None?
    ensures SettingsRefine2(f) && !SettingsRefine1(f)
  {
  }

  /** The refinements read truthiness, not presence: an empty old password
      without a new one passes both, and only the six-character rule rejects it. */
  lemma EmptyPasswordCaughtByLengthRule(isEmail: string -> bool, f: SettingsForm)
    requires f.password == Some("") && f.newPassword.None?
    ensures SettingsRefine1(f) && SettingsRefine2(f)
    ensures !SettingsValid(isEmail, f)
  {
  }

  // --------------------------------------------------------- login, register

  datatype LoginForm = LoginForm(email: Option<string>, password: Option<string>, code: Option<string>)

  /** Login: an e-mail and a non-empty password; the two-factor code is free. */
  predicate LoginValid(isEmail: string -> bool, f: LoginForm) {
    Email(isEmail, f.email) && MinLen(f.password, 1)
  }

  datatype RegisterForm = RegisterForm(email: Option<string>, password: Option<string>, name: Option<string>)

  /** Registration: an e-mail, a password of six or more characters, a non-empty name. */
  predicate RegisterValid(isEmail: string -> bool, f: RegisterForm) {
    Email(isEmail, f.email) && MinLen(f.password, 6) && MinLen(f.name, 1)
  }

  datatype ResetForm = ResetForm(email: Option<string>)

  /** Password reset request: an e-mail. */
  predicate ResetValid(isEmail: string -> bool, f: ResetForm) {
    Email(isEmail, f.email)
  }

  datatype NewPasswordForm = NewPasswordForm(password: Option<string>)

  /** New password: six or more characters. */
  predicate NewPasswordValid(f: NewPasswordForm) {
    MinLen(f.password, 6)
  }

  /** Whatever registers can log in: the registration e-mail and password,
      with any two-factor code, pass the login schema. */
  lemma RegisteredCredentialsPassLogin(isEmail: string -> bool, f: RegisterForm, code: Option<string>)
    requires RegisterValid(isEmail, f)
    ensures LoginValid(isEmail, LoginForm(f.email, f.password, code))
    ensures ResetValid(isEmail, ResetForm(f.email))
    ensures NewPasswordValid(NewPasswordForm(f.password))
  {
  }

  /** A new password is accepted at login with any valid e-mail. */
  lemma NewPasswordPassesLogin(isEmail: string -> bool, f: NewPasswordForm, email: string, code: Option<string>)
    requires NewPasswordValid(f) && isEmail(email)
    ensures LoginValid(isEmail, LoginForm(Some(email), f.password, code))
  {
  }

  /** The login rule is strictly weaker: any password of one to five
      characters logs in but does not register, whatever the code and name. */
  lemma LoginWeakerThanRegister(isEmail: string -> bool, email: string, pw: string,
                                code: Option<string>, name: Option<string>)
    requires isEmail(email) && 1 <= |pw| < 6
    ensures LoginValid(isEmail, LoginForm(Some(email), Some(pw), code))
    ensures !RegisterValid(isEmail, RegisterForm(Some(email), Some(pw), name))
  {
  }

  // ---------------------------------------------------------------- add user

  datatype AddUserForm = AddUserForm(
    name: Option<string>,
    email: Option<string>,
    password: Option<string>,
    stationId: Option<string>,
    role: Option<string>,
    signature: Option<string>,
    positionDesignation: Option<string>)

  /** Adding a user: a name of five or more characters, an e-mail, a password
      of six or more, a station, a role and a position; the signature is free. */
  predicate AddUserValid(isEmail: string -> bool, f: AddUserForm) {
    && MinLen(f.name, 5)
    && Email(isEmail, f.email)
    && MinLen(f.password, 6)
    && MinLen(f.stationId, 1)
    && IsRole(f.role)
    && MinLen(f.positionDesignation, 1)
  }

  /** The optional signature never changes whether an added user is accepted. */
  lemma AddUserSignatureIrrelevant(isEmail: string -> bool, f: AddUserForm)
    ensures forall sig: Option<string> :: AddUserValid(isEmail, f.(signature := sig)) == AddUserValid(isEmail, f)
  {
  }

  /** An accepted added user could also register with the same details. */
  lemma AddedUserCouldRegister(isEmail: string -> bool, f: AddUserForm)
    requires AddUserValid(isEmail, f)
    ensures RegisterValid(isEmail, RegisterForm(f.email, f.password, f.name))
  {
  }

  // ------------------------------------------------------------- travel form

  datatype TravelForm = TravelForm(
    additionalParticipants: Option<string>,
    purpose: Option<string>,
    host: Option<string>,
    inclusiveDates: Option<string>,
    destination: Option<string>,
    fundSource: Option<string>,
    attachedFile: Option<string>)

  /** A travel request: six required non-empty fields; extra participants are free. */
  predicate TravelFormValid(f: TravelForm) {
    && MinLen(f.purpose, 1)
    && MinLen(f.host, 1)
    && MinLen(f.inclusiveDates, 1)
    && MinLen(f.destination, 1)
    && MinLen(f.fundSource, 1)
    && MinLen(f.attachedFile, 1)
  }

  /** The additional participants never change whether a travel request is accepted. */
  lemma TravelParticipantsIrrelevant(f: TravelForm)
    ensures forall a: Option<string> :: TravelFormValid(f.(additionalParticipants := a)) == TravelFormValid(f)
  {
  }
}
