/**
 * Seller accounts: registration (the field validators, the cross-field check
 * and the create that fires the profile signal), the profile signal itself,
 * and the migration that bootstraps the platform superuser.
 */
module Accounts {
  import opened Wrappers
  import opened Strings
  import opened Seqs
  import opened Sellers
  import opened Database

  /** No two accounts share a username (the column is unique). */
  predicate UsernamesUnique(users: map<nat, User>) {
    forall a, b :: a in users && b in users && a != b ==> users[a].username != users[b].username
  }

  function HasUsername(name: string): (nat, User) -> bool {
    (k: nat, u: User) => u.username == name
  }

  /** `User.objects.filter(username=name)`: the ids found. */
  function UsersNamed(d: Db, name: string): (r: seq<nat>)
    ensures forall i :: 0 <= i < |r| ==> r[i] in d.users && r[i] < d.nextUserId && d.users[r[i]].username == name
    ensures forall k :: k in d.users && k < d.nextUserId && d.users[k].username == name ==> k in r
    ensures forall i, j :: 0 <= i < j < |r| ==> r[i] < r[j]
  {
    KeysAsc(d.users, d.nextUserId, HasUsername(name))
  }

  // ---------------------------------------------------------------------
  // The profile signal
  // ---------------------------------------------------------------------

  /** Why saving a user can fail in the signal. */
  datatype SignalError = ProfileExists | ProfileMissing

  /**
   * The `post_save` receiver for users: a newly created user gets an empty
   * profile; re-saving an existing user re-saves its profile (only the
   * profile's timestamp changes, which is not modelled) and fails when the
   * user has none.
   */
  function OnUserSaved(d: Db, uid: nat, created: bool): (r: Result<Db, SignalError>)
    ensures created && uid !in d.profiles ==> r == Ok(d.(profiles := d.profiles[uid := EmptyProfile]))
    ensures !created ==> (r.Ok? <==> uid in d.profiles) && (r.Ok? ==> r.value == d)
    ensures created && uid in d.profiles ==> r == Err(ProfileExists)
  {
    if created then
      if uid in d.profiles then Err(ProfileExists) else Ok(d.(profiles := d.profiles[uid := EmptyProfile]))
    else if uid in d.profiles then Ok(d)
    else Err(ProfileMissing)
  }

  /** The tables after `u` is inserted under the next user id together with its profile `p`. */
  function WithUser(d: Db, u: User, p: SellerProfile): Db {
    d.(users := d.users[d.nextUserId := u], nextUserId := d.nextUserId + 1, profiles := d.profiles[d.nextUserId := p])
  }

  /** Inserting a user together with its profile keeps the database consistent. */
  lemma WithUserConsistent(d: Db, u: User, p: SellerProfile)
    requires Consistent(d)
    ensures Consistent(WithUser(d, u, p))
  {
    var e := WithUser(d, u, p);
    forall k | k in e.orders ensures OrderConsistent(e, e.orders[k]) {
      assert OrderConsistent(d, d.orders[k]);
    }
  }

  /**
   * Creating a user in a consistent store: the signal succeeds and gives the
   * new user exactly one profile, empty, and leaves every other profile alone.
   */
  lemma CreatedUserGetsOneProfile(d: Db, u: User)
    requires Consistent(d)
    ensures var e := d.(users := d.users[d.nextUserId := u], nextUserId := d.nextUserId + 1);
            && OnUserSaved(e, d.nextUserId, true) == Ok(WithUser(d, u, EmptyProfile))
            && WithUser(d, u, EmptyProfile).profiles == d.profiles[d.nextUserId := EmptyProfile]
            && Consistent(WithUser(d, u, EmptyProfile))
  {
    assert d.nextUserId !in d.users;
    WithUserConsistent(d, u, EmptyProfile);
  }

  // ---------------------------------------------------------------------
  // Registration
  // ---------------------------------------------------------------------

  /** A registration request as sent; an absent optional field is None. */
  datatype Registration = Registration(
    username: string,
    email: Option<string>,
    password: string,
    password2: string,
    firstName: Option<string>,
    lastName: Option<string>)

  datatype Problem =
    | BlankField        // "This field may not be blank."
    | UsernameInvalid   // the username's character pattern
    | UsernameTaken
    | UsernameTooLong
    | EmailRequired
    | InvalidEmail
    | EmailTaken
    | TooShort
    | Mismatch

  /** A validation error and the field it is reported on. */
  datatype FieldError = FieldError(field: string, problem: Problem)

  const MinPasswordLength := 8

  /** The `max_length` of the username column. */
  const MaxUsernameLength := 150

  /** A sent optional text trimmed, an omitted one still omitted. */
  function StripSent(v: Option<string>): (r: Option<string>)
    ensures r.Some? <==> v.Some?
    ensures r.Some? ==> r.value == Strip(v.value, Python) && Trimmed(r.value, Python)
  {
    if v.Some? then Some(Strip(v.value, Python)) else None
  }

  /**
   * What the serializer's text fields hand on: every sent value with the
   * white space at both ends removed (the fields' `trim_whitespace`, which is
   * Python's `strip`), before any check runs.
   */
  function Cleaned(reg: Registration): (r: Registration)
    ensures Trimmed(r.username, Python) && Trimmed(r.password, Python) && Trimmed(r.password2, Python)
    ensures |r.username| <= |reg.username| && |r.password| <= |reg.password|
    ensures r.email.Some? <==> reg.email.Some?
    ensures r.firstName.Some? <==> reg.firstName.Some?
    ensures r.lastName.Some? <==> reg.lastName.Some?
  {
    Registration(Strip(reg.username, Python), StripSent(reg.email), Strip(reg.password, Python),
                 Strip(reg.password2, Python), StripSent(reg.firstName), StripSent(reg.lastName))
  }

  /** Cleaning a cleaned request changes nothing. */
  lemma CleanedIdempotent(reg: Registration)
    ensures Cleaned(Cleaned(reg)) == Cleaned(reg)
  {
    var c := Cleaned(reg);
    StripTrimmed(c.username, Python);
    StripTrimmed(c.password, Python);
    StripTrimmed(c.password2, Python);
    if c.email.Some? { StripTrimmed(c.email.value, Python); }
    if c.firstName.Some? { StripTrimmed(c.firstName.value, Python); }
    if c.lastName.Some? { StripTrimmed(c.lastName.value, Python); }
  }

  /** Some account's email equals `e` ignoring case (`email__iexact`). */
  predicate EmailInUse(users: map<nat, User>, e: string) {
    exists k :: k in users && Lower(users[k].email) == Lower(e)
  }

  /**
   * `validate_email`: a missing or empty email, one the format check
   * refuses, or one already in use in any case is rejected; otherwise the
   * email is accepted lower-cased. `wellFormed` is the framework's email
   * format check.
   */
  function ValidateEmail(users: map<nat, User>, value: Option<string>, wellFormed: string -> bool): (r: Result<string, Problem>)
    ensures r.Ok? <==> value.Some? && value.value != "" && wellFormed(value.value) && !EmailInUse(users, value.value)
    ensures r.Ok? ==> r.value == Lower(value.value)
    ensures value.None? || value == Some("") ==> r == Err(EmailRequired)
  {
    if value.None? || value.value == "" then Err(EmailRequired)
    else if !wellFormed(value.value) then Err(InvalidEmail)
    else if EmailInUse(users, value.value) then Err(EmailTaken)
    else Ok(Lower(value.value))
  }

  /** An accepted email differs, even ignoring case, from every stored one, and is already in stored form. */
  lemma AcceptedEmailFresh(users: map<nat, User>, value: Option<string>, wellFormed: string -> bool)
    requires ValidateEmail(users, value, wellFormed).Ok?
    ensures var e := ValidateEmail(users, value, wellFormed).value;
            && Lower(e) == e
            && forall k :: k in users ==> Lower(users[k].email) != e
  {
    LowerIdempotent(value.value);
  }

  /**
   * The username's errors, on its trimmed value: a blank name is refused on
   * its own; otherwise the character pattern (`usernameChars`, the
   * framework's Unicode username check), the unique check and the length
   * limit each add their error, in that order.
   */
  function UsernameErrors(d: Db, name: string, usernameChars: string -> bool): (r: seq<FieldError>)
    ensures r == [] <==> name != "" && usernameChars(name) && |UsersNamed(d, name)| == 0 && |name| <= MaxUsernameLength
    ensures name == "" ==> r == [FieldError("username", BlankField)]
    ensures name != "" && |UsersNamed(d, name)| > 0 ==> FieldError("username", UsernameTaken) in r
    ensures forall i :: 0 <= i < |r| ==> r[i].field == "username"
  {
    if name == "" then [FieldError("username", BlankField)]
    else
      (if !usernameChars(name) then [FieldError("username", UsernameInvalid)] else [])
      + (if |UsersNamed(d, name)| > 0 then [FieldError("username", UsernameTaken)] else [])
      + (if |name| > MaxUsernameLength then [FieldError("username", UsernameTooLong)] else [])
  }

  /** The password's errors, on its trimmed value: blank, or shorter than 8. */
  function PasswordErrors(value: string): (r: seq<FieldError>)
    ensures r == [] <==> |value| >= MinPasswordLength
    ensures value == "" ==> r == [FieldError("password", BlankField)]
    ensures value != "" && |value| < MinPasswordLength ==> r == [FieldError("password", TooShort)]
  {
    if value == "" then [FieldError("password", BlankField)]
    else if |value| < MinPasswordLength then [FieldError("password", TooShort)]
    else []
  }

  /**
   * The field-level errors, in field order, on the cleaned values: the
   * username's, the email's, the password's, and a blank confirmation.
   */
  function FieldErrors(d: Db, reg: Registration, wellFormed: string -> bool, usernameChars: string -> bool): (r: seq<FieldError>)
    ensures var c := Cleaned(reg);
            r == [] <==>
              && c.username != "" && usernameChars(c.username) && |c.username| <= MaxUsernameLength
              && |UsersNamed(d, c.username)| == 0
              && ValidateEmail(d.users, c.email, wellFormed).Ok?
              && |c.password| >= MinPasswordLength
              && c.password2 != ""
  {
    var c := Cleaned(reg);
    UsernameErrors(d, c.username, usernameChars)
    + (if ValidateEmail(d.users, c.email, wellFormed).Err? then [FieldError("email", ValidateEmail(d.users, c.email, wellFormed).error)] else [])
    + PasswordErrors(c.password)
    + (if c.password2 == "" then [FieldError("password2", BlankField)] else [])
  }

  /** `validate`: the two password entries must match; the error is reported on `password2`. */
  function ValidatePasswords(reg: Registration): (r: Result<Registration, FieldError>)
    ensures r.Ok? <==> reg.password == reg.password2
    ensures r.Ok? ==> r.value == reg
    ensures r.Err? ==> r.error == FieldError("password2", Mismatch)
  {
    if reg.password != reg.password2 then Err(FieldError("password2", Mismatch)) else Ok(reg)
  }

  /**
   * The framework's `normalize_email`, which `create_user` and
   * `create_superuser` apply before storing: the address is stripped and the
   * part after its last '@' lower-cased; an address without '@' is kept
   * exactly as given, unstripped.
   */
  function NormalizeEmail(email: string): (r: string)
    ensures '@' !in Strip(email, Python) ==> r == email
  {
    var t := Strip(email, Python);
    match LastIndex(t, '@')
    case None => email
    case Some(k) => t[..k] + "@" + Lower(t[k + 1..])
  }

  /** Normalising changes only the case of the domain: the local part is kept and the address equals the stripped one ignoring case. */
  lemma NormalizeEmailCaseOnly(email: string)
    requires '@' in Strip(email, Python)
    ensures var t := Strip(email, Python);
            var k := LastIndex(t, '@').value;
            && |NormalizeEmail(email)| == |t|
            && NormalizeEmail(email)[..k] == t[..k]
            && Lower(NormalizeEmail(email)) == Lower(t)
  {
    var t := Strip(email, Python);
    var k := LastIndex(t, '@').value;
    var r := NormalizeEmail(email);
    assert r == t[..k] + "@" + Lower(t[k + 1..]);
    forall i | 0 <= i < |t| ensures Lower(r)[i] == Lower(t)[i] {
      if i > k {
        assert r[i] == LowerChar(t[i]);
      } else {
        assert r[i] == t[i];
      }
    }
  }

  /** On a trimmed address the strip does nothing, so only the cut at the last '@' decides. */
  lemma NormalizeTrimmed(e: string)
    requires Trimmed(e, Python)
    ensures LastIndex(e, '@').None? ==> NormalizeEmail(e) == e
    ensures LastIndex(e, '@').Some? ==>
              var k := LastIndex(e, '@').value;
              NormalizeEmail(e) == e[..k] + "@" + Lower(e[k + 1..])
  {
    StripTrimmed(e, Python);
  }

  /** An address that is already trimmed and lower-case is stored as it is. */
  lemma NormalizedEmailKept(e: string)
    requires Trimmed(e, Python) && IsLower(e)
    ensures NormalizeEmail(e) == e
  {
    NormalizeTrimmed(e);
    var k := LastIndex(e, '@');
    if k.Some? {
      LowerSuffixKept(e, k.value + 1);
      CutAround(e, k.value);
    }
  }

  /**
   * `normalize_email` on an address read from the environment: the white
   * space is dropped, the domain lower-cased and the local part kept.
   */
  lemma NormalizeEmailExample()
    ensures NormalizeEmail(" A@X") == "A@x"
  {
    var t := " A@X";
    assert IsSpace(Python, t[0]) && !IsSpace(Python, t[1]) && !IsSpace(Python, t[3]);
    assert StripLeft(t, Python) == "A@X";
    assert Strip(t, Python) == "A@X";
    assert LastIndex("A@X", '@') == Some(1);
    assert Lower("X") == [LowerChar('X')] == "x";
  }

  /**
   * The account `create_user` makes from validated data: the username in the
   * framework's normal form (`normalize`, Unicode NFKC), the email through
   * `normalize_email`, the password hashed and the names '' by default;
   * `password2` is not used.
   */
  function NewAccount(reg: Registration, email: string, normalize: string -> string, hash: string -> string): User {
    User(normalize(reg.username), NormalizeEmail(email), hash(reg.password), reg.firstName.GetOr(""), reg.lastName.GetOr(""), false)
  }

  /**
   * Why a registration fails: a 400 carrying the field errors, or the unique
   * username column refusing the insert, an IntegrityError the view does not
   * catch.
   */
  datatype RegisterError = BadRequest(errors: seq<FieldError>) | IntegrityError

  /** Every field check and the cross-field check pass on the cleaned request. */
  predicate Acceptable(d: Db, c: Registration, wellFormed: string -> bool, usernameChars: string -> bool) {
    && c.username != "" && usernameChars(c.username) && |c.username| <= MaxUsernameLength
    && |UsersNamed(d, c.username)| == 0
    && ValidateEmail(d.users, c.email, wellFormed).Ok?
    && |c.password| >= MinPasswordLength
    && c.password == c.password2
  }

  /**
   * The whole registration: the fields are cleaned, then the field errors,
   * then the cross-field check, all on the cleaned values; then `create_user`
   * inserts the account under its normal-form name, which the unique column
   * refuses when that name is taken.
   */
  function Register(d: Db, reg: Registration, wellFormed: string -> bool, usernameChars: string -> bool,
                    normalize: string -> string, hash: string -> string): Result<Db, RegisterError> {
    var c := Cleaned(reg);
    var errors := FieldErrors(d, reg, wellFormed, usernameChars);
    if errors != [] then Err(BadRequest(errors))
    else match ValidatePasswords(c)
      case Err(e) => Err(BadRequest([e]))
      case Ok(_) =>
        var u := NewAccount(c, ValidateEmail(d.users, c.email, wellFormed).value, normalize, hash);
        if |UsersNamed(d, u.username)| > 0 then Err(IntegrityError)
        else Ok(WithUser(d, u, EmptyProfile))
  }

  /**
   * A registration succeeds exactly when every check passes on the trimmed
   * request and the username's normal form is free; when the checks pass but
   * the normal form is taken (a full-width "ｆｏｏ" beside "foo") the insert
   * raises. The new account stores the normal form of the trimmed username,
   * the trimmed names (empty when none were sent), the lower-cased trimmed
   * email and the hash of the trimmed password, and is no superuser; the
   * confirmation is never stored.
   */
  lemma RegisterOutcome(d: Db, reg: Registration, wellFormed: string -> bool, usernameChars: string -> bool,
                        normalize: string -> string, hash: string -> string, other: string)
    ensures var c := Cleaned(reg);
            Register(d, reg, wellFormed, usernameChars, normalize, hash).Ok? <==>
              Acceptable(d, c, wellFormed, usernameChars) && |UsersNamed(d, normalize(c.username))| == 0
    ensures var c := Cleaned(reg);
            Register(d, reg, wellFormed, usernameChars, normalize, hash) == Err(IntegrityError) <==>
              Acceptable(d, c, wellFormed, usernameChars) && |UsersNamed(d, normalize(c.username))| > 0
    ensures Register(d, reg, wellFormed, usernameChars, normalize, hash).Ok? ==>
              var u := Register(d, reg, wellFormed, usernameChars, normalize, hash).value.users[d.nextUserId];
              && u.username == normalize(Strip(reg.username, Python))
              && u.email == Lower(Strip(reg.email.value, Python))
              && u.firstName == (if reg.firstName.Some? then Strip(reg.firstName.value, Python) else "")
              && u.lastName == (if reg.lastName.Some? then Strip(reg.lastName.value, Python) else "")
              && !u.isSuperuser && u.passwordHash == hash(Strip(reg.password, Python))
    ensures NewAccount(reg, other, normalize, hash) == NewAccount(reg.(password2 := other), other, normalize, hash)
  {
    var c := Cleaned(reg);
    if Acceptable(d, c, wellFormed, usernameChars) {
      var email := ValidateEmail(d.users, c.email, wellFormed).value;
      assert email == Lower(c.email.value);
      LowerKeepsTrimmed(c.email.value, Python);
      LowerIsLower(c.email.value);
      NormalizedEmailKept(email);
      var u := NewAccount(c, email, normalize, hash);
      assert u.email == email;
      assert Register(d, reg, wellFormed, usernameChars, normalize, hash) ==
             if |UsersNamed(d, u.username)| > 0 then Err(IntegrityError) else Ok(WithUser(d, u, EmptyProfile));
    }
  }

  /** Registration sees only the trimmed request: sending the cleaned values instead gives the same outcome. */
  lemma RegisterSeesCleaned(d: Db, reg: Registration, wellFormed: string -> bool, usernameChars: string -> bool,
                            normalize: string -> string, hash: string -> string)
    ensures Register(d, Cleaned(reg), wellFormed, usernameChars, normalize, hash) == Register(d, reg, wellFormed, usernameChars, normalize, hash)
  {
    var c := Cleaned(reg);
    CleanedIdempotent(reg);
    assert FieldErrors(d, c, wellFormed, usernameChars) == FieldErrors(d, reg, wellFormed, usernameChars);
  }

  /** A username that is taken once trimmed is refused, whatever white space surrounds it. */
  lemma PaddedNameTaken(d: Db, reg: Registration, wellFormed: string -> bool, usernameChars: string -> bool,
                        normalize: string -> string, hash: string -> string, k: nat)
    requires k in d.users && k < d.nextUserId && d.users[k].username == Strip(reg.username, Python) != ""
    ensures Register(d, reg, wellFormed, usernameChars, normalize, hash).Err?
    ensures Register(d, reg, wellFormed, usernameChars, normalize, hash).error.BadRequest?
    ensures FieldError("username", UsernameTaken) in Register(d, reg, wellFormed, usernameChars, normalize, hash).error.errors
  {
    var c := Cleaned(reg);
    assert k in UsersNamed(d, c.username);
    var u := UsernameErrors(d, c.username, usernameChars);
    var errors := FieldErrors(d, reg, wellFormed, usernameChars);
    assert errors[..|u|] == u;
  }

  /** A successful registration keeps the database consistent and the usernames distinct. */
  lemma RegisterKeepsInvariants(d: Db, reg: Registration, wellFormed: string -> bool, usernameChars: string -> bool,
                                normalize: string -> string, hash: string -> string)
    requires Consistent(d) && UsernamesUnique(d.users)
    requires Register(d, reg, wellFormed, usernameChars, normalize, hash).Ok?
    ensures Consistent(Register(d, reg, wellFormed, usernameChars, normalize, hash).value)
    ensures UsernamesUnique(Register(d, reg, wellFormed, usernameChars, normalize, hash).value.users)
  {
    var c := Cleaned(reg);
    var u := NewAccount(c, ValidateEmail(d.users, c.email, wellFormed).value, normalize, hash);
    assert Register(d, reg, wellFormed, usernameChars, normalize, hash).value == WithUser(d, u, EmptyProfile);
    CreatedUserGetsOneProfile(d, u);
    NewNameKeepsUnique(d, u);
  }

  /**
   * `create` on validated data held as a dictionary: `password2` is popped
   * and `create_user` inserts the account under the next id, which the signal
   * gives its profile; the unique username column refuses the insert (None,
   * nothing written) when the normal-form name is taken. Returns the new
   * user's id.
   */
  method Create(db: Store, validated: map<string, string>, normalize: string -> string, hash: string -> string) returns (r: Option<nat>)
    requires db.Valid()
    requires "username" in validated && "email" in validated && "password" in validated
    modifies db
    ensures var u := UserFrom(validated - {"password2"}, normalize, hash);
            && (r.None? <==> |UsersNamed(old(db.Rows()), u.username)| > 0)
            && (r.None? ==> db.Rows() == old(db.Rows()))
            && (r.Some? ==> r.value == old(db.nextUserId) && db.Rows() == WithUser(old(db.Rows()), u, EmptyProfile))
    ensures db.outbox == old(db.outbox)
    ensures db.Valid()
  {
    var u := UserFrom(validated - {"password2"}, normalize, hash);
    var taken := UsersNamed(db.Rows(), u.username);
    if |taken| > 0 {
      return None;
    }
    var id := SaveUser(db, u);
    r := Some(id);
  }

  /**
   * `save` of a new user: the row goes in under the next id and the
   * `post_save` signal then gives it its empty profile.
   */
  method SaveUser(db: Store, u: User) returns (id: nat)
    requires db.Valid()
    modifies db
    ensures id == old(db.nextUserId) && db.Rows() == WithUser(old(db.Rows()), u, EmptyProfile)
    ensures db.outbox == old(db.outbox)
    ensures db.Valid()
  {
    CreatedUserGetsOneProfile(db.Rows(), u);
    id := db.nextUserId;
    db.users := db.users[id := u];
    db.nextUserId := id + 1;
    var signal := OnUserSaved(db.Rows(), id, true);
    db.profiles := signal.value.profiles;
  }

  /** The confirmation entry plays no part in the account `create` makes. */
  lemma CreateIgnoresConfirmation(validated: map<string, string>, other: string, normalize: string -> string, hash: string -> string)
    requires "username" in validated && "email" in validated && "password" in validated
    ensures UserFrom(validated - {"password2"}, normalize, hash) == UserFrom(validated[("password2") := other] - {"password2"}, normalize, hash)
    ensures UserFrom(validated - {"password2"}, normalize, hash).firstName == (if "first_name" in validated then validated["first_name"] else "")
    ensures !UserFrom(validated - {"password2"}, normalize, hash).isSuperuser
  {
    assert validated - {"password2"} == validated[("password2") := other] - {"password2"};
  }

  /** The account `create_user` builds from a validated dictionary. */
  function UserFrom(data: map<string, string>, normalize: string -> string, hash: string -> string): User
    requires "username" in data && "email" in data && "password" in data
  {
    User(normalize(data["username"]), NormalizeEmail(data["email"]), hash(data["password"]),
         if "first_name" in data then data["first_name"] else "",
         if "last_name" in data then data["last_name"] else "", false)
  }

  /**
   * The `validated_data` dictionary a successful registration hands to
   * `create`: the cleaned fields under their request names, the email as
   * `validate_email` returned it, and the names only when they were sent.
   */
  function ValidatedData(reg: Registration, email: string): (r: map<string, string>)
    ensures "username" in r && "email" in r && "password" in r && "password2" in r
  {
    var base := map["username" := reg.username, "email" := email, "password" := reg.password, "password2" := reg.password2];
    var withFirst := if reg.firstName.Some? then base["first_name" := reg.firstName.value] else base;
    if reg.lastName.Some? then withFirst["last_name" := reg.lastName.value] else withFirst
  }

  /** `create` on the validated dictionary builds the account `NewAccount` describes. */
  lemma NewAccountIsUserFrom(reg: Registration, email: string, normalize: string -> string, hash: string -> string)
    ensures UserFrom(ValidatedData(reg, email) - {"password2"}, normalize, hash) == NewAccount(reg, email, normalize, hash)
  {
    var data := ValidatedData(reg, email) - {"password2"};
    assert data["username"] == reg.username && data["email"] == email && data["password"] == reg.password;
    assert ("first_name" in data) == reg.firstName.Some? && ("last_name" in data) == reg.lastName.Some?;
    assert reg.firstName.Some? ==> data["first_name"] == reg.firstName.value;
    assert reg.lastName.Some? ==> data["last_name"] == reg.lastName.value;
  }

  /**
   * The account a successful registration stores is the one `create` builds
   * from the validated dictionary: one account, however it is reached.
   */
  lemma RegisterIsCreate(d: Db, reg: Registration, wellFormed: string -> bool, usernameChars: string -> bool,
                         normalize: string -> string, hash: string -> string)
    ensures Register(d, reg, wellFormed, usernameChars, normalize, hash).Ok? ==>
              var c := Cleaned(reg);
              var data := ValidatedData(c, ValidateEmail(d.users, c.email, wellFormed).value);
              Register(d, reg, wellFormed, usernameChars, normalize, hash).value == WithUser(d, UserFrom(data - {"password2"}, normalize, hash), EmptyProfile)
  {
    if Register(d, reg, wellFormed, usernameChars, normalize, hash).Ok? {
      var c := Cleaned(reg);
      var email := ValidateEmail(d.users, c.email, wellFormed).value;
      assert Register(d, reg, wellFormed, usernameChars, normalize, hash).value == WithUser(d, NewAccount(c, email, normalize, hash), EmptyProfile);
      NewAccountIsUserFrom(c, email, normalize, hash);
    }
  }

  // ---------------------------------------------------------------------
  // The superuser bootstrap migration
  // ---------------------------------------------------------------------

  /** The three credentials read from the environment; None is an unset variable. */
  datatype Credentials = Credentials(name: Option<string>, email: Option<string>, password: Option<string>)

  const AdminCompany := "Platform Admin"

  predicate Complete(env: Credentials) {
    Truthy(env.name) && Truthy(env.email) && Truthy(env.password)
  }

  /** The account `create_superuser` makes: normal-form name, normalised email, hashed password, no names. */
  function Superuser(env: Credentials, normalize: string -> string, hash: string -> string): User
    requires Complete(env)
  {
    User(normalize(env.name.value), NormalizeEmail(env.email.value), hash(env.password.value), "", "", true)
  }

  /**
   * `create_superuser` as a function of the tables: with all three
   * credentials set and no user of the name as given, the superuser is
   * created under the name's normal form with a "Platform Admin" profile,
   * and the migration fails (None) when that normal form is already taken;
   * an existing user of the name without a profile gets one; otherwise
   * nothing changes. The migration's historical models fire no signal, so
   * the profile comes only from the migration itself.
   */
  function Bootstrap(d: Db, env: Credentials, normalize: string -> string, hash: string -> string): Option<Db> {
    if !Complete(env) then Some(d)
    else
      var ids := UsersNamed(d, env.name.value);
      if |ids| == 0 then
        var u := Superuser(env, normalize, hash);
        if |UsersNamed(d, u.username)| > 0 then None
        else Some(WithUser(d, u, NamedProfile(AdminCompany)))
      else if ids[0] in d.profiles then Some(d)
      else Some(d.(profiles := d.profiles[ids[0] := NamedProfile(AdminCompany)]))
  }

  /**
   * The migration run in place: a chain of existence checks and creates.
   * `ok` is false when the insert is refused, and then nothing is written.
   */
  method CreateSuperuser(db: Store, env: Credentials, normalize: string -> string, hash: string -> string) returns (ok: bool)
    requires db.Valid()
    modifies db
    ensures ok <==> Bootstrap(old(db.Rows()), env, normalize, hash).Some?
    ensures ok ==> db.Rows() == Bootstrap(old(db.Rows()), env, normalize, hash).value
    ensures !ok ==> db.Rows() == old(db.Rows())
    ensures db.outbox == old(db.outbox)
    ensures db.Valid()
  {
    ghost var d := db.Rows();
    ok := true;
    if Complete(env) {
      var ids := UsersNamed(db.Rows(), env.name.value);
      if |ids| == 0 {
        var u := Superuser(env, normalize, hash);
        var taken := UsersNamed(db.Rows(), u.username);
        if |taken| > 0 {
          return false;
        }
        InsertWithProfile(db, u, NamedProfile(AdminCompany));
      } else {
        var uid := ids[0];
        if uid !in db.profiles {
          ProfileAddedConsistent(d, uid);
          db.profiles := db.profiles[uid := NamedProfile(AdminCompany)];
        }
      }
    }
  }

  /** `User.objects.create_superuser` followed by `SellerProfile.objects.create`: the user under the next id, then its profile. */
  method InsertWithProfile(db: Store, u: User, p: SellerProfile)
    requires db.Valid()
    modifies db
    ensures db.Rows() == WithUser(old(db.Rows()), u, p) && db.outbox == old(db.outbox)
    ensures db.Valid()
  {
    WithUserConsistent(db.Rows(), u, p);
    var id := db.nextUserId;
    db.users := db.users[id := u];
    db.nextUserId := id + 1;
    db.profiles := db.profiles[id := p];
  }

  /** Without all three credentials the migration changes nothing. */
  lemma BootstrapNeedsCredentials(d: Db, env: Credentials, normalize: string -> string, hash: string -> string)
    requires !Truthy(env.name) || !Truthy(env.email) || !Truthy(env.password)
    ensures Bootstrap(d, env, normalize, hash) == Some(d)
  {
  }

  /** After inserting a user whose name nobody had, the name lookup finds just that user. */
  lemma NewNameFound(d: Db, u: User, p: SellerProfile)
    requires |UsersNamed(d, u.username)| == 0
    ensures UsersNamed(WithUser(d, u, p), u.username) == [d.nextUserId]
  {
    var e := WithUser(d, u, p);
    var id := d.nextUserId;
    var r: seq<nat> := UsersNamed(e, u.username);
    NewNameOnly(d, u, p);
    AscendingSingleton(r, id);
  }

  /** After that insert, every user the lookup finds is the new one, and the new one is found. */
  lemma NewNameOnly(d: Db, u: User, p: SellerProfile)
    requires |UsersNamed(d, u.username)| == 0
    ensures var r := UsersNamed(WithUser(d, u, p), u.username);
            d.nextUserId in r && forall i :: 0 <= i < |r| ==> r[i] == d.nextUserId
  {
    var e := WithUser(d, u, p);
    var id := d.nextUserId;
    var r: seq<nat> := UsersNamed(e, u.username);
    assert HasUsername(u.username)(id, e.users[id]);
    forall i | 0 <= i < |r| ensures r[i] == id {
      var k := r[i];
      if k != id {
        assert false;
      }
    }
  }

  /** A name lookup does not look at profiles. */
  lemma NamesIgnoreProfiles(d: Db, name: string, profiles: map<nat, SellerProfile>)
    ensures UsersNamed(d.(profiles := profiles), name) == UsersNamed(d, name)
  {
  }

  /** After inserting a user of another name, a name nobody had is still nobody's. */
  lemma OtherNameStillFree(d: Db, u: User, p: SellerProfile, name: string)
    requires |UsersNamed(d, name)| == 0 && u.username != name
    ensures |UsersNamed(WithUser(d, u, p), name)| == 0
  {
    var e := WithUser(d, u, p);
    forall k | k in e.users && k < e.nextUserId ensures !HasUsername(name)(k, e.users[k]) {
      if k != d.nextUserId {
        assert k in d.users && k < d.nextUserId && k !in UsersNamed(d, name);
      }
    }
    KeysAscNone(e.users, e.nextUserId, HasUsername(name));
  }

  /**
   * With no user of the name as given and its normal form free, the
   * migration creates the superuser under the next id with a "Platform
   * Admin" profile, leaves every other row alone, and the normal form then
   * finds just the new user.
   */
  lemma BootstrapCreates(d: Db, env: Credentials, normalize: string -> string, hash: string -> string)
    requires Complete(env) && |UsersNamed(d, env.name.value)| == 0
    requires |UsersNamed(d, normalize(env.name.value))| == 0
    ensures Bootstrap(d, env, normalize, hash).Some?
    ensures var e := Bootstrap(d, env, normalize, hash).value;
            && e.users == d.users[d.nextUserId := Superuser(env, normalize, hash)]
            && e.profiles == d.profiles[d.nextUserId := NamedProfile(AdminCompany)]
            && e.users[d.nextUserId].isSuperuser
            && UsersNamed(e, normalize(env.name.value)) == [d.nextUserId]
  {
    NewNameFound(d, Superuser(env, normalize, hash), NamedProfile(AdminCompany));
  }

  /** With no user of the name as given but its normal form taken, the insert is refused and the migration fails. */
  lemma BootstrapClashFails(d: Db, env: Credentials, normalize: string -> string, hash: string -> string)
    requires Complete(env) && |UsersNamed(d, env.name.value)| == 0
    requires |UsersNamed(d, normalize(env.name.value))| > 0
    ensures Bootstrap(d, env, normalize, hash).None?
  {
  }

  /** With a user of that name but no profile, only the profile is added. */
  lemma BootstrapAddsProfile(d: Db, env: Credentials, normalize: string -> string, hash: string -> string)
    requires Complete(env) && |UsersNamed(d, env.name.value)| > 0
    requires UsersNamed(d, env.name.value)[0] !in d.profiles
    ensures Bootstrap(d, env, normalize, hash) == Some(d.(profiles := d.profiles[UsersNamed(d, env.name.value)[0] := NamedProfile(AdminCompany)]))
  {
  }

  /** With a user of that name who has a profile, nothing changes. */
  lemma BootstrapKeepsExisting(d: Db, env: Credentials, normalize: string -> string, hash: string -> string)
    requires Complete(env) && |UsersNamed(d, env.name.value)| > 0
    requires UsersNamed(d, env.name.value)[0] in d.profiles
    ensures Bootstrap(d, env, normalize, hash) == Some(d)
  {
  }

  /**
   * With the credentials set: a name already in normal form never makes the
   * migration fail; after a run that did not fail, the account it is about
   * exists with a profile, found by the name when a user had it and by its
   * normal form otherwise; and a name not in normal form that nobody had is
   * still found by nobody.
   */
  lemma BootstrapLeavesProfile(d: Db, env: Credentials, normalize: string -> string, hash: string -> string)
    requires Complete(env)
    ensures normalize(env.name.value) == env.name.value ==> Bootstrap(d, env, normalize, hash).Some?
    ensures Bootstrap(d, env, normalize, hash).Some? ==>
              var e := Bootstrap(d, env, normalize, hash).value;
              var ids := UsersNamed(e, if |UsersNamed(d, env.name.value)| > 0 then env.name.value else normalize(env.name.value));
              |ids| > 0 && ids[0] in e.profiles
    ensures Bootstrap(d, env, normalize, hash).Some? && |UsersNamed(d, env.name.value)| == 0 && normalize(env.name.value) != env.name.value ==>
              |UsersNamed(Bootstrap(d, env, normalize, hash).value, env.name.value)| == 0
  {
    var name := env.name.value;
    if |UsersNamed(d, name)| == 0 {
      if |UsersNamed(d, normalize(name))| == 0 {
        BootstrapCreates(d, env, normalize, hash);
        if normalize(name) != name {
          OtherNameStillFree(d, Superuser(env, normalize, hash), NamedProfile(AdminCompany), name);
        }
      }
    } else if UsersNamed(d, name)[0] !in d.profiles {
      NamesIgnoreProfiles(d, name, d.profiles[UsersNamed(d, name)[0] := NamedProfile(AdminCompany)]);
    }
  }

  /**
   * Running the migration a second time after a run that did not fail
   * changes nothing, except when the first run created the superuser under
   * a normal form different from the name as given: the second run's lookup
   * by that name misses, and its insert of the normal form is refused.
   */
  lemma BootstrapIdempotent(d: Db, env: Credentials, normalize: string -> string, hash: string -> string)
    ensures var r := Bootstrap(d, env, normalize, hash);
            r.Some? && (!Complete(env) || normalize(env.name.value) == env.name.value || |UsersNamed(d, env.name.value)| > 0) ==>
              Bootstrap(r.value, env, normalize, hash) == r
    ensures var r := Bootstrap(d, env, normalize, hash);
            r.Some? && Complete(env) && normalize(env.name.value) != env.name.value && |UsersNamed(d, env.name.value)| == 0 ==>
              Bootstrap(r.value, env, normalize, hash).None?
  {
    var r := Bootstrap(d, env, normalize, hash);
    if Complete(env) && r.Some? {
      var name := env.name.value;
      var e := r.value;
      BootstrapLeavesProfile(d, env, normalize, hash);
      if |UsersNamed(d, name)| > 0 || normalize(name) == name {
        BootstrapKeepsExisting(e, env, normalize, hash);
      } else {
        BootstrapCreates(d, env, normalize, hash);
        BootstrapClashFails(e, env, normalize, hash);
      }
    }
  }

  /** The migration keeps the database consistent. */
  lemma BootstrapConsistent(d: Db, env: Credentials, normalize: string -> string, hash: string -> string)
    requires Consistent(d)
    ensures Bootstrap(d, env, normalize, hash).Some? ==> Consistent(Bootstrap(d, env, normalize, hash).value)
  {
    if Complete(env) {
      var ids := UsersNamed(d, env.name.value);
      if |ids| == 0 {
        WithUserConsistent(d, Superuser(env, normalize, hash), NamedProfile(AdminCompany));
      } else if ids[0] !in d.profiles {
        BootstrapAddsProfile(d, env, normalize, hash);
        ProfileAddedConsistent(d, ids[0]);
      } else {
        BootstrapKeepsExisting(d, env, normalize, hash);
      }
    }
  }

  /** The migration never creates a second user of a name. */
  lemma BootstrapUsernamesUnique(d: Db, env: Credentials, normalize: string -> string, hash: string -> string)
    requires UsernamesUnique(d.users) && forall k :: k in d.users ==> k < d.nextUserId
    ensures Bootstrap(d, env, normalize, hash).Some? ==> UsernamesUnique(Bootstrap(d, env, normalize, hash).value.users)
  {
    if Complete(env) {
      var name := env.name.value;
      var ids := UsersNamed(d, name);
      if |ids| == 0 {
        if |UsersNamed(d, normalize(name))| == 0 {
          BootstrapCreates(d, env, normalize, hash);
          NewNameKeepsUnique(d, Superuser(env, normalize, hash));
        }
      } else if ids[0] !in d.profiles {
        BootstrapAddsProfile(d, env, normalize, hash);
      } else {
        BootstrapKeepsExisting(d, env, normalize, hash);
      }
    }
  }

  /** Adding a user under the next id whose name nobody has keeps the usernames distinct. */
  lemma NewNameKeepsUnique(d: Db, u: User)
    requires UsernamesUnique(d.users) && forall k :: k in d.users ==> k < d.nextUserId
    requires |UsersNamed(d, u.username)| == 0
    ensures UsernamesUnique(d.users[d.nextUserId := u])
  {
    var users := d.users[d.nextUserId := u];
    forall a, b | a in users && b in users && a != b ensures users[a].username != users[b].username {
      if a != d.nextUserId && b != d.nextUserId {
        assert users[a] == d.users[a] && users[b] == d.users[b];
      } else if a == d.nextUserId {
        assert b in d.users && b < d.nextUserId && !HasUsername(u.username)(b, d.users[b]);
      } else {
        assert a in d.users && a < d.nextUserId && !HasUsername(u.username)(a, d.users[a]);
      }
    }
  }

  /** Giving an existing user a profile keeps the database consistent. */
  lemma ProfileAddedConsistent(d: Db, uid: nat)
    requires Consistent(d) && uid in d.users
    ensures Consistent(d.(profiles := d.profiles[uid := NamedProfile(AdminCompany)]))
  {
    var e := d.(profiles := d.profiles[uid := NamedProfile(AdminCompany)]);
    forall k | k in e.orders ensures OrderConsistent(e, e.orders[k]) {
      assert OrderConsistent(d, d.orders[k]);
    }
  }
}
