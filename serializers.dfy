/**
 * `RegisterSerializer`: the field constraints it declares, its `validate`
 * step and its `create` step.
 */
module Serializers {
  import opened Wrappers
  import opened Text
  import opened Wire
  import opened Models
  import opened Database

  /** `min_length` of `password` and `password2`. */
  const PasswordMinLength := 8

  const RequiredMessage := "This field is required."
  const BlankMessage := "This field may not be blank."
  const PasswordMinLengthMessage := "Ensure this field has at least " + NatString(PasswordMinLength) + " characters."
  const MismatchMessage := "Passwords do not match"
  const UsernameTakenMessage := "A user with that username already exists."

  /** The JSON body of `POST /register/`: each key is absent or holds a string. */
  datatype RegisterRequest = RegisterRequest(
    username: Option<string>, email: Option<string>, password: Option<string>,
    password2: Option<string>, firstName: Option<string>, lastName: Option<string>)

  /** The outcome of validating one field. */
  datatype FieldCheck = Passed(value: string) | Omitted | Refused(messages: seq<string>)

  /**
   * A character field: a missing required key is an error and the value is
   * trimmed. A blank value is an error unless blanks are allowed, in which
   * case it is accepted as '' without the length check; any other value
   * shorter than `minLength` is an error.
   */
  function CheckCharField(v: Option<string>, required: bool, allowBlank: bool, minLength: nat): (r: FieldCheck)
    ensures r.Passed? <==> v.Some? && (Strip(v.value) == "" ==> allowBlank) && (Strip(v.value) != "" ==> |Strip(v.value)| >= minLength)
    ensures r.Passed? ==> r.value == Strip(v.value)
    ensures r.Omitted? <==> v.None? && !required
    ensures r.Refused? ==> |r.messages| == 1
  {
    if v.None? then (if required then Refused([RequiredMessage]) else Omitted)
    else
      var t := Strip(v.value);
      if t == "" then (if allowBlank then Passed("") else Refused([BlankMessage]))
      else if |t| < minLength then Refused(["Ensure this field has at least " + NatString(minLength) + " characters."])
      else Passed(t)
  }

  /** The entry a field contributes to the `errors` object. */
  function ErrorEntry(name: string, c: FieldCheck): (r: FieldErrors)
    ensures r == [] <==> !c.Refused?
  {
    if c.Refused? then [(name, c.messages)] else []
  }

  /** The entry an optional field contributes to `validated_data`. */
  function OptionalEntry(name: string, c: FieldCheck): (r: map<string, string>)
    ensures name in r <==> c.Passed?
    ensures r.Keys <= {name}
  {
    if c.Passed? then map[name := c.value] else map[]
  }

  /**
   * `is_valid()` given the usernames in use: every field is checked, and the errors are listed in
   * declaration order; only when every field passes does `validate` compare
   * the two passwords. `validated_data` holds the trimmed values, with the
   * names present only when they were sent.
   */
  function Validate(req: RegisterRequest, taken: set<string>): Result<map<string, string>, FieldErrors> {
    Assemble(
      CheckUsername(req.username, taken),
      CheckCharField(req.email, true, true, 0),
      CheckCharField(req.password, true, false, PasswordMinLength),
      CheckCharField(req.password2, true, false, PasswordMinLength),
      CheckCharField(req.firstName, false, true, 0),
      CheckCharField(req.lastName, false, true, 0))
  }

  /** The usernames already in use. */
  function UsernamesOf(users: map<int, User>): set<string> {
    set id | id in users :: users[id].username
  }

  /** `username`: a required character field that may not be blank, checked against the usernames in use. */
  function CheckUsername(v: Option<string>, taken: set<string>): (r: FieldCheck)
    ensures r.Passed? <==> v.Some? && Strip(v.value) != "" && Strip(v.value) !in taken
    ensures r.Passed? ==> r.value == Strip(v.value)
    ensures !r.Omitted?
  {
    var c := CheckCharField(v, true, false, 0);
    if c.Passed? && c.value in taken then Refused([UsernameTakenMessage]) else c
  }

  /** Combines the field checks into the errors object or into `validated_data`. */
  function Assemble(username: FieldCheck, email: FieldCheck, password: FieldCheck, password2: FieldCheck,
                    firstName: FieldCheck, lastName: FieldCheck): Result<map<string, string>, FieldErrors>
  {
    var errors := ErrorEntry("username", username) + ErrorEntry("email", email)
      + ErrorEntry("password", password) + ErrorEntry("password2", password2);
    if errors != [] || !username.Passed? || !email.Passed? || !password.Passed? || !password2.Passed? then
      Failure(errors)
    else if password.value != password2.value then Failure([("password", [MismatchMessage])])
    else Success(
      map["username" := username.value, "email" := email.value,
          "password" := password.value, "password2" := password2.value]
      + OptionalEntry("first_name", firstName) + OptionalEntry("last_name", lastName))
  }

  /** A password field passes on its own. */
  predicate PasswordOk(v: Option<string>) {
    v.Some? && |Strip(v.value)| >= PasswordMinLength
  }

  /**
   * Registration is accepted exactly when a username that is neither blank
   * nor in use and an email are given, both passwords have at least eight characters after
   * trimming, and they are equal.
   */
  lemma ValidateAcceptsExactly(req: RegisterRequest, taken: set<string>)
    ensures Validate(req, taken).Success? <==>
      && req.username.Some? && Strip(req.username.value) != "" && Strip(req.username.value) !in taken
      && req.email.Some?
      && PasswordOk(req.password) && PasswordOk(req.password2)
      && Strip(req.password.value) == Strip(req.password2.value)
  {
    var username := CheckUsername(req.username, taken);
    var email := CheckCharField(req.email, true, true, 0);
    var password := CheckCharField(req.password, true, false, PasswordMinLength);
    var password2 := CheckCharField(req.password2, true, false, PasswordMinLength);
    var errors := ErrorEntry("username", username) + ErrorEntry("email", email)
      + ErrorEntry("password", password) + ErrorEntry("password2", password2);
    assert errors == [] <==> username.Passed? && email.Passed? && password.Passed? && password2.Passed?;
    if errors == [] {
      assert Validate(req, taken).Success? <==> password.value == password2.value;
    }
  }

  /**
   * What is accepted always holds a username that is not blank, an email
   * and two equal passwords of at least eight characters.
   */
  lemma ValidatedDataComplete(req: RegisterRequest, taken: set<string>)
    requires Validate(req, taken).Success?
    ensures var d := Validate(req, taken).value;
      && "username" in d && d["username"] != "" && d["username"] !in taken && "email" in d
      && "password" in d && "password2" in d
      && |d["password"]| >= PasswordMinLength && d["password"] == d["password2"]
  {
    AssembledDataComplete(
      CheckUsername(req.username, taken),
      CheckCharField(req.email, true, true, 0),
      CheckCharField(req.password, true, false, PasswordMinLength),
      CheckCharField(req.password2, true, false, PasswordMinLength),
      CheckCharField(req.firstName, false, true, 0),
      CheckCharField(req.lastName, false, true, 0));
  }

  lemma AssembledDataComplete(username: FieldCheck, email: FieldCheck, password: FieldCheck, password2: FieldCheck,
                              firstName: FieldCheck, lastName: FieldCheck)
    requires Assemble(username, email, password, password2, firstName, lastName).Success?
    requires username.Passed? ==> username.value != ""
    requires password.Passed? ==> |password.value| >= PasswordMinLength
    ensures var d := Assemble(username, email, password, password2, firstName, lastName).value;
      && "username" in d && d["username"] == username.value && d["username"] != ""
      && "email" in d && "password" in d && "password2" in d
      && |d["password"]| >= PasswordMinLength && d["password"] == d["password2"]
  {
    var extra := OptionalEntry("first_name", firstName) + OptionalEntry("last_name", lastName);
    assert extra.Keys <= {"first_name", "last_name"};
  }

  /** A password shorter than eight characters after trimming is reported under `password`. */
  lemma ShortPasswordRejected(req: RegisterRequest, taken: set<string>)
    requires req.password.Some? && 0 < |Strip(req.password.value)| < PasswordMinLength
    ensures Validate(req, taken).Failure?
    ensures ("password", [PasswordMinLengthMessage]) in Validate(req, taken).error
  {
  }

  /** Once a username is registered, the same request is refused. */
  lemma RegisteringTwiceRejected(req: RegisterRequest, taken: set<string>)
    requires Validate(req, taken).Success?
    ensures Validate(req, taken + {Validate(req, taken).value["username"]}).Failure?
  {
    ValidatedDataComplete(req, taken);
    AssembledDataComplete(
      CheckUsername(req.username, taken),
      CheckCharField(req.email, true, true, 0),
      CheckCharField(req.password, true, false, PasswordMinLength),
      CheckCharField(req.password2, true, false, PasswordMinLength),
      CheckCharField(req.firstName, false, true, 0),
      CheckCharField(req.lastName, false, true, 0));
  }

  /** An absent email is reported as required. */
  lemma MissingEmailRejected(req: RegisterRequest, taken: set<string>)
    requires req.email.None?
    ensures Validate(req, taken).Failure?
    ensures ("email", [RequiredMessage]) in Validate(req, taken).error
  {
  }

  /** Fields that pass on their own but differ in password give exactly the mismatch error. */
  lemma MismatchRejected(req: RegisterRequest, taken: set<string>)
    requires req.username.Some? && Strip(req.username.value) != "" && Strip(req.username.value) !in taken
    requires req.email.Some?
    requires PasswordOk(req.password) && PasswordOk(req.password2)
    requires Strip(req.password.value) != Strip(req.password2.value)
    ensures Validate(req, taken) == Failure([("password", [MismatchMessage])])
  {
    var username := CheckUsername(req.username, taken);
    var email := CheckCharField(req.email, true, true, 0);
    var password := CheckCharField(req.password, true, false, PasswordMinLength);
    var password2 := CheckCharField(req.password2, true, false, PasswordMinLength);
    AssembleMismatch(username, email, password, password2,
      CheckCharField(req.firstName, false, true, 0), CheckCharField(req.lastName, false, true, 0));
  }

  /** Four passing required fields whose passwords differ assemble to the mismatch error alone. */
  lemma AssembleMismatch(username: FieldCheck, email: FieldCheck, password: FieldCheck, password2: FieldCheck,
                         firstName: FieldCheck, lastName: FieldCheck)
    requires username.Passed? && email.Passed? && password.Passed? && password2.Passed?
    requires password.value != password2.value
    ensures Assemble(username, email, password, password2, firstName, lastName) == Failure([("password", [MismatchMessage])])
  {
    assert ErrorEntry("username", username) + ErrorEntry("email", email)
      + ErrorEntry("password", password) + ErrorEntry("password2", password2) == [];
  }

  /** Python's `str.lower` on the ASCII letters. */
  function LowerAscii(c: char): char {
    if 'A' <= c <= 'Z' then (c as int + 32) as char else c
  }

  function LowerText(s: string): (r: string)
    ensures |r| == |s| && forall i :: 0 <= i < |s| ==> r[i] == LowerAscii(s[i])
  {
    seq(|s|, i requires 0 <= i < |s| => LowerAscii(s[i]))
  }

  /** The index of the last '@' in `s`, if there is one. */
  function LastAt(s: string): (r: Option<nat>)
    ensures r.Some? ==> r.value < |s| && s[r.value] == '@' && forall j :: r.value < j < |s| ==> s[j] != '@'
    ensures r.None? ==> forall j :: 0 <= j < |s| ==> s[j] != '@'
  {
    if s == [] then None
    else if s[|s| - 1] == '@' then Some(|s| - 1)
    else LastAt(s[..|s| - 1])
  }

  /**
   * Django's `normalize_email`, applied by `create_user`: the trimmed
   * address is split at its last '@' and the domain is lower-cased; an
   * address without '@' is kept exactly as given.
   */
  function NormalizeEmail(e: string): string {
    var t := Strip(e);
    match LastAt(t)
    case None => e
    case Some(k) => t[..k + 1] + LowerText(t[k + 1..])
  }

  lemma LowerAsciiFacts(c: char)
    ensures LowerAscii(LowerAscii(c)) == LowerAscii(c)
    ensures LowerAscii(c) == '@' <==> c == '@'
    ensures IsSpace(LowerAscii(c)) <==> IsSpace(c)
  {
  }

  lemma LowerTextIdempotent(s: string)
    ensures LowerText(LowerText(s)) == LowerText(s)
  {
    forall i | 0 <= i < |s| ensures LowerText(LowerText(s))[i] == LowerText(s)[i] {
      LowerAsciiFacts(s[i]);
    }
  }

  /** Lower-casing the domain of an unspaced address leaves it unspaced. */
  lemma LoweredDomainUnspaced(t: string, k: nat, r: string)
    requires k < |t| && !IsSpace(t[0]) && !IsSpace(t[|t| - 1])
    requires r == t[..k + 1] + LowerText(t[k + 1..])
    ensures Strip(r) == r
  {
    var d := LowerText(t[k + 1..]);
    assert r[0] == t[0];
    if k + 1 < |t| {
      assert r[|r| - 1] == d[|d| - 1] == LowerAscii(t[|t| - 1]);
      LowerAsciiFacts(t[|t| - 1]);
    } else {
      assert r[|r| - 1] == t[|t| - 1];
    }
    StripUnspaced(r);
  }

  /** Lower-casing the domain adds no '@', so the last '@' stays where it was. */
  lemma LoweredDomainLastAt(t: string, k: nat, r: string)
    requires k < |t| && t[k] == '@' && forall j :: k < j < |t| ==> t[j] != '@'
    requires r == t[..k + 1] + LowerText(t[k + 1..])
    ensures LastAt(r) == Some(k)
  {
    var d := LowerText(t[k + 1..]);
    assert r[k] == '@';
    forall j | k < j < |r| ensures r[j] != '@' {
      assert r[j] == d[j - (k + 1)] == LowerAscii(t[j]);
      LowerAsciiFacts(t[j]);
    }
    var l := LastAt(r);
    assert l == Some(k);
  }

  lemma NormalizeEmailAt(e: string, k: nat)
    requires LastAt(Strip(e)) == Some(k)
    ensures NormalizeEmail(e) == Strip(e)[..k + 1] + LowerText(Strip(e)[k + 1..])
  {
  }

  /** Normalising the stored address again changes nothing. */
  lemma NormalizeEmailIdempotent(e: string)
    ensures NormalizeEmail(NormalizeEmail(e)) == NormalizeEmail(e)
  {
    var t := Strip(e);
    match LastAt(t)
    case None =>
    case Some(k) =>
      var d := LowerText(t[k + 1..]);
      var r := t[..k + 1] + d;
      NormalizeEmailAt(e, k);
      LoweredDomainUnspaced(t, k, r);
      LoweredDomainLastAt(t, k, r);
      NormalizeEmailAt(r, k);
      assert r[..k + 1] == t[..k + 1] && r[k + 1..] == d;
      LowerTextIdempotent(t[k + 1..]);
  }

  /**
   * `create`: `password2` is popped from `validated_data`, and the user is
   * created from the rest through `create_user`, which normalises the
   * address; a missing first or last name becomes ''.
   */
  method Create(db: Store, validated: map<string, string>) returns (u: User)
    requires db.Valid()
    requires "username" in validated && "email" in validated && "password" in validated && "password2" in validated
    modifies db
    ensures db.Valid()
    ensures u.id !in old(db.users) && db.users == old(db.users)[u.id := u]
    ensures u.username == validated["username"] && u.email == NormalizeEmail(validated["email"])
    ensures u.password == validated["password"]
    ensures u.firstName == (if "first_name" in validated then validated["first_name"] else "")
    ensures u.lastName == (if "last_name" in validated then validated["last_name"] else "")
    ensures !u.isSuperuser
    ensures db.jobs == old(db.jobs) && db.applications == old(db.applications)
  {
    var data := validated;
    data := data - {"password2"};
    u := db.CreateUser(
      data["username"], NormalizeEmail(data["email"]), data["password"],
      if "first_name" in data then data["first_name"] else "",
      if "last_name" in data then data["last_name"] else "");
  }
}
