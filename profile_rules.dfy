/**
 * The decision rules of src/routes/profile.js with the web framework, the
 * file system, the database and bcrypt stripped away: the form validators,
 * the row a profile update stores, the avatar choice, and the guard order of
 * a password change.
 */
module ProfileRules {
  import opened Wrappers
  import opened JsValues

  /** The characters String.prototype.trim removes (WhiteSpace and LineTerminator). */
  predicate IsJsSpace(c: char)
  {
    || c == ' ' || c == '\t' || c == '\n' || c == '\U{000B}' || c == '\U{000C}' || c == '\r'
    || c == '\U{00A0}' || c == '\U{1680}' || ('\U{2000}' <= c <= '\U{200A}')
    || c == '\U{2028}' || c == '\U{2029}' || c == '\U{202F}' || c == '\U{205F}'
    || c == '\U{3000}' || c == '\U{FEFF}'
  }

  /** The number of white-space characters `s` starts with. */
  function Leading(s: string): (n: nat)
    ensures n <= |s|
    ensures forall i :: 0 <= i < n ==> IsJsSpace(s[i])
    ensures n < |s| ==> !IsJsSpace(s[n])
  {
    if s != [] && IsJsSpace(s[0]) then 1 + Leading(s[1..]) else 0
  }

  /** `r` is `s` with its leading and trailing white space removed. */
  ghost predicate TrimmedFrom(s: string, r: string)
  {
    && Leading(s) + |r| <= |s| && r == s[Leading(s)..Leading(s) + |r|]
    && (forall i :: Leading(s) + |r| <= i < |s| ==> IsJsSpace(s[i]))
    && (r != [] ==> !IsJsSpace(r[0]) && !IsJsSpace(r[|r| - 1]))
    && (r == [] <==> Leading(s) == |s|)
  }

  /**
   * `s.trim()`: white space is dropped from the front, then from the back.
   * The result is the slice of `s` that starts after the leading white space
   * and leaves only white space behind it.
   */
  function Trim(s: string): (r: string)
    ensures TrimmedFrom(s, r)
  {
    if s != [] && IsJsSpace(s[0]) then
      var r := Trim(s[1..]);
      TrimmedAfterFirst(s, r);
      r
    else if s != [] && IsJsSpace(s[|s| - 1]) then
      var r := Trim(s[..|s| - 1]);
      TrimmedBeforeLast(s, r);
      r
    else
      assert Leading(s) == 0;
      s
  }

  /** A leading space is dropped by trimming the rest. */
  lemma TrimmedAfterFirst(s: string, r: string)
    requires s != [] && IsJsSpace(s[0]) && TrimmedFrom(s[1..], r)
    ensures TrimmedFrom(s, r)
  {
    var t := s[1..];
    assert Leading(s) == 1 + Leading(t);
    assert r == t[Leading(t)..Leading(t) + |r|];
    forall i | Leading(s) + |r| <= i < |s|
      ensures IsJsSpace(s[i])
    {
      assert s[i] == t[i - 1];
    }
  }

  /** A trailing space is dropped by trimming the rest, once no space leads. */
  lemma TrimmedBeforeLast(s: string, r: string)
    requires s != [] && !IsJsSpace(s[0]) && IsJsSpace(s[|s| - 1]) && TrimmedFrom(s[..|s| - 1], r)
    ensures TrimmedFrom(s, r)
  {
    var t := s[..|s| - 1];
    assert Leading(s) == 0 && Leading(t) == 0;
    assert r == t[..|r|] == s[..|r|];
    forall i | |r| <= i < |s|
      ensures IsJsSpace(s[i])
    {
      if i < |t| {
        assert s[i] == t[i];
      }
    }
  }

  /** Trimming twice trims nothing more. */
  lemma {:induction false} TrimIdempotent(s: string)
    ensures Trim(Trim(s)) == Trim(s)
  {
    var t := Trim(s);
    assert Leading(t) == 0;
  }

  predicate IsAsciiDigits(s: string)
  {
    forall i :: 0 <= i < |s| ==> '0' <= s[i] <= '9'
  }

  /** `body('name').trim().isLength({ min: 1, max: 100 })` (profile.js:130) */
  predicate ValidName(name: string)
  {
    1 <= |Trim(name)| <= 100
  }

  /**
   * `body('phone').optional({ checkFalsy: true }).trim().matches(/^[0-9]{10,11}$/)`
   * (profile.js:131). The optional test is made again after the trim, so a
   * phone of white space only is accepted like an empty one.
   */
  predicate ValidPhone(phone: string)
  {
    var t := Trim(phone);
    t == "" || (10 <= |t| <= 11 && IsAsciiDigits(t))
  }

  /** `body('address').optional({ checkFalsy: true }).trim().isLength({ max: 500 })` (profile.js:132) */
  predicate ValidAddress(address: string)
  {
    var t := Trim(address);
    t == "" || |t| <= 500
  }

  /** The form fields whose validators can fail. */
  datatype Field = Name | Phone | Address | CurrentPassword | NewPassword | ConfirmPassword

  /** The profile form as posted; a missing field is the empty string. */
  datatype ProfileForm = ProfileForm(name: string, phone: string, address: string)

  /** The validation errors of a profile form, in the order of the chains. */
  function ProfileErrors(form: ProfileForm): (errs: seq<Field>)
    ensures errs == [] <==> ValidName(form.name) && ValidPhone(form.phone) && ValidAddress(form.address)
    ensures Name in errs <==> !ValidName(form.name)
    ensures Phone in errs <==> !ValidPhone(form.phone)
    ensures Address in errs <==> !ValidAddress(form.address)
  {
    Flagged(ValidName(form.name), Name) + Flagged(ValidPhone(form.phone), Phone)
    + Flagged(ValidAddress(form.address), Address)
  }

  /** The error list of one validator: empty when it passes. */
  function Flagged(ok: bool, field: Field): seq<Field>
  {
    if ok then [] else [field]
  }

  /** The body the handler reads: the trim sanitizers rewrite the three fields. */
  function Sanitize(form: ProfileForm): (r: ProfileForm)
    ensures TrimmedFrom(form.name, r.name) && TrimmedFrom(form.phone, r.phone)
            && TrimmedFrom(form.address, r.address)
  {
    ProfileForm(Trim(form.name), Trim(form.phone), Trim(form.address))
  }

  /** A row of `users`, restricted to the columns the profile code reads or writes. */
  datatype UserRow = UserRow(
    id: int, name: string, email: string, role: string,
    phone: Option<string>, address: Option<string>, avatar: Option<string>,
    passwordHash: Option<string>, googleId: Option<string>)

  /** `x || null` on a nullable string: the empty string becomes null. */
  function OrNull(s: Option<string>): (r: Option<string>)
    ensures r.Some? <==> s.Some? && s.value != ""
    ensures r.Some? ==> r == s
  {
    if s.Some? && s.value != "" then s else None
  }

  /** `(x && x.trim()) ? x.trim() : fallback` (profile.js:235-237). */
  function TrimmedOr(x: string, fallback: Option<string>): (r: Option<string>)
    ensures Trim(x) != "" ==> r == Some(Trim(x))
    ensures Trim(x) == "" ==> r == fallback
  {
    if Trim(x) != "" then Some(Trim(x)) else fallback
  }

  const AvatarDir: string := "/img/avatars/"

  predicate StartsWith(s: string, prefix: string)
  {
    |prefix| <= |s| && s[..|prefix|] == prefix
  }

  /** The avatar path stored (profile.js:198-233): the upload's public path, else the old one or null. */
  function StoredAvatar(current: Option<string>, uploaded: Option<string>): (r: Option<string>)
    ensures uploaded.Some? ==> r == Some(AvatarDir + uploaded.value)
    ensures uploaded.None? ==> r == OrNull(current)
    ensures r.Some? ==> r.value != ""
  {
    if uploaded.Some? then Some(AvatarDir + uploaded.value) else OrNull(current)
  }

  /**
   * Whether the old avatar file is removed (profile.js:215): only when a file
   * was uploaded and the old avatar is a non-empty path not starting with
   * `http` (nor `https`).
   */
  function RemovesOldAvatar(current: Option<string>, uploaded: Option<string>): (b: bool)
    ensures uploaded.None? ==> !b
    ensures b ==> current.Some? && current.value != "" && !StartsWith(current.value, "http")
  {
    && uploaded.Some?
    && current.Some? && current.value != ""
    && !StartsWith(current.value, "http") && !StartsWith(current.value, "https")
  }

  /** The `https` test of line 215 never decides anything: it is implied by the `http` one. */
  lemma HttpsTestRedundant(current: Option<string>, uploaded: Option<string>)
    ensures RemovesOldAvatar(current, uploaded)
            <==> uploaded.Some? && current.Some? && current.value != "" && !StartsWith(current.value, "http")
  {
    if current.Some? && StartsWith(current.value, "https") {
      assert current.value[..4] == current.value[..5][..4];
    }
  }

  /**
   * The row the update stores (profile.js:198-252), from the stored row, the
   * sanitized form and the uploaded file's name.
   */
  function NewRow(user: UserRow, form: ProfileForm, uploaded: Option<string>): (row: UserRow)
    ensures row.id == user.id && row.email == user.email && row.role == user.role
    ensures row.passwordHash == user.passwordHash && row.googleId == user.googleId
    ensures row.name == if Trim(form.name) != "" then Trim(form.name) else user.name
    ensures row.phone == TrimmedOr(form.phone, None) && row.address == TrimmedOr(form.address, None)
    ensures row.avatar == StoredAvatar(user.avatar, uploaded)
  {
    user.(
      name := TrimmedOr(form.name, Some(user.name)).value,
      phone := TrimmedOr(form.phone, None),
      address := TrimmedOr(form.address, None),
      avatar := StoredAvatar(user.avatar, uploaded))
  }

  /**
   * On a form that passed validation the stored row is well formed: the
   * name is the trimmed name (the fallback to the old name is never taken),
   * the phone is null or 10-11 digits, the address null or at most 500
   * characters, none of them with surrounding white space.
   */
  lemma ValidatedRow(user: UserRow, form: ProfileForm, uploaded: Option<string>)
    requires ProfileErrors(form) == []
    ensures var row := NewRow(user, Sanitize(form), uploaded);
            && row.name == Trim(form.name) && 1 <= |row.name| <= 100
            && (row.phone.None? || (10 <= |row.phone.value| <= 11 && IsAsciiDigits(row.phone.value)))
            && (row.address.None? || 1 <= |row.address.value| <= 500)
            && (row.phone.Some? ==> row.phone.value == Trim(row.phone.value))
            && (row.address.Some? ==> row.address.value == Trim(row.address.value))
  {
    var clean := Sanitize(form);
    var row := NewRow(user, clean, uploaded);
    TrimIdempotent(form.name);
    TrimIdempotent(form.phone);
    TrimIdempotent(form.address);
    assert row.name == Trim(form.name) by {
      assert Trim(clean.name) == Trim(form.name) != "";
    }
    assert row.phone == if Trim(form.phone) != "" then Some(Trim(form.phone)) else None;
    assert row.address == if Trim(form.address) != "" then Some(Trim(form.address)) else None;
  }

  /** The password-change form; a missing field is the empty string. */
  datatype PasswordForm = PasswordForm(currentPassword: string, newPassword: string, confirmPassword: string)

  /** The validation errors of profile.js:331-338, in the order of the chains. */
  function PasswordErrors(form: PasswordForm): (errs: seq<Field>)
    ensures errs == [] <==> form.currentPassword != "" && |form.newPassword| >= 6
                            && form.confirmPassword == form.newPassword
    ensures CurrentPassword in errs <==> form.currentPassword == ""
    ensures NewPassword in errs <==> |form.newPassword| < 6
    ensures ConfirmPassword in errs <==> form.confirmPassword != form.newPassword
  {
    (if form.currentPassword != "" then [] else [CurrentPassword])
    + (if |form.newPassword| >= 6 then [] else [NewPassword])
    + (if form.confirmPassword == form.newPassword then [] else [ConfirmPassword])
  }

  /** Why a request was turned away. */
  datatype Rejection =
    | SessionExpired
    | Invalid(fields: seq<Field>)
    | UserNotFound
    | UploadMissing
    | GoogleAccount
    | WrongPassword
    | ServerError

  datatype Outcome = Rejected(reason: Rejection) | Updated(row: UserRow)

  /** A Google-linked account: `user.google_id` is truthy. */
  function GoogleLinked(user: UserRow): (b: bool)
    ensures b <==> user.googleId.Some? && Truthy(Str(user.googleId.value))
  {
    user.googleId.Some? && user.googleId.value != ""
  }

  /**
   * The guard chain of the password change (profile.js:340-371) once the user
   * lookup has answered `stored`. `matches` stands for bcrypt.compareSync, which
   * throws on a null hash; `hash` for bcrypt.hashSync.
   */
  function PasswordDecision(form: PasswordForm, stored: Option<UserRow>,
                            matches: (string, string) -> bool, hash: string -> string): (o: Outcome)
    ensures o.Updated? <==> && PasswordErrors(form) == [] && stored.Some? && !GoogleLinked(stored.value)
                            && stored.value.passwordHash.Some?
                            && matches(form.currentPassword, stored.value.passwordHash.value)
    ensures o.Updated? ==> o.row == stored.value.(passwordHash := Some(hash(form.newPassword)))
  {
    if PasswordErrors(form) != [] then Rejected(Invalid(PasswordErrors(form)))
    else if stored.None? then Rejected(UserNotFound)
    else if GoogleLinked(stored.value) then Rejected(GoogleAccount)
    else if stored.value.passwordHash.None? then Rejected(ServerError)
    else if !matches(form.currentPassword, stored.value.passwordHash.value) then Rejected(WrongPassword)
    else Updated(stored.value.(passwordHash := Some(hash(form.newPassword))))
  }

  /**
   * The guards run in order: a missing user, then a Google account, are
   * refused before any password is compared, so the outcome does not depend
   * on `matches` at all; a wrong current password is refused before hashing.
   */
  lemma PasswordGuardOrder(form: PasswordForm, stored: Option<UserRow>,
                           matches: (string, string) -> bool, other: (string, string) -> bool,
                           hash: string -> string)
    requires PasswordErrors(form) == []
    ensures stored.None? ==> PasswordDecision(form, stored, matches, hash) == Rejected(UserNotFound)
    ensures stored.Some? && GoogleLinked(stored.value) ==>
              PasswordDecision(form, stored, matches, hash) == Rejected(GoogleAccount)
              && PasswordDecision(form, stored, other, hash) == Rejected(GoogleAccount)
    ensures stored.Some? && !GoogleLinked(stored.value) && stored.value.passwordHash.Some?
            && !matches(form.currentPassword, stored.value.passwordHash.value) ==>
              PasswordDecision(form, stored, matches, hash) == Rejected(WrongPassword)
  {
  }
}
