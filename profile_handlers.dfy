/**
 * The two POST handlers of src/routes/profile.js over abstract state: the
 * `users` rows, the files under the public directory and the upload
 * directory, and the request session. The database is one map; a query
 * failure is injected as a Fault naming the query that throws.
 */
module ProfileHandlers {
  import opened Wrappers
  import opened JsValues
  import opened Sessions
  import opened ProfileRules

  /** The file multer stored for the `avatar` field. */
  datatype Upload = Upload(filename: string, path: string)

  /** Which query of the handler throws, if any. */
  datatype Fault = NoFault | LookupFails | UpdateFails | RereadFails

  /** The upload's file name, the part of `req.file` the stored row depends on. */
  function FileName(upload: Option<Upload>): Option<string>
  {
    if upload.Some? then Some(upload.value.filename) else None
  }

  /** The disk paths a clean-up of the upload may remove. */
  function UploadPaths(upload: Option<Upload>): (r: set<string>)
    ensures upload.None? <==> r == {}
  {
    if upload.Some? then {upload.value.path} else {}
  }

  /** `path.join(PUBLIC_PATH, avatar.replace(/^\//, ''))` with separators written out. */
  function PublicFile(root: string, avatar: string): string
  {
    root + "/" + (if avatar != [] && avatar[0] == '/' then avatar[1..] else avatar)
  }

  /** The session copy of a user row (profile.js:298-304). */
  function Mirror(row: UserRow): (u: SessionUser)
    ensures u.id == Some(row.id) && u.name == row.name && u.email == row.email && u.role == row.role
    ensures u.avatar.Some? ==> u.avatar == row.avatar && u.avatar.value != ""
    ensures u.avatar.None? ==> row.avatar.None? || row.avatar.value == ""
  {
    SessionUser(Some(row.id), row.name, row.email, row.role, OrNull(row.avatar))
  }

  /** The row of `userId`, as `SELECT * FROM users WHERE id = ?` finds it. */
  function Find(users: map<int, UserRow>, userId: UserId): (r: Option<UserRow>)
    ensures r.Some? <==> userId.Some? && userId.value in users
    ensures r.Some? ==> r.value in users.Values
    ensures r.Some? && (forall k :: k in users ==> users[k].id == k) ==> r.value.id == userId.value
  {
    if userId.Some? && userId.value in users then Some(users[userId.value]) else None
  }

  /** Whether the profile update gets as far as its UPDATE statement. */
  predicate ReachesUpdate(signedIn: bool, form: ProfileForm, userId: UserId, stored: Option<UserRow>,
                          upload: Option<Upload>, uploadOnDisk: bool, fault: Fault)
  {
    && signedIn && ProfileErrors(form) == [] && PresentId(userId)
    && fault != LookupFails && stored.Some? && (upload.Some? ==> uploadOnDisk)
  }

  /** The outcome of POST /profile (profile.js:133-326) once each guard's inputs are known. */
  function ProfileOutcome(signedIn: bool, form: ProfileForm, userId: UserId, stored: Option<UserRow>,
                          upload: Option<Upload>, uploadOnDisk: bool, fault: Fault): (o: Outcome)
    ensures o.Updated? <==> ReachesUpdate(signedIn, form, userId, stored, upload, uploadOnDisk, fault) && fault == NoFault
    ensures o.Updated? ==> o.row == NewRow(stored.value, Sanitize(form), FileName(upload))
    ensures signedIn && ProfileErrors(form) != [] ==> o == Rejected(Invalid(ProfileErrors(form)))
    ensures !signedIn ==> o == Rejected(SessionExpired)
  {
    if !signedIn then Rejected(SessionExpired)
    else if ProfileErrors(form) != [] then Rejected(Invalid(ProfileErrors(form)))
    else if !PresentId(userId) then Rejected(SessionExpired)
    else if fault == LookupFails then Rejected(ServerError)
    else if stored.None? then Rejected(UserNotFound)
    else if upload.Some? && !uploadOnDisk then Rejected(UploadMissing)
    else if fault != NoFault then Rejected(ServerError)
    else Updated(NewRow(stored.value, Sanitize(form), FileName(upload)))
  }

  /** The outcome of POST /profile/change-password (profile.js:339-385). */
  function PasswordOutcome(form: PasswordForm, stored: Option<UserRow>, fault: Fault,
                           matches: (string, string) -> bool, hash: string -> string): (o: Outcome)
    ensures PasswordErrors(form) != [] ==> o == Rejected(Invalid(PasswordErrors(form)))
    ensures o.Updated? <==> PasswordDecision(form, stored, matches, hash).Updated?
                            && fault != LookupFails && fault != UpdateFails
    ensures o.Updated? ==> o == PasswordDecision(form, stored, matches, hash)
  {
    if PasswordErrors(form) != [] then Rejected(Invalid(PasswordErrors(form)))
    else if fault == LookupFails then Rejected(ServerError)
    else
      var d := PasswordDecision(form, stored, matches, hash);
      if d.Updated? && fault == UpdateFails then Rejected(ServerError) else d
  }

  /** The state the handlers change: the `users` rows and the files on disk. */
  class UserStore {
    var users: map<int, UserRow>
    var files: set<string>
    const publicRoot: string

    /** Each row is filed under its own id. */
    ghost predicate Valid()
      reads this
    {
      forall k :: k in users ==> users[k].id == k
    }

    constructor (users: map<int, UserRow>, files: set<string>, publicRoot: string)
      requires forall k :: k in users ==> users[k].id == k
      ensures Valid() && this.users == users && this.files == files && this.publicRoot == publicRoot
    {
      this.users := users;
      this.files := files;
      this.publicRoot := publicRoot;
    }

    /** `fs.unlinkSync(path)`; an unlink that fails and leaves the file is not modelled. */
    method RemoveFile(path: string)
      modifies this`files
      ensures files == old(files) - {path}
    {
      files := files - {path};
    }

    /** The clean-up of every early exit: remove the uploaded file if there is one. */
    method DiscardUpload(upload: Option<Upload>)
      modifies this`files
      ensures files == old(files) - UploadPaths(upload)
    {
      if upload.Some? {
        RemoveFile(upload.value.path);
      }
    }

    /**
     * POST /profile. `session` is null when the request has no session;
     * `userId` is what getUserId(req) gives.
     */
    method UpdateProfile(session: Session?, form: ProfileForm, upload: Option<Upload>, userId: UserId, fault: Fault)
      returns (out: Outcome)
      requires Valid()
      modifies this, session
      ensures Valid()
      ensures session != null ==> session.cart == old(session.cart) && session.touches == old(session.touches)
      ensures out == ProfileOutcome(session != null && old(session.user).Some?, form, userId,
                                    Find(old(users), userId), upload,
                                    upload.Some? && upload.value.path in old(files), fault)
      ensures !ReachesUpdate(session != null && old(session.user).Some?, form, userId, Find(old(users), userId),
                             upload, upload.Some? && upload.value.path in old(files), fault) ==>
                && users == old(users) && files == old(files) - UploadPaths(upload)
                && (session != null ==> session.user == old(session.user))
      ensures ReachesUpdate(session != null && old(session.user).Some?, form, userId, Find(old(users), userId),
                            upload, upload.Some? && upload.value.path in old(files), fault) ==>
                var user := old(users)[userId.value];
                && session != null
                && Applied(old(users), old(files), old(session.user).value, user, form, upload, fault,
                           users, files, session.user)
    {
      if session == null || session.user.None? {
        DiscardUpload(upload);
        return Rejected(SessionExpired);
      }
      var errs := ProfileErrors(form);
      if errs != [] {
        DiscardUpload(upload);
        return Rejected(Invalid(errs));
      }
      var clean := Sanitize(form);
      if !PresentId(userId) {
        DiscardUpload(upload);
        return Rejected(SessionExpired);
      }
      if fault == LookupFails {
        DiscardUpload(upload);
        return Rejected(ServerError);
      }
      if userId.value !in users {
        DiscardUpload(upload);
        return Rejected(UserNotFound);
      }
      if upload.Some? && upload.value.path !in files {
        return Rejected(UploadMissing);
      }
      out := ApplyProfile(session, users[userId.value], clean, upload, fault);
    }

    /**
     * What the update does once the user's row is found and any upload is on
     * disk: the new row, the files removed, the session user afterwards.
     */
    ghost predicate Applied(users0: map<int, UserRow>, files0: set<string>, sessionUser0: SessionUser,
                            user: UserRow, form: ProfileForm, upload: Option<Upload>, fault: Fault,
                            users1: map<int, UserRow>, files1: set<string>, sessionUser1: Option<SessionUser>)
    {
      var row := NewRow(user, Sanitize(form), FileName(upload));
      var oldFile := if RemovesOldAvatar(user.avatar, FileName(upload))
                     then {PublicFile(publicRoot, user.avatar.value)} else {};
      && users1 == (if fault == UpdateFails then users0 else users0[user.id := row])
      && files1 == files0 - oldFile - (if fault == NoFault then {} else UploadPaths(upload))
      && sessionUser1 == (if fault == NoFault then Some(Mirror(row))
                          else if fault == RereadFails then Some(sessionUser0.(name := row.name, avatar := row.avatar))
                          else Some(sessionUser0))
    }

    /** Lines 198-312: avatar choice, old-avatar removal, UPDATE, session mirror. */
    method ApplyProfile(session: Session, user: UserRow, clean: ProfileForm, upload: Option<Upload>, fault: Fault)
      returns (out: Outcome)
      requires Valid() && user.id in users && users[user.id] == user && session.user.Some?
      requires fault != LookupFails && (upload.Some? ==> upload.value.path in files)
      requires clean == Sanitize(clean)
      modifies this, session
      ensures Valid()
      ensures session.cart == old(session.cart) && session.touches == old(session.touches)
      ensures out == if fault == NoFault then Updated(NewRow(user, clean, FileName(upload))) else Rejected(ServerError)
      ensures Applied(old(users), old(files), old(session.user).value, user, clean, upload, fault,
                      users, files, session.user)
    {
      var avatarPath: Option<string>;
      if upload.Some? {
        if RemovesOldAvatar(user.avatar, Some(upload.value.filename)) {
          RemoveFile(PublicFile(publicRoot, user.avatar.value));
        }
        avatarPath := Some(AvatarDir + upload.value.filename);
      } else {
        avatarPath := OrNull(user.avatar);
      }
      var row := user.(
        name := TrimmedOr(clean.name, Some(user.name)).value,
        phone := TrimmedOr(clean.phone, None),
        address := TrimmedOr(clean.address, None),
        avatar := avatarPath);
      if fault == UpdateFails {
        DiscardUpload(upload);
        return Rejected(ServerError);
      }
      users := users[user.id := row];
      session.user := Some(session.user.value.(name := row.name, avatar := avatarPath));
      if fault == RereadFails {
        DiscardUpload(upload);
        return Rejected(ServerError);
      }
      session.user := Some(Mirror(users[user.id]));
      return Updated(row);
    }

    /** POST /profile/change-password. */
    method ChangePassword(form: PasswordForm, userId: UserId, fault: Fault,
                          matches: (string, string) -> bool, hash: string -> string)
      returns (out: Outcome)
      requires Valid()
      modifies this`users
      ensures Valid()
      ensures out == PasswordOutcome(form, Find(old(users), userId), fault, matches, hash)
      ensures users == if out.Updated? then old(users)[out.row.id := out.row] else old(users)
    {
      var errs := PasswordErrors(form);
      if errs != [] {
        return Rejected(Invalid(errs));
      }
      if fault == LookupFails {
        return Rejected(ServerError);
      }
      if userId.None? || userId.value !in users {
        return Rejected(UserNotFound);
      }
      var user := users[userId.value];
      if GoogleLinked(user) {
        return Rejected(GoogleAccount);
      }
      if user.passwordHash.None? {
        return Rejected(ServerError);  // bcrypt.compareSync throws on a missing hash
      }
      if !matches(form.currentPassword, user.passwordHash.value) {
        return Rejected(WrongPassword);
      }
      var newHash := hash(form.newPassword);
      if fault == UpdateFails {
        return Rejected(ServerError);
      }
      var row := user.(passwordHash := Some(newHash));
      assert row.id == userId.value;
      users := users[userId.value := row];
      return Updated(row);
    }
  }
}
