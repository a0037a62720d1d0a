# Cart persistence and profile rules of a small shop backend, in Dafny

This project models the two parts of the shop backend that make decisions:

- **Cart store and cart accessor** (`src/services/dbService.js`). The `carts` table is state in a class, `CartStore.CartDatabase`. The class holds four things:
  - whether the table exists;
  - one JSON payload per user id (`user_id` is `UNIQUE`);
  - the ids of the `users` table that `user_id` references;
  - a script that says, query by query, whether the connection answers or fails.

  A query on a missing table fails with SQLSTATE 42P01 (undefined_table). Every other failure is an error of another class. `ensureCartsTableExists`, `loadCartFromDatabase` and `saveCartToDatabase` are methods that follow the source statement by statement. Each method is proved equal to a specification function (`EnsureTable`, `Load`, `Save`). In those functions the provision-and-retry-once policy is written once, as `RetryOnce`. `getCart` is a method over a `Sessions.Session` object, which holds the session user, the session cart and a count of `touch()` calls.
- **Profile handlers** (`src/routes/profile.js`). The express-validator chains, the trim-or-fallback rules, the avatar choice and the password-change guard chain are pure functions in `ProfileRules`. The two POST handlers are methods of `ProfileHandlers.UserStore`, a class whose fields are the `users` rows and the files on disk. Each handler is tied to an outcome function (`ProfileOutcome`, `PasswordOutcome`) whose result is `Rejected(reason)` or `Updated(row)`.

What is proved:

- A save followed by a load gives the cart back.
- A second save overwrites the first. A save never touches another user's row.
- Provisioning is idempotent.
- On 42P01 the call runs once more, on the provisioned table.
- Load never changes the rows; it may create the missing table. Neither call ever propagates an error.
- The session path of `getCart` yields a well-formed cart unless it throws. It keeps every field that was already acceptable and touches the session once per default it applies.
- Trimming is characterised exactly, and is idempotent.
- Each validator's error list is empty exactly when its rules hold. A validated form yields a well-formed row.
- The password guards run in the source's order.

Behaviour of the source that the model reproduces as written, not corrected:

- The database path of `getCart` (dbService.js:142-145) returns the stored cart without normalising it. `DatabaseCartNotNormalised` shows an empty object coming back.
- `items` is tested for truthiness only (dbService.js:157). `ItemsTypeNotChecked` shows a number kept there.
- `loadCartFromDatabase` catches every error, `JSON.parse` failures included, so it has no error result. The `catch` of `getCart` (dbService.js:147-149) can therefore never run, and `CartAccess.GetCart` has no such branch.
- A truthy non-object session cart (a number, `true`, a non-empty string) makes `getCart` throw. The module runs in strict mode, so the assignment to `items` at dbService.js:158 raises a TypeError. The model's result for this case is `Threw`.
- A cart saved as a JSON string is stored as a string. On load it goes through `JSON.parse` again (dbService.js:44-45). `SaveThenLoadString` states what load then returns.
- The trim sanitizers rewrite the body before the handler reads it. After validation the name is never empty, so the fallback to the old name at profile.js:235 is never taken (`ValidatedRow`).
- The `https` test of profile.js:215 is implied by the `http` test (`HttpsTestRedundant`).
- When the UPDATE of a profile fails, the old avatar file has already been removed (profile.js:215-226), yet the row still points to it. When the re-read fails, the session user keeps the name and avatar assigned at lines 263-264. `UserStore.Applied` states both.
- `ensureCartsTableExists` swallows every error, not only "already exists" (dbService.js:30-32). `EnsureTable` therefore never fails; it only may leave the table missing.

## Model

| member | source | states |
|---|---|---|
| CartStore.EnsureTable | src/services/dbService.js:6-33 | keeps the table invariant. On an existing table it keeps the rows. A created table is empty. The table exists afterwards exactly when it existed before or both the existence check and the CREATE TABLE were answered. On a reliable connection it therefore always exists afterwards |
| CartStore.DecodeRow | src/services/dbService.js:42-49 | no row or a falsy payload gives null. A non-empty string payload gives what JSON.parse gives, and a decoding failure can only come from such a payload. A truthy non-string payload is returned unchanged |
| CartStore.Run | src/services/dbService.js:37-49 | one run of a try-block. 42P01 arises only on a missing table. A read leaves the rows alone. A write changes nothing, or sets exactly the user's row to the cart |
| CartStore.RetryOnce | src/services/dbService.js:50-70 | the retry policy keeps the invariant and never drops an existing table. On a reliable connection the table exists afterwards |
| CartStore.Load | src/services/dbService.js:35-77 | a falsy user id gives null and issues no query. Load never changes the rows. Every non-null result is the decoding of the user's stored row |
| CartStore.Save | src/services/dbService.js:79-132 | a falsy user id or cart is a no-op. Otherwise the rows are unchanged or equal the old rows with the user's row set to the cart. One row per user is kept |
| CartStore.CartDatabase.SelectTableExists | src/services/dbService.js:8-16 | the information_schema query answers whether the table exists, or fails with a non-42P01 error |
| CartStore.CartDatabase.CreateTable | src/services/dbService.js:18-26 | when answered, an empty table now exists |
| CartStore.CartDatabase.SelectRow | src/services/dbService.js:38-41 | fails with 42P01 on a missing table, otherwise returns the user's row if there is one |
| CartStore.CartDatabase.UpdateRow | src/services/dbService.js:88-93 | the existing row of the user now holds the cart |
| CartStore.CartDatabase.InsertRow | src/services/dbService.js:95-99 | inserts the user's row, or fails with a foreign-key error when the user id is not in `users` |
| CartStore.CartDatabase.CreateIndex | src/services/dbService.js:27 | spends one query, changes nothing else, and reports whether it was answered |
| CartStore.CartDatabase.EnsureCartsTableExists | src/services/dbService.js:6-33 | the new state is EnsureTable of the old one |
| CartStore.CartDatabase.LoadCartFromDatabase | src/services/dbService.js:35-77 | the result and new state are Load of the old state. The method has no error result |
| CartStore.CartDatabase.Upsert | src/services/dbService.js:82-100 | SELECT id then UPDATE or INSERT. State and error class agree with Run of a write |
| CartStore.CartDatabase.SaveCartToDatabase | src/services/dbService.js:79-132 | the new state is Save of the old one |
| CartStoreProperties.SaveStoresCart | src/services/dbService.js:82-100 | on a reliable connection, for a known user, the table exists afterwards and the rows equal the old rows with the user's row set to the cart |
| CartStoreProperties.SaveThenLoad | src/services/dbService.js:92 | after save(u, c), load(u) returns c for any truthy non-string cart |
| CartStoreProperties.SaveThenLoadString | src/services/dbService.js:44-46 | a string cart comes back through JSON.parse: the parsed value, or null when parsing throws |
| CartStoreProperties.SecondSaveOverwrites | src/services/dbService.js:87-93 | two saves leave the latest cart and the same number of rows as after the first |
| CartStoreProperties.SaveLeavesOthers | src/services/dbService.js:88-99 | whatever the connection does, every other user's row is unchanged |
| CartStoreProperties.EnsureTableIdempotent | src/services/dbService.js:16-29 | on an existing table, provisioning only issues its check query, and provisioning twice keeps the rows |
| CartStoreProperties.MissingTableRetriedOnce | src/services/dbService.js:51-69 | on 42P01 the result is what the call gives on the provisioned table, or the fallback value when provisioning failed |
| CartStoreProperties.LoadFromExistingTable | src/services/dbService.js:38-49 | on an existing table and a reliable connection, load returns the decoded row, or null when decoding throws |
| CartStoreProperties.UserFortyTwo | src/services/dbService.js:79-100 | for user 42: save then load returns the cart. A second save with the empty cart replaces it, and one row remains |
| CartAccess.EmptyCart | src/services/dbService.js:153 | the default cart is truthy and well formed, with empty items and zero totals |
| Sessions.Session.Touch | src/services/dbService.js:154 | the touch count grows by one |
| CartAccess.Normalize | src/services/dbService.js:152-168 | throws exactly for a truthy non-object cart. Otherwise the result is an object with truthy items and numeric totals. Already-acceptable fields and all other keys are kept, and only the three cart keys are added. Each replaced field gets its default. The touch count equals the number of defaults applied |
| CartAccess.FillSessionCart | src/services/dbService.js:152-170 | the session cart and touch count become what Normalize gives, and the returned cart is the session cart |
| CartAccess.GetCart | src/services/dbService.js:134-171 | with no session, returns the empty cart and leaves the store alone. A truthy stored cart is mirrored into the session as it is, with one touch. Otherwise the session path applies. The session user never changes |
| CartAccess.NormalizeIdempotent | src/services/dbService.js:152-168 | a normalised cart needs no further default and no touch |
| CartAccess.ItemsTypeNotChecked | src/services/dbService.js:157 | a number in `items` is kept, with no touch |
| CartAccess.StringTotalCoerced | src/services/dbService.js:161-164 | a string `totalQty` becomes 0 with exactly one touch |
| CartAccess.DatabaseCartNotNormalised | src/services/dbService.js:142-145 | a stored empty object is loaded as a truthy cart that is not well formed |
| ProfileRules.Trim | src/routes/profile.js:130-132 | the result is the slice of the input after its leading white space, with only white space after it. It neither starts nor ends with white space, and it is empty exactly when the input is all white space |
| ProfileRules.TrimIdempotent | src/routes/profile.js:235-237 | trimming an already trimmed value changes nothing |
| ProfileRules.ProfileErrors | src/routes/profile.js:130-132 | no error exactly when the trimmed name has 1-100 characters, the trimmed phone is empty or 10-11 ASCII digits, and the trimmed address is empty or at most 500 characters. Each field is flagged exactly when its rule fails |
| ProfileRules.Sanitize | src/routes/profile.js:130-132 | each of name, phone and address becomes its trimmed value, as Trim characterises it |
| ProfileRules.OrNull | src/routes/profile.js:231 | an empty or missing string becomes null. Anything else is kept |
| ProfileRules.TrimmedOr | src/routes/profile.js:235-237 | the trimmed value when it is non-empty, otherwise the fallback |
| ProfileRules.StoredAvatar | src/routes/profile.js:228-231 | with an upload, `/img/avatars/<filename>`. Without one, the old avatar, or null when it is empty or missing. An empty path is never stored |
| ProfileRules.RemovesOldAvatar | src/routes/profile.js:215 | the old avatar file is removed only when a file was uploaded and the old avatar is a non-empty path that does not start with `http` |
| ProfileRules.HttpsTestRedundant | src/routes/profile.js:215 | the old avatar is removed exactly when a file was uploaded and the old avatar is a non-empty path that does not start with `http` |
| ProfileRules.NewRow | src/routes/profile.js:198-252 | id, email, role, password hash and Google id are kept. The name is the trimmed name or the old one. Phone and address are trimmed or null. The avatar is StoredAvatar |
| ProfileRules.ValidatedRow | src/routes/profile.js:235-237 | on a validated form, the stored name is the trimmed name (1-100 characters). The phone is null or 10-11 digits, the address null or 1-500 characters, none of them padded |
| ProfileRules.PasswordErrors | src/routes/profile.js:331-338 | no error exactly when the current password is non-empty, the new one has at least 6 characters and the confirmation equals it. Each field is flagged exactly when its rule fails |
| ProfileRules.GoogleLinked | src/routes/profile.js:357 | an account is Google-linked exactly when its `google_id` is a JavaScript-truthy string |
| ProfileRules.PasswordDecision | src/routes/profile.js:352-371 | the update happens exactly when all of these hold: validation passed, the user exists, the account is not Google-linked, it has a hash and that hash matches the current password. The new row then differs only in its hash, which is hash(new password) |
| ProfileRules.PasswordGuardOrder | src/routes/profile.js:352-365 | a missing user is refused first. A Google account is refused whatever the password comparison would say. A wrong current password is refused |
| ProfileHandlers.Mirror | src/routes/profile.js:298-304 | the session user carries the row's id, name, email and role. Its avatar is the row's avatar, or null when that is empty |
| ProfileHandlers.Find | src/routes/profile.js:184-185 | the lookup finds a row exactly when the id is present and stored, the row is one of the stored rows, and in a store keyed by row id it is the row of that id |
| ProfileHandlers.ProfileOutcome | src/routes/profile.js:133-326 | an update happens exactly when every guard passes and no query fails. The row is NewRow of the sanitized form. Invalid input is refused with its error list, and a missing session or user with SessionExpired |
| ProfileHandlers.PasswordOutcome | src/routes/profile.js:339-385 | invalid input is refused with its error list. An update happens exactly when PasswordDecision updates and neither the lookup nor the UPDATE fails |
| ProfileHandlers.UserStore.RemoveFile | src/routes/profile.js:220 | the path is no longer on disk, and no other file changes |
| ProfileHandlers.UserStore.DiscardUpload | src/routes/profile.js:153-160 | the uploaded file is removed from disk |
| ProfileHandlers.UserStore.UpdateProfile | src/routes/profile.js:133-326 | the outcome is ProfileOutcome. Before the UPDATE is reached, no row and no session user changes and the upload is removed. Otherwise the state is as Applied says. The session cart and touch count never change |
| ProfileHandlers.UserStore.ApplyProfile | src/routes/profile.js:198-312 | the old avatar file is removed only when RemovesOldAvatar holds. The row is written unless the UPDATE fails. On success the session user is the row's mirror. On a failed re-read it keeps the new name and avatar, and the upload is removed on failure. The session cart and touch count never change |
| ProfileHandlers.UserStore.ChangePassword | src/routes/profile.js:339-385 | the outcome is PasswordOutcome. Only an Updated outcome changes `users`, and only the user's own row |

## Left out

- SQL text, the JSONB encoding and the `pg` pool. The table is a map, and JSON serialisation is the identity, except that a string payload is parsed again on load through the `parse` parameter.
- Concurrency. Requests interleaving at `await` points and the creation race on the table are not modelled, so a 42P01 arises only when the table is missing. Unique violations on INSERT cannot happen.
- Logging (`console.*`, `logger.*`), flash messages, redirects and rendering.
- `Date.now` and the `CURRENT_TIMESTAMP`/`updated_at` columns, the `id` column of `carts` and the index itself. Creating the index is a query whose failure is swallowed.
- The `user_carts` log branch at dbService.js:72-74. It only logs.
- JavaScript numbers are integers here. `NaN`, which is falsy but has `typeof` `'number'`, is not represented, and arrays are represented as objects.
- CartAccess.Normalize: getters, prototypes and frozen objects are not modelled. A plain-object session cart is assumed.
- ProfileRules.ProfileErrors: lengths count Unicode code points. validator.js `isLength` also discounts U+FE0E and U+FE0F.
- ProfileRules.PasswordErrors: the length of the new password counts Unicode code points. validator.js `isLength` (profile.js:332) also discounts U+FE0E and U+FE0F, so a password padded with them to 6 code points passes here and is refused by the source. A missing form field is taken as the empty string, while the confirmation check (profile.js:333-336) compares the raw values, where a missing field is `undefined`: with `new_password` empty and `confirm_password` missing the source also flags the confirmation and the model does not. Whether the form is refused is the same, because the empty new password is flagged either way.
- ProfileRules.ProfileErrors: the `optional({ checkFalsy: true })` test is taken on the trimmed value, so a phone or address of white space only is accepted. This follows express-validator's per-step evaluation. Form fields that are arrays or missing are the empty string.
- bcrypt `compareSync`/`hashSync` are the function parameters `matches` and `hash`. The random salt is not modelled.
- multer, `fs.existsSync`/`unlinkSync` and `path.join`. The disk is a set of path strings, and `path.join` normalisation is left out.
- `getUserId`, a collaborator whose source is not part of this model, is a parameter.
- `dataManager.updateItem` (profile.js:254-260 and 373-376) is a collaborator whose source is not part of this model.
- The `req.session.save` wrapper (profile.js:265-275). A failure there is not modelled.
- The multer error callback (profile.js:70-81) and the session checks right after upload (profile.js:83-107). The handler's own session check (profile.js:136-148) has the same effect and is modelled.
- ProfileHandlers.UserStore.RemoveFile: a failing `fs.unlinkSync` other than for a missing file (EACCES, EBUSY) is not modelled. The source logs it and the file stays (profile.js:157-159 and 222-224); the model always removes the path.
- ProfileHandlers.UserStore.UpdateProfile: the handler reads `users` through `db.prepare(...).get` (profile.js:184, 284, 350) and writes through `pool.query` (profile.js:247, 368). The model makes both one map, so the re-read at profile.js:284-285 always sees the UPDATE, and the session user on success is the mirror of the new row only under that assumption.
- ProfileHandlers.UserStore.UpdateProfile: a query failure is one injected Fault per request. The re-read never finds the row missing, because nothing deletes it in between.
- The GET `/profile` handler (profile.js:17-62) only reads counts and renders a page.
- `data/fix-users-sequence.js` and `data/add-activated-column.js` are one-shot administrative SQL scripts.
