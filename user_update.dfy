/** Profile and password changes (controllers/auth/userUpdate.controller.ts). */
module UserUpdate {
  import opened Wrappers
  import opened Json
  import opened Ids
  import opened Api
  import opened Records
  import opened Store
  import opened AsyncHandler

  /** The text fields of the submitted form, each `formData.get(k)?.toString()`. */
  datatype Form = Form(name: Option<string>, email: Option<string>, phone: Option<string>,
                       company: Option<string>, oldPassword: Option<string>, newPassword: Option<string>)

  /** A field that was supplied and is not empty. */
  predicate Given(o: Option<string>) {
    o.Some? && o.value != ""
  }

  /** Lines 37-40: a supplied, non-empty name, email or phone replaces the
      stored one. `company` is not a path of the Investor schema (the path
      is `companyName`), so assigning it is not saved. */
  function Overwrite(rec: InvestorRec, form: Form): (r: InvestorRec)
    ensures r.name == (if Given(form.name) then form.name.value else rec.name)
    ensures r.email == (if Given(form.email) then form.email.value else rec.email)
    ensures r.phone == (if Given(form.phone) then form.phone else rec.phone)
    ensures r.password == rec.password && r.companyName == rec.companyName && r.verified == rec.verified
  {
    var named := if Given(form.name) then rec.(name := form.name.value) else rec;
    var mailed := if Given(form.email) then named.(email := form.email.value) else named;
    if Given(form.phone) then mailed.(phone := form.phone) else mailed
  }

  /** Overwriting twice with the same form is overwriting once, and a form
      with no usable field changes nothing. */
  lemma OverwriteIdempotent(rec: InvestorRec, form: Form)
    ensures Overwrite(Overwrite(rec, form), form) == Overwrite(rec, form)
    ensures !Given(form.name) && !Given(form.email) && !Given(form.phone) ==> Overwrite(rec, form) == rec
  {
  }

  /** Lines 43-51 for the stored password `current`: the password to save, or
      the error. The stored password stands for its hash, so
      `comparePassword` is equality. */
  function PasswordChange(current: string, oldPassword: Option<string>, newPassword: Option<string>)
    : (r: Outcome<string>)
    ensures !Given(oldPassword) && !Given(newPassword) ==> r == Ok(current)
    ensures Given(oldPassword) != Given(newPassword) ==> r == Fail(400, "Both old and new passwords required")
    ensures Given(oldPassword) && Given(newPassword) && oldPassword == newPassword ==>
              r == Fail(400, "New password must be different")
    ensures Given(oldPassword) && Given(newPassword) && oldPassword != newPassword && oldPassword.value != current ==>
              r == Fail(400, "Old password is incorrect")
    ensures r.Ok? && r.value != current ==>
              oldPassword == Some(current) && Given(newPassword) && r.value == newPassword.value
    ensures r.Ok? ==> r.value == current || (Given(oldPassword) && Given(newPassword) && r.value == newPassword.value)
    ensures r.Throws? ==> r.error.ApiError? && r.error.statusCode == 400
  {
    if Given(oldPassword) || Given(newPassword) then
      if !Given(oldPassword) || !Given(newPassword) then Fail(400, "Both old and new passwords required")
      else if oldPassword == newPassword then Fail(400, "New password must be different")
      else if oldPassword.value != current then Fail(400, "Old password is incorrect")
      else Ok(newPassword.value)
    else Ok(current)
  }

  /** The catch block: `new ApiError(err.statusCode || 500, err.message ||
      "Server error")`. Only an `ApiError` carries a `statusCode`. */
  function Rethrow(e: Thrown): (r: Thrown)
    ensures r.ApiError? && r.errors.None? && r.statusCode != 0 && r.message != ""
    ensures e.ApiError? && e.statusCode != 0 && e.message != "" ==> r == ApiError(e.statusCode, e.message, None)
    ensures e.Error? ==> r.statusCode == 500
  {
    var status := if e.ApiError? && e.statusCode != 0 then e.statusCode else 500;
    ApiError(status, if e.message != "" then e.message else "Server error", None)
  }

  /** Rethrowing an already rethrown error changes nothing. */
  lemma RethrowIdempotent(e: Thrown)
    ensures Rethrow(Rethrow(e)) == Rethrow(e)
  {
  }

  /** The error `save()` raises when the email belongs to another investor
      (the unique index on `email`). */
  const DuplicateEmail: Thrown :=
    Error("MongoServerError", "E11000 duplicate key error collection: investors index: email_1 dup key",
          Some(DuplicateKey), Some(["email"]), None, None)

  /** Because the catch block rethrows every error as an `ApiError` without a
      code, a duplicate email is answered 500, not the 409 the wrapper keeps
      for duplicate keys. */
  lemma DuplicateEmailAnswered500()
    ensures Handle(Throws(DuplicateEmail)).value.status == 409
    ensures Handle(Throws(Rethrow(DuplicateEmail))).value.status == 500
  {
  }

  /** The error `req.formData()` raises for a body that is not form data. */
  const FormDataError: Thrown := Error("TypeError", "Failed to parse body as FormData.", None, None, None, None)

  /** The email is held by an investor other than `id`. */
  predicate TakenByOther(investors: map<string, InvestorRec>, id: string, email: string) {
    exists k :: k in investors && k != id && investors[k].email == email
  }

  /** The controller's decision on the current investors, for the header
      `x-temp-user-id` and the parsed form (`None` when `req.formData()`
      fails): the id and the record to save, or the error thrown out of the
      catch block. */
  function Updated(investors: map<string, InvestorRec>, header: Option<string>, form: Option<Form>)
    : (r: Outcome<(string, InvestorRec)>)
    ensures !Given(header) ==> r == Fail(401, "Unauthorized user")
    ensures Given(header) && form.None? ==> r == Throws(Rethrow(FormDataError)) && r.error.statusCode == 500
    ensures Given(header) && form.Some? && !IsValidId(header.value) ==> r == Throws(Rethrow(CastError))
    ensures Given(header) && form.Some? && IsValidId(header.value) && Canon(header.value) !in investors ==>
              r == Fail(404, "User not found")
    ensures r.Throws? ==> r.error.ApiError? && r.error.errors.None?
    ensures r.Ok? ==>
              Given(header) && form.Some? && IsValidId(header.value) && r.value.0 == Canon(header.value)
              && r.value.0 in investors
              && var rec := investors[r.value.0];
                 PasswordChange(rec.password, form.value.oldPassword, form.value.newPassword) == Ok(r.value.1.password)
                 && r.value.1 == Overwrite(rec, form.value).(password := r.value.1.password)
                 && !TakenByOther(investors, r.value.0, r.value.1.email)
  {
    if !Given(header) then Fail(401, "Unauthorized user")
    else if form.None? then Throws(Rethrow(FormDataError))
    else if !IsValidId(header.value) then Throws(Rethrow(CastError))
    else
      var id := Canon(header.value);
      if id !in investors then Fail(404, "User not found")
      else
        var edited := Overwrite(investors[id], form.value);
        match PasswordChange(investors[id].password, form.value.oldPassword, form.value.newPassword)
        case Throws(e) => Throws(Rethrow(e))
        case Ok(password) =>
          var rec := edited.(password := password);
          if TakenByOther(investors, id, rec.email) then Throws(Rethrow(DuplicateEmail))
          else Ok((id, rec))
  }

  /** `sanitizeUser(user)`; the avatar is not part of this model and is
      `null`. */
  function Sanitized(id: string, rec: InvestorRec): (m: Obj)
    ensures "password" !in m
    ensures "id" in m && m["id"] == JStr(id)
    ensures "verified" in m && m["verified"] == JBool(rec.verified)
  {
    var base := map["id" := JStr(id), "name" := JStr(rec.name), "email" := JStr(rec.email),
                    "verified" := JBool(rec.verified), "avatar" := JNull];
    var withPhone := if rec.phone.Some? then base["phone" := JStr(rec.phone.value)] else base;
    if rec.companyName.Some? then withPhone["companyName" := JStr(rec.companyName.value)] else withPhone
  }

  /** The cache key of a user's public profile, built from the header as
      given. */
  function UserKey(userId: string): (r: string)
    ensures |r| == 5 + |userId|
    ensures r[..5] == "user:" && r[5..] == userId
  {
    "user:" + userId
  }

  /** Distinct users have distinct profile keys. */
  lemma UserKeyInjective(a: string, b: string)
    ensures UserKey(a) == UserKey(b) <==> a == b
  {
    if UserKey(a) == UserKey(b) {
      assert UserKey(a)[5..] == UserKey(b)[5..];
    }
  }

  /** `updateUser(req)`: a failure, including a body that is not form data,
      changes nothing; success saves the edited investor and caches its
      public profile without a lifetime. */
  method UpdateUser(db: Db, cache: Cache, header: Option<string>, form: Option<Form>)
    returns (r: Outcome<ApiResponse<Js>>)
    modifies db, cache
    ensures cache.strings == old(cache.strings) && cache.counters == old(cache.counters)
    ensures db.chats == old(db.chats) && db.messages == old(db.messages) && db.prompts == old(db.prompts)
    ensures db.aiResponses == old(db.aiResponses) && db.histories == old(db.histories)
    ensures var u := Updated(old(db.investors), header, form);
            (u.Throws? ==> r == Throws(u.error) && db.investors == old(db.investors) && cache.json == old(cache.json))
            && (u.Ok? ==>
                  var (id, rec) := u.value;
                  db.investors == old(db.investors)[id := rec]
                  && cache.json == old(cache.json)[UserKey(header.value) := Entry(Json(JObj(Sanitized(id, rec))), NoExpiry)]
                  && r == Respond(200, JObj(Sanitized(id, rec)), "Profile updated successfully"))
  {
    ghost var u := Updated(db.investors, header, form);
    if header.None? || header.value == "" {
      return Fail(401, "Unauthorized user");
    }
    var userId := header.value;
    if form.None? {
      return Throws(Rethrow(FormDataError));
    }
    if !IsValidId(userId) {
      return Throws(Rethrow(CastError));
    }
    var id := Canon(userId);
    if id !in db.investors {
      return Fail(404, "User not found");
    }
    var user := Overwrite(db.investors[id], form.value);
    var password := PasswordChange(db.investors[id].password, form.value.oldPassword, form.value.newPassword);
    if password.Throws? {
      return Throws(Rethrow(password.error));
    }
    user := user.(password := password.value);
    if TakenByOther(db.investors, id, user.email) {
      return Throws(Rethrow(DuplicateEmail));
    }
    assert u == Ok((id, user));
    db.investors := db.investors[id := user];
    var profile := Sanitized(id, user);
    cache.SetJson("user:" + userId, Json(JObj(profile)));
    r := Respond(200, JObj(profile), "Profile updated successfully");
  }

  /** A wrong old password rejects the whole update: no field is saved, even
      the ones that were valid. */
  lemma WrongOldPasswordSavesNothing(investors: map<string, InvestorRec>, header: Option<string>, form: Form)
    requires Given(header) && IsValidId(header.value) && Canon(header.value) in investors
    requires Given(form.oldPassword) && Given(form.newPassword) && form.oldPassword != form.newPassword
    requires form.oldPassword.value != investors[Canon(header.value)].password
    ensures Updated(investors, header, Some(form)) == Fail(400, "Old password is incorrect")
  {
  }
}
