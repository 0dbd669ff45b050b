/** Resetting a password with an emailed token
    (controllers/auth/reset-password.controller.ts). */
module ResetPassword {
  import opened Wrappers
  import opened Json
  import opened Ids
  import opened Api
  import opened Records
  import opened Store
  import opened Accounts
  import opened AsyncHandler

  /** The cache key a reset token is stored under. */
  function TokenKey(token: Js): (r: string)
    ensures |r| == 10 + |JsString(token)|
    ensures r[..10] == "pwd-reset:" && r[10..] == JsString(token)
  {
    "pwd-reset:" + JsString(token)
  }

  /** Two tokens name the same cache entry exactly when their texts are
      equal. */
  lemma TokenKeyInjective(a: Js, b: Js)
    ensures TokenKey(a) == TokenKey(b) <==> JsString(a) == JsString(b)
  {
    if TokenKey(a) == TokenKey(b) {
      assert TokenKey(a)[10..] == TokenKey(b)[10..];
    }
  }

  const SamePassword: string := "New password cannot be the same as the old password"

  /** The checks of lines 14-34 on the current cache strings and investors:
      the id of the investor whose password is to change, or the error
      thrown. A stored id that is not an id makes `findById` throw. The stored
      password stands for its hash, so `comparePassword` is equality on a
      string; bcrypt rejects any other new password. */
  function ResetTarget(strings: map<string, Entry<string>>, investors: map<string, InvestorRec>,
                       token: Option<Js>, newPassword: Option<Js>): (r: Outcome<string>)
    ensures !TruthyOpt(token) || !TruthyOpt(newPassword) ==> r == Fail(400, "Token and new password are required")
    ensures TruthyOpt(token) && TruthyOpt(newPassword) && !TruthyString(ValueOf(strings, TokenKey(token.value))) ==>
              r == Fail(400, "Invalid or expired token")
    ensures r.Ok? ==>
              TruthyOpt(token) && TruthyOpt(newPassword)
              && ValueOf(strings, TokenKey(token.value)).Some?
              && IsValidId(ValueOf(strings, TokenKey(token.value)).value)
              && r.value == Canon(ValueOf(strings, TokenKey(token.value)).value)
              && r.value in investors && newPassword.value.JStr?
              && investors[r.value].password != newPassword.value.s
    ensures r.Throws? && r.error.Error? ==>
              r.error == CastError || (TruthyOpt(newPassword) && r.error == IllegalArguments(newPassword.value))
    ensures r.Throws? && r.error.ApiError? ==> r.error.statusCode in {400, 404}
    ensures (TruthyOpt(token) && TruthyOpt(newPassword) && TruthyString(ValueOf(strings, TokenKey(token.value)))
             && IsValidId(ValueOf(strings, TokenKey(token.value)).value)
             && Canon(ValueOf(strings, TokenKey(token.value)).value) in investors)
            ==> (!newPassword.value.JStr? ==> r == Throws(IllegalArguments(newPassword.value)))
                && (newPassword.value.JStr?
                    && investors[Canon(ValueOf(strings, TokenKey(token.value)).value)].password == newPassword.value.s
                    ==> r == Fail(400, SamePassword))
  {
    if !TruthyOpt(token) || !TruthyOpt(newPassword) then Fail(400, "Token and new password are required")
    else
      var userId := ValueOf(strings, TokenKey(token.value));
      if !TruthyString(userId) then Fail(400, "Invalid or expired token")
      else if !IsValidId(userId.value) then Throws(CastError)
      else if Canon(userId.value) !in investors then Fail(404, "User not found")
      else if !newPassword.value.JStr? then Throws(IllegalArguments(newPassword.value))
      else if investors[Canon(userId.value)].password == newPassword.value.s then Fail(400, SamePassword)
      else Ok(Canon(userId.value))
  }

  /** `resetPassword(req)` for the parsed request body (`None` when it is
      not JSON). A failure, including a body that cannot be destructured,
      changes nothing; success replaces the investor's password and deletes
      the token. */
  method ResetPassword(db: Db, cache: Cache, body: Option<Js>)
    returns (r: Outcome<ApiResponse<Js>>)
    modifies db, cache
    ensures cache.json == old(cache.json) && cache.counters == old(cache.counters)
    ensures db.chats == old(db.chats) && db.messages == old(db.messages) && db.prompts == old(db.prompts)
    ensures db.aiResponses == old(db.aiResponses) && db.histories == old(db.histories)
    ensures JsonBody(body).Throws? ==>
              r == Throws(JsonBody(body).error) && db.investors == old(db.investors) && cache.strings == old(cache.strings)
    ensures JsonBody(body).Ok? ==>
            var token, newPassword := Get(body.value, "token"), Get(body.value, "newPassword");
            var t := ResetTarget(old(cache.strings), old(db.investors), token, newPassword);
            (t.Throws? ==> r == Throws(t.error) && db.investors == old(db.investors)
                           && cache.strings == old(cache.strings))
            && (t.Ok? ==>
                  db.investors == old(db.investors)[t.value := old(db.investors)[t.value].(password := JsString(newPassword.value))]
                  && cache.strings == old(cache.strings) - {TokenKey(token.value)}
                  && r == Respond(200, JNull, "Password reset successfully"))
  {
    var fields := JsonBody(body);
    if fields.Throws? {
      return Throws(fields.error);
    }
    var token, newPassword := Get(fields.value, "token"), Get(fields.value, "newPassword");
    ghost var t := ResetTarget(cache.strings, db.investors, token, newPassword);
    if !TruthyOpt(token) || !TruthyOpt(newPassword) {
      return Fail(400, "Token and new password are required");
    }
    var key := "pwd-reset:" + JsString(token.value);
    var userId := cache.GetString(key);
    if !TruthyString(userId) {
      return Fail(400, "Invalid or expired token");
    }
    if !IsValidId(userId.value) {
      return Throws(CastError);
    }
    var id := Canon(userId.value);
    if id !in db.investors {
      return Fail(404, "User not found");
    }
    if !newPassword.value.JStr? {
      return Throws(IllegalArguments(newPassword.value));
    }
    if db.investors[id].password == newPassword.value.s {
      return Fail(400, SamePassword);
    }
    assert t == Ok(id);
    db.investors := db.investors[id := db.investors[id].(password := JsString(newPassword.value))];
    cache.DelString(key);
    r := Respond(200, JNull, "Password reset successfully");
  }

  /** A truthy new password that is not a string (a number, `true`, an
      object) gets past the token and user checks but is rejected by bcrypt,
      so the wrapper answers 500 and no password is reset. */
  lemma NonStringPasswordAnswered500(strings: map<string, Entry<string>>, investors: map<string, InvestorRec>,
                                     token: Js, newPassword: Js)
    requires Truthy(token) && Truthy(newPassword) && !newPassword.JStr?
    requires TruthyString(ValueOf(strings, TokenKey(token))) && IsValidId(ValueOf(strings, TokenKey(token)).value)
    requires Canon(ValueOf(strings, TokenKey(token)).value) in investors
    ensures ResetTarget(strings, investors, Some(token), Some(newPassword)) == Throws(IllegalArguments(newPassword))
    ensures Handle(Throws(IllegalArguments(newPassword))).value.status == 500
  {
  }

  /** A token works once: after a successful reset the same token, with any
      new password, is refused as invalid. */
  lemma TokenSingleUse(strings: map<string, Entry<string>>, investors: map<string, InvestorRec>,
                       token: Js, newPassword: Js, again: Js)
    requires ResetTarget(strings, investors, Some(token), Some(newPassword)).Ok?
    requires Truthy(again)
    ensures var id := ResetTarget(strings, investors, Some(token), Some(newPassword)).value;
            var after := investors[id := investors[id].(password := JsString(newPassword))];
            ResetTarget(strings - {TokenKey(token)}, after, Some(token), Some(again))
              == Fail(400, "Invalid or expired token")
  {
  }

  /** A successful reset really changes the password, and only that
      investor's. */
  lemma ResetChangesOnlyTarget(strings: map<string, Entry<string>>, investors: map<string, InvestorRec>,
                               token: Js, newPassword: Js, other: string)
    requires ResetTarget(strings, investors, Some(token), Some(newPassword)).Ok?
    ensures var id := ResetTarget(strings, investors, Some(token), Some(newPassword)).value;
            var after := investors[id := investors[id].(password := JsString(newPassword))];
            after[id].password != investors[id].password
            && after[id].password == JsString(newPassword)
            && (other != id && other in investors ==> after[other] == investors[other])
  {
  }
}
