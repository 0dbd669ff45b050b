/** OTP verification (controllers/auth/verify-otp.controller.ts). */
module VerifyOtp {
  import opened Wrappers
  import opened Json
  import opened Api
  import opened Records
  import opened Store
  import opened Accounts

  /** The key a signup OTP is cached under: the prefix, then the email's
      text. */
  function SignupKey(email: Js): (r: string)
    ensures |r| == 11 + |EmailText(email)|
    ensures r[..11] == "signup_otp:" && r[11..] == EmailText(email)
  {
    "signup_otp:" + EmailText(email)
  }

  /** The key a password-reset OTP is cached under. */
  function ResetKey(email: Js): (r: string)
    ensures |r| == 10 + |EmailText(email)|
    ensures r[..10] == "reset_otp:" && r[10..] == EmailText(email)
  {
    "reset_otp:" + EmailText(email)
  }

  /** Two emails share a signup (or reset) key exactly when their texts are
      equal. */
  lemma OtpKeysInjective(a: Js, b: Js)
    ensures SignupKey(a) == SignupKey(b) <==> EmailText(a) == EmailText(b)
    ensures ResetKey(a) == ResetKey(b) <==> EmailText(a) == EmailText(b)
  {
    if SignupKey(a) == SignupKey(b) {
      assert SignupKey(a)[11..] == SignupKey(b)[11..];
    }
    if ResetKey(a) == ResetKey(b) {
      assert ResetKey(a)[10..] == ResetKey(b)[10..];
    }
  }

  /** Both OTP keys of an email are different cache keys. */
  lemma OtpKeysDiffer(email: Js)
    ensures SignupKey(email) != ResetKey(email)
  {
    assert SignupKey(email)[0] == 's' && ResetKey(email)[0] == 'r';
  }

  /** `otpReset || otpSignup`: the reset code when there is a non-empty one,
      else the sign-up code when there is a non-empty one. */
  function StoredOtp(strings: map<string, Entry<string>>, email: Js): (r: Option<string>)
    ensures TruthyString(ValueOf(strings, ResetKey(email))) ==> r == ValueOf(strings, ResetKey(email))
    ensures !TruthyString(ValueOf(strings, ResetKey(email))) && TruthyString(ValueOf(strings, SignupKey(email))) ==>
              r == ValueOf(strings, SignupKey(email))
    ensures r.None? <==> !TruthyString(ValueOf(strings, ResetKey(email))) && !TruthyString(ValueOf(strings, SignupKey(email)))
    ensures r.Some? ==> r.value != ""
  {
    var reset, signup := ValueOf(strings, ResetKey(email)), ValueOf(strings, SignupKey(email));
    if TruthyString(reset) then reset else if TruthyString(signup) then signup else None
  }

  /** The checks of lines 15-40 in order, on what the reads returned: `None`
      when the code matches, else the error thrown. */
  function OtpError(email: Option<Js>, otp: Option<Js>, registered: bool, stored: Option<string>): (r: Option<Thrown>)
    ensures !TruthyOpt(email) || !TruthyOpt(otp) ==> r == Some(ApiError(400, "Email and OTP are required", None))
    ensures TruthyOpt(email) && TruthyOpt(otp) && !registered ==> r == Some(ApiError(404, "Investor not found", None))
    ensures TruthyOpt(email) && TruthyOpt(otp) && registered && stored.None? ==>
              r == Some(ApiError(400, "OTP expired or invalid", None))
    ensures r.None? <==> TruthyOpt(email) && TruthyOpt(otp) && registered && stored.Some?
                         && Trim(stored.value) == Trim(JsString(otp.value))
    ensures r.Some? ==> r.value.ApiError? && r.value.statusCode in {400, 404}
  {
    if !TruthyOpt(email) || !TruthyOpt(otp) then Some(ApiError(400, "Email and OTP are required", None))
    else
      var otpStr := Trim(JsString(otp.value));
      if !registered then Some(ApiError(404, "Investor not found", None))
      else if stored.None? then Some(ApiError(400, "OTP expired or invalid", None))
      else if Trim(stored.value) != otpStr then Some(ApiError(400, "Invalid OTP", None))
      else None
  }

  /** Lines 43-47: both codes deleted and the investor `k` marked verified. */
  method Confirm(db: Db, cache: Cache, email: Js, k: string)
    requires k in db.investors
    modifies db, cache
    ensures cache.json == old(cache.json) && cache.counters == old(cache.counters)
    ensures db.chats == old(db.chats) && db.messages == old(db.messages) && db.prompts == old(db.prompts)
    ensures db.aiResponses == old(db.aiResponses) && db.histories == old(db.histories)
    ensures cache.strings == old(cache.strings) - {SignupKey(email), ResetKey(email)}
    ensures db.investors == old(db.investors)[k := old(db.investors)[k].(verified := true)]
  {
    cache.DelString("signup_otp:" + JsString(email));
    cache.DelString("reset_otp:" + JsString(email));
    db.investors := db.investors[k := db.investors[k].(verified := true)];
  }

  /** `verifyOTP(req)` for the parsed request body (`None` when it is not
      JSON). A body that cannot be destructured throws, and every failure
      leaves the store and the cache as they were; a match deletes both
      codes and marks the investor found under the email as verified. */
  method VerifyOtp(db: Db, cache: Cache, body: Option<Js>)
    returns (r: Outcome<ApiResponse<Js>>)
    modifies db, cache
    ensures cache.json == old(cache.json) && cache.counters == old(cache.counters)
    ensures db.chats == old(db.chats) && db.messages == old(db.messages) && db.prompts == old(db.prompts)
    ensures db.aiResponses == old(db.aiResponses) && db.histories == old(db.histories)
    ensures JsonBody(body).Throws? ==>
              r == Throws(JsonBody(body).error) && db.investors == old(db.investors) && cache.strings == old(cache.strings)
    ensures JsonBody(body).Ok? ==>
            var email, otp := Get(body.value, "email"), Get(body.value, "otp");
            var e := if email.Some? then EmailText(email.value) else "";
            var err := OtpError(email, otp, Registered(old(db.investors), e),
                                if email.Some? then StoredOtp(old(cache.strings), email.value) else None);
            (err.Some? ==> r == Throws(err.value) && db.investors == old(db.investors)
                           && cache.strings == old(cache.strings))
            && (err.None? ==>
                  r == Respond(200, JObj(map["email" := email.value, "verified" := JBool(true)]), "OTP verified successfully")
                  && cache.strings == old(cache.strings) - {SignupKey(email.value), ResetKey(email.value)}
                  && exists k :: Holds(old(db.investors), k, e)
                                 && db.investors == old(db.investors)[k := old(db.investors)[k].(verified := true)])
  {
    var fields := JsonBody(body);
    if fields.Throws? {
      return Throws(fields.error);
    }
    var email, otp := Get(fields.value, "email"), Get(fields.value, "otp");
    if !TruthyOpt(email) || !TruthyOpt(otp) {
      return Fail(400, "Email and OTP are required");
    }
    var signupKey, resetKey := "signup_otp:" + JsString(email.value), "reset_otp:" + JsString(email.value);
    var investor := db.FindInvestorByEmail(JsString(email.value));
    var otpSignup, otpReset := cache.GetString(signupKey), cache.GetString(resetKey);
    var storedOtp := if TruthyString(otpReset) then otpReset else if TruthyString(otpSignup) then otpSignup else None;
    assert signupKey == SignupKey(email.value) && resetKey == ResetKey(email.value);
    assert storedOtp == StoredOtp(cache.strings, email.value);
    assert investor.Some? == Registered(db.investors, EmailText(email.value));
    // the remaining checks: no investor, no code, a code that differs
    var err := OtpError(email, otp, investor.Some?, storedOtp);
    if err.Some? {
      return Throws(err.value);
    }
    assert Holds(db.investors, investor.value, EmailText(email.value));
    Confirm(db, cache, email.value, investor.value);
    r := Respond(200, JObj(map["email" := email.value, "verified" := JBool(true)]), "OTP verified successfully");
  }

  /** A code is good for one verification: once both keys are deleted, the
      next attempt with the same email finds no code. */
  lemma OtpSingleUse(strings: map<string, Entry<string>>, email: Js, otp: Option<Js>)
    requires TruthyOpt(otp) && Truthy(email)
    ensures StoredOtp(strings - {SignupKey(email), ResetKey(email)}, email).None?
    ensures OtpError(Some(email), otp, true, StoredOtp(strings - {SignupKey(email), ResetKey(email)}, email))
              == Some(ApiError(400, "OTP expired or invalid", None))
  {
  }

  /** A fresh reset code overrides whatever sign-up code is still stored. */
  lemma ResetCodePreferred(strings: map<string, Entry<string>>, email: Js, code: string, ttl: int)
    requires code != ""
    ensures StoredOtp(strings[ResetKey(email) := Entry(code, ttl)], email) == Some(code)
  {
  }
}
