/** Sending a fresh reset code (controllers/auth/regenerate-otp.controller.ts). */
module RegenerateOtp {
  import opened Wrappers
  import opened Json
  import opened Api
  import opened Records
  import opened Store
  import opened Accounts
  import opened VerifyOtp

  /** Lifetime of a reset code: five minutes. */
  const OtpTtl: int := 300

  const SentMessage: string := "OTP sent successfully \U{1F680}"

  /** Every investor registered under `email` is already verified. */
  predicate AllVerified(investors: map<string, InvestorRec>, email: string) {
    forall k :: k in investors && Holds(investors, k, email) ==> investors[k].verified
  }

  /** `resetOTP(req)` for the parsed request body (`None` when it is not
      JSON); `otp` is the code the generator produced. Nothing is stored
      unless the body has an email that an unverified investor holds; then
      the code is stored under `reset_otp:{email}` for five minutes. */
  method ResetOtp(db: Db, cache: Cache, body: Option<Js>, otp: string)
    returns (r: Outcome<ApiResponse<Js>>)
    modifies cache
    ensures cache.json == old(cache.json) && cache.counters == old(cache.counters)
    ensures r.Throws? ==> cache.strings == old(cache.strings)
    ensures JsonBody(body).Throws? ==> r == Throws(JsonBody(body).error)
    ensures JsonBody(body).Ok? ==>
            var email := Get(body.value, "email");
            (!TruthyOpt(email) ==> r == Fail(400, "Email is required"))
            && (TruthyOpt(email) && !Registered(db.investors, EmailText(email.value)) ==>
                  r == Fail(404, "No user with this email exists"))
            && ((TruthyOpt(email) && Registered(db.investors, EmailText(email.value))
                 && AllVerified(db.investors, EmailText(email.value))) ==>
                  r == Fail(403, "This account is already verified"))
            && (r.Throws? ==> r.error.ApiError? && r.error.statusCode in {400, 403, 404})
            && (r.Ok? ==>
                  TruthyOpt(email)
                  && (exists k :: Holds(db.investors, k, EmailText(email.value)) && !db.investors[k].verified)
                  && cache.strings == old(cache.strings)[ResetKey(email.value) := Entry(otp, OtpTtl)]
                  && r == Respond(200, JObj(map["email" := email.value]), SentMessage))
            && ((TruthyOpt(email) && !AllVerified(db.investors, EmailText(email.value))
                 && UniqueEmails(db.investors)) ==> r.Ok?)
  {
    var fields := JsonBody(body);
    if fields.Throws? {
      return Throws(fields.error);
    }
    var email := Get(fields.value, "email");
    if !TruthyOpt(email) {
      return Fail(400, "Email is required");
    }
    var investor := db.FindInvestorByEmail(JsString(email.value));
    if investor.None? {
      return Fail(404, "No user with this email exists");
    }
    if db.investors[investor.value].verified {
      return Fail(403, "This account is already verified");
    }
    var redisKey := "reset_otp:" + JsString(email.value);
    cache.SetStringEx(redisKey, otp, OtpTtl);
    assert Holds(db.investors, investor.value, EmailText(email.value));
    r := Respond(200, JObj(map["email" := email.value]), SentMessage);
  }

  /** Regenerating and then verifying: right after a non-empty code has been
      sent to a registered email, submitting that code is accepted whatever
      sign-up code is still stored. */
  lemma RegenerateThenVerify(strings: map<string, Entry<string>>, email: Js, otp: string)
    requires Truthy(email) && otp != ""
    ensures OtpError(Some(email), Some(JStr(otp)), true,
                     StoredOtp(strings[ResetKey(email) := Entry(otp, OtpTtl)], email)).None?
  {
    ResetCodePreferred(strings, email, otp, OtpTtl);
  }
}
