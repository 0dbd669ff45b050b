/** Investor lookups shared by the account controllers. */
module Accounts {
  import opened Wrappers
  import opened Json
  import opened Records

  /** The investor with id `k` is registered under `email`. */
  predicate Holds(investors: map<string, InvestorRec>, k: string, email: string) {
    k in investors && investors[k].email == email
  }

  /** Some investor is registered under `email`. */
  predicate Registered(investors: map<string, InvestorRec>, email: string) {
    exists k :: k in investors && Holds(investors, k, email)
  }

  /** The unique index on the email path: no two investors share an email. */
  predicate UniqueEmails(investors: map<string, InvestorRec>) {
    forall a, b :: a in investors && b in investors && investors[a].email == investors[b].email ==> a == b
  }

  /** A present, non-empty cached string. */
  predicate TruthyString(o: Option<string>) {
    o.Some? && o.value != ""
  }

  /** The text a body value is queried and keyed by: `String(v)`, which is
      also what the driver casts a scalar to for a string path. */
  function EmailText(v: Js): string {
    JsString(v)
  }

  /** Under the unique index, the investor registered under an email is
      unique. */
  lemma HolderUnique(investors: map<string, InvestorRec>, email: string, a: string, b: string)
    requires UniqueEmails(investors) && Holds(investors, a, email) && Holds(investors, b, email)
    ensures a == b
  {
  }
}
