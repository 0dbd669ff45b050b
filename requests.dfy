/** What the controllers read from a request: the investor header, trimmed
    query and body strings. */
module Requests {
  import opened Wrappers
  import opened Json

  /** `req.headers.get("x-temp-user-id")?.trim()`, with a missing header read
      as the empty string (both are falsy and rejected alike). */
  function InvestorHeader(header: Option<string>): (r: string)
    ensures r == "" <==> header.None? || IsBlank(header.value)
    ensures header.Some? ==> r == Trim(header.value)
  {
    if header.None? then "" else Trim(header.value)
  }

  /** `s?.trim() || undefined`: a present, non-blank string, trimmed. */
  function TrimmedOrNone(s: Option<string>): (r: Option<string>)
    ensures r.None? <==> s.None? || IsBlank(s.value)
    ensures r.Some? ==> r.value == Trim(s.value) && r.value != ""
  {
    if s.None? || Trim(s.value) == "" then None else Some(Trim(s.value))
  }

  /** The active-chat key the chat controllers build from the trimmed header
      as it is, without removing any character. */
  function RawActiveKey(investorId: string): string {
    "chat:" + investorId + ":active"
  }
}
