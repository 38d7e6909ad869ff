/** The answer to one `POST /auth/get_token`, as the agent's token loops classify it. */
module TokenReply {
  import opened Jwt

  datatype Reply =
    | HttpError            // connection failure or non-2xx status (`httpx.HTTPError`)
    | MissingAccessToken   // a 2xx body without `data.access_token`, or not JSON
    | Issued(token: Token) // `token_data["data"]["access_token"]`

  /** The reply to the `i`-th request; beyond the script the server is unreachable. */
  function ReplyAt(replies: seq<Reply>, i: nat): (r: Reply)
    ensures i >= |replies| ==> r == HttpError
    ensures i < |replies| ==> r == replies[i]
  {
    if i < |replies| then replies[i] else HttpError
  }
}
