/** Posting the reconciled record upstream, with the one-shot token refresh on 403
    (API.py:130-158). */
module Forwarder {
  import opened Wrappers
  import opened Http
  import Token

  /** What one `requests.post` to the upstream API yields: an exception (connection
      error, timeout) or a response with a status code. */
  datatype PostReply = PostFailed | PostStatus(code: int)

  /** One POST as sent: the URL and the `Authorization` header. */
  datatype Attempt = Attempt(url: string, authorization: string)

  /** The outcome of forwarding: whether the record was accepted, the POSTs made, in order,
      and the stored token afterwards. */
  datatype Forwarded = Forwarded(delivered: bool, attempts: seq<Attempt>, token: Option<string>)

  const AnalysisPath := "/analysis/ruleofthumb"
  const Forbidden := 403

  function Bearer(token: string): string {
    "Bearer " + token
  }

  /** A reply that `raise_for_status` lets through. */
  predicate Accepted(reply: PostReply) {
    reply.PostStatus? && !IsHttpError(reply.code)
  }

  /** Forwarding as the source does it. `token` is the stored token on entry (`None` when
      none was ever obtained: the header f-string then raises before any POST), `replies`
      the upstream's replies to successive POSTs, `auth` the reply of the authentication
      endpoint should a refresh be made. The first POST goes to the analysis path; the
      retry goes to the bare endpoint. */
  function Forward(token: Option<string>, endpoint: string, replies: seq<PostReply>, auth: Token.AuthReply): (f: Forwarded)
    requires |replies| >= 2
    ensures |f.attempts| <= 2
    ensures f.attempts == [] <==> token.None?
    ensures |f.attempts| == 2 <==> token.Some? && replies[0] == PostStatus(Forbidden)
    ensures f.attempts != [] ==> f.attempts[0] == Attempt(endpoint + AnalysisPath, Bearer(token.value))
    ensures |f.attempts| == 2 ==>
              f.token == Token.Refreshed(token, auth) && f.token.Some? &&
              f.attempts[1] == Attempt(endpoint, Bearer(f.token.value))
    ensures |f.attempts| != 2 ==> f.token == token
    ensures f.delivered <==> f.attempts != [] && Accepted(replies[|f.attempts| - 1])
  {
    match token
    case None => Forwarded(false, [], token)
    case Some(t) =>
      var first := Attempt(endpoint + AnalysisPath, Bearer(t));
      if replies[0] == PostStatus(Forbidden) then
        var t' := Token.Refreshed(token, auth);
        Forwarded(Accepted(replies[1]), [first, Attempt(endpoint, Bearer(t'.value))], t')
      else
        Forwarded(Accepted(replies[0]), [first], token)
  }

  /** A second 403 is a failure like any other: no third POST is made. */
  lemma ForbiddenTwiceFails(token: Option<string>, endpoint: string, replies: seq<PostReply>, auth: Token.AuthReply)
    requires |replies| >= 2 && token.Some?
    requires replies[0] == PostStatus(Forbidden) && replies[1] == PostStatus(Forbidden)
    ensures !Forward(token, endpoint, replies, auth).delivered
    ensures |Forward(token, endpoint, replies, auth).attempts| == 2
  {
  }

  /** Forwarding reads at most the first two upstream replies. */
  lemma OnlyTwoRepliesMatter(token: Option<string>, endpoint: string, replies: seq<PostReply>, more: seq<PostReply>, auth: Token.AuthReply)
    requires |replies| >= 2
    ensures Forward(token, endpoint, replies + more, auth) == Forward(token, endpoint, replies, auth)
  {
  }

  /** The step-by-step forwarder: `headers_out` and `response` are reassigned across the
      retry, and the refresh goes through the shared token manager. */
  method ForwardRecord(tokens: Token.TokenManager, endpoint: string, replies: seq<PostReply>, auth: Token.AuthReply)
    returns (delivered: bool, attempts: seq<Attempt>)
    requires |replies| >= 2
    modifies tokens
    ensures Forward(old(tokens.token), endpoint, replies, auth) == Forwarded(delivered, attempts, tokens.token)
    ensures tokens.refreshes == old(tokens.refreshes) + (if |attempts| == 2 then 1 else 0)
  {
    if tokens.token.None? {
      // the header f-string fails on the unset global: nothing is posted
      return false, [];
    }
    var authorization := Bearer(tokens.token.value);
    attempts := [Attempt(endpoint + AnalysisPath, authorization)];
    var response := replies[0];
    if response == PostStatus(Forbidden) {
      tokens.Refresh(auth);
      authorization := Bearer(tokens.token.value);
      attempts := attempts + [Attempt(endpoint, authorization)];
      response := replies[1];
    }
    delivered := Accepted(response);
  }
}
