/** The process-wide MammalWeb bearer token and its refresh (`get_mw_api_token`, API.py:56-79). */
module Token {
  import opened Wrappers
  import opened Http

  /** What the client-credentials exchange with the authentication endpoint yields.
      `accessToken` is `None` when the reply body is not JSON or has no `access_token` key. */
  datatype AuthReply =
    | AuthUnreachable
    | AuthResponse(status: int, accessToken: Option<string>)

  /** The token a reply grants, if it grants one. */
  function Granted(reply: AuthReply): (t: Option<string>)
    ensures t.Some? <==> reply.AuthResponse? && !IsHttpError(reply.status) && reply.accessToken.Some?
    ensures t.Some? ==> t == reply.accessToken
  {
    match reply
    case AuthUnreachable => None
    case AuthResponse(status, accessToken) => if IsHttpError(status) then None else accessToken
  }

  /** The stored token after one refresh: a granted token replaces it, any failure keeps it. */
  function Refreshed(prev: Option<string>, reply: AuthReply): (t: Option<string>)
    ensures t == prev || t == Granted(reply)
    ensures Granted(reply).Some? ==> t == Granted(reply)
    ensures Granted(reply).None? ==> t == prev
  {
    if Granted(reply).Some? then Granted(reply) else prev
  }

  /** The stored token after a run of refreshes (the eager one at startup and one per 403). */
  function AfterRefreshes(start: Option<string>, replies: seq<AuthReply>): Option<string>
    decreases |replies|
  {
    if replies == [] then start
    else Refreshed(AfterRefreshes(start, replies[..|replies| - 1]), replies[|replies| - 1])
  }

  /** With no successful refresh in a run, the token is what it was before the run. */
  lemma {:induction false} NoGrantKeepsToken(start: Option<string>, replies: seq<AuthReply>)
    requires forall i :: 0 <= i < |replies| ==> Granted(replies[i]).None?
    ensures AfterRefreshes(start, replies) == start
    decreases |replies|
  {
    if replies != [] {
      var n := |replies| - 1;
      assert Granted(replies[n]).None?;
      NoGrantKeepsToken(start, replies[..n]);
    }
  }

  /** The last successful refresh of a run wins: later failures do not undo it. */
  lemma {:induction false} LastGrantWins(start: Option<string>, replies: seq<AuthReply>, i: nat)
    requires i < |replies| && Granted(replies[i]).Some?
    requires forall j :: i < j < |replies| ==> Granted(replies[j]).None?
    ensures AfterRefreshes(start, replies) == Granted(replies[i])
    decreases |replies|
  {
    var n := |replies| - 1;
    if i < n {
      assert Granted(replies[n]).None?;
      var init := replies[..n];
      assert forall j :: i < j < |init| ==> init[j] == replies[j];
      LastGrantWins(start, init, i);
    }
  }

  /** Once a token has been obtained, no refresh can take it away. */
  lemma {:induction false} TokenNeverLost(start: Option<string>, replies: seq<AuthReply>)
    requires start.Some?
    ensures AfterRefreshes(start, replies).Some?
    decreases |replies|
  {
    if replies != [] {
      TokenNeverLost(start, replies[..|replies| - 1]);
    }
  }

  /** Holder of the global `MAMMALWEB_TOKEN`; `None` until a refresh first succeeds. */
  class TokenManager {
    var token: Option<string>
    /** The number of refreshes (`get_mw_api_token` calls) made so far, whether or not the exchange was reached. */
    ghost var refreshes: nat

    constructor ()
      ensures token == None && refreshes == 0
    {
      token := None;
      refreshes := 0;
    }

    /** One refresh: the credentials exchange, `raise_for_status`, then the `access_token` lookup, then
        the overwrite; a failure at any step leaves the token as it was. */
    method Refresh(reply: AuthReply)
      modifies this
      ensures token == Refreshed(old(token), reply)
      ensures refreshes == old(refreshes) + 1
    {
      refreshes := refreshes + 1;
      match reply {
        case AuthUnreachable =>
        case AuthResponse(status, accessToken) =>
          if !IsHttpError(status) {
            if accessToken.Some? {
              token := accessToken;
            }
          }
      }
    }
  }
}
