/**
 * The shared HTTP client's token handling (services/axios-instance.ts): the request
 * interceptor that attaches the stored access token, and the response interceptor that
 * coordinates one refresh at a time, parking further 401 responses in a queue of waiters.
 */
module TokenRefresh {
  import opened Wrappers

  /**
   * The "tokens" entry of local storage as the interceptors read it: missing (or empty),
   * present but rejected by `JSON.parse` or by destructuring, or an object whose `token`
   * and `refreshToken` fields may be missing.
   */
  datatype StoredTokens = Absent | Unparseable | Parsed(token: Option<string>, refreshToken: Option<string>)

  /** A JavaScript template-literal substitution of a possibly undefined string. */
  function Interpolate(s: Option<string>): string {
    if s.Some? then s.value else "undefined"
  }

  /** The request interceptor's `Authorization` header: `Bearer <token>` when the stored tokens parse and hold a token. */
  function AuthorizationFor(stored: StoredTokens): (r: Option<string>)
    ensures r.Some? <==> stored.Parsed? && Truthy(stored.token)
    ensures r.Some? ==> r.value == "Bearer " + stored.token.value
  {
    if stored.Parsed? && Truthy(stored.token) then Some("Bearer " + stored.token.value) else None
  }

  // ---------------------------------------------------------------------------------
  // The bearer scheme of section 2.1 of RFC 6750: credentials = "Bearer" 1*SP b64token,
  // b64token = 1*( ALPHA / DIGIT / "-" / "." / "_" / "~" / "+" / "/" ) *"=".

  predicate B64Char(c: char) {
    ('A' <= c <= 'Z') || ('a' <= c <= 'z') || ('0' <= c <= '9')
    || c == '-' || c == '.' || c == '_' || c == '~' || c == '+' || c == '/'
  }

  /** `t[..k]` is one or more token characters and `t[k..]` is padding. */
  predicate B64Split(t: string, k: nat) {
    0 < k <= |t| && (forall i :: 0 <= i < k ==> B64Char(t[i])) && (forall i :: k <= i < |t| ==> t[i] == '=')
  }

  predicate IsB64Token(t: string) {
    exists k: nat | k <= |t| :: B64Split(t, k)
  }

  /** `h[6..n]` is the run of spaces after the scheme name and `h[n..]` the token. */
  predicate BearerSplit(h: string, n: nat) {
    6 < n <= |h| && (forall i :: 6 <= i < n ==> h[i] == ' ') && IsB64Token(h[n..])
  }

  predicate IsBearerCredentials(h: string) {
    |h| > 6 && h[..6] == "Bearer" && exists n: nat | n <= |h| :: BearerSplit(h, n)
  }

  /** The credential part of a `Bearer` header: what follows the first space after the scheme. */
  function BearerToken(h: string): Option<string> {
    if |h| > 7 && h[..7] == "Bearer " then Some(h[7..]) else None
  }

  /**
   * An attached header conforms to RFC 6750 when the stored token is a b64token, and (for a
   * token not starting with a space) only then; the token reads back from the header.
   */
  lemma AuthorizationIsBearerCredentials(stored: StoredTokens)
    requires AuthorizationFor(stored).Some?
    ensures IsB64Token(stored.token.value) ==> IsBearerCredentials(AuthorizationFor(stored).value)
    ensures stored.token.value[0] != ' ' ==>
      (IsBearerCredentials(AuthorizationFor(stored).value) <==> IsB64Token(stored.token.value))
    ensures BearerToken(AuthorizationFor(stored).value) == stored.token
  {
    var t := stored.token.value;
    var h := "Bearer " + t;
    assert h[..6] == "Bearer" && h[7..] == t;
    if IsB64Token(t) {
      assert BearerSplit(h, 7);
    }
    if IsBearerCredentials(h) && t[0] != ' ' {
      var n: nat :| n <= |h| && BearerSplit(h, n);
      assert n == 7;
      assert h[n..] == t;
    }
  }

  // ---------------------------------------------------------------------------------
  // Settling the queue of waiters.

  /** Why a refresh did not produce a token. */
  datatype RefreshError = TokensUnreadable | NoRefreshToken | RefreshRequestFailed

  /** How a queued waiter is settled: resolved with the new token, or rejected with the refresh error. */
  datatype Settlement = Resolved(token: Option<string>) | Rejected(error: RefreshError)

  /** `processQueue`'s effect on the waiters of `queue`, as (request id, settlement) pairs in queue order. */
  function SettleAll(queue: seq<nat>, outcome: Settlement): seq<(nat, Settlement)>
    decreases |queue|
  {
    if queue == [] then [] else SettleAll(queue[..|queue| - 1], outcome) + [(queue[|queue| - 1], outcome)]
  }

  /** Every waiter is settled once, in queue order, and all of them the same way. */
  lemma {:induction false} SettleAllSettlesEachAlike(queue: seq<nat>, outcome: Settlement)
    ensures |SettleAll(queue, outcome)| == |queue|
    ensures forall i :: 0 <= i < |queue| ==> SettleAll(queue, outcome)[i] == (queue[i], outcome)
    decreases |queue|
  {
    if queue != [] {
      SettleAllSettlesEachAlike(queue[..|queue| - 1], outcome);
    }
  }

  /** What the response interceptor does with an error, up to the refresh call. */
  datatype ErrorOutcome =
    | RejectUnchanged              // not a 401, or already retried
    | Queued                       // parked behind the refresh in progress
    | RedirectNoTokens             // no stored tokens: redirect and reject, no refresh
    | RefreshFailedEarly(error: RefreshError)  // thrown before the refresh call
    | RefreshSent(refreshToken: string)        // the refresh call is in flight

  /** The reply to the `/auth/refresh` call. */
  datatype RefreshReply = Refreshed(token: Option<string>, refreshToken: Option<string>) | RefreshRejected

  class RefreshCoordinator {
    var isRefreshing: bool
    var failedQueue: seq<nat>                    // ids of the requests waiting for the refresh
    var stored: StoredTokens
    var defaultAuthorization: Option<string>     // `axiosInstance.defaults.headers.common.Authorization`
    var inFlight: Option<(nat, string)>          // the request that started the refresh, and the refresh token sent
    var settled: seq<(nat, Settlement)>          // waiters settled so far
    var retried: seq<(nat, string)>              // requests re-sent after a refresh, with their header
    var redirectedToLogin: bool
    var marked: set<nat>                         // requests whose config carries `_retry = true`

    /**
     * The queue only fills while a refresh is marked in progress; a refresh in flight is
     * marked; the request that started a refresh, and every request re-sent after one,
     * carries the `_retry` mark.
     */
    ghost predicate Valid()
      reads this
    {
      && (!isRefreshing ==> failedQueue == [])
      && (inFlight.Some? ==> isRefreshing && inFlight.value.0 in marked)
      && (forall k :: 0 <= k < |retried| ==> retried[k].0 in marked)
    }

    constructor (stored: StoredTokens)
      ensures Valid() && this.stored == stored
      ensures !isRefreshing && failedQueue == [] && inFlight == None
      ensures defaultAuthorization == None && settled == [] && retried == [] && !redirectedToLogin
      ensures marked == {}
    {
      this.stored := stored;
      isRefreshing, failedQueue, inFlight := false, [], None;
      defaultAuthorization, settled, retried, redirectedToLogin := None, [], [], false;
      marked := {};
    }

    /** `processQueue`: settle every waiter with `outcome`, in order, then empty the queue. */
    method ProcessQueue(outcome: Settlement)
      modifies this
      ensures failedQueue == [] && settled == old(settled) + SettleAll(old(failedQueue), outcome)
      ensures isRefreshing == old(isRefreshing) && stored == old(stored) && inFlight == old(inFlight)
      ensures defaultAuthorization == old(defaultAuthorization) && retried == old(retried)
      ensures redirectedToLogin == old(redirectedToLogin) && marked == old(marked)
    {
      var i := 0;
      while i < |failedQueue|
        invariant 0 <= i <= |failedQueue| && failedQueue == old(failedQueue)
        invariant settled == old(settled) + SettleAll(failedQueue[..i], outcome)
        invariant isRefreshing == old(isRefreshing) && stored == old(stored) && inFlight == old(inFlight)
        invariant defaultAuthorization == old(defaultAuthorization) && retried == old(retried)
        invariant redirectedToLogin == old(redirectedToLogin) && marked == old(marked)
      {
        assert failedQueue[..i + 1][..i] == failedQueue[..i];
        settled := settled + [(failedQueue[i], outcome)];
        i := i + 1;
      }
      assert failedQueue[..i] == failedQueue;
      failedQueue := [];
    }

    /** The failure path shared by the early throws and a rejected refresh. */
    method FailRefresh(error: RefreshError)
      requires Valid()
      modifies this
      ensures Valid() && !isRefreshing && inFlight == None && failedQueue == []
      ensures settled == old(settled) + SettleAll(old(failedQueue), Rejected(error))
      ensures stored == Absent && redirectedToLogin
      ensures defaultAuthorization == old(defaultAuthorization) && retried == old(retried)
      ensures marked == old(marked)
    {
      ProcessQueue(Rejected(error));
      stored := Absent;
      redirectedToLogin := true;
      isRefreshing := false;
      inFlight := None;
    }

    /**
     * The response interceptor's error handler up to the `/auth/refresh` call, for the
     * request `requestId`. Only a 401 on a request without the `_retry` mark is handled; it
     * is queued, unmarked, while a refresh is in progress, and otherwise the request is
     * marked, the refresh marked in progress and one started.
     */
    method OnResponseError(requestId: nat, status: Option<int>) returns (outcome: ErrorOutcome)
      requires Valid()
      modifies this
      ensures Valid()
      ensures status != Some(401) || requestId in old(marked) ==>
        outcome == RejectUnchanged && isRefreshing == old(isRefreshing) && failedQueue == old(failedQueue)
        && inFlight == old(inFlight) && stored == old(stored) && settled == old(settled)
      ensures (exists k :: 0 <= k < |old(retried)| && old(retried)[k].0 == requestId) ==> outcome == RejectUnchanged
      ensures status == Some(401) && requestId !in old(marked) && old(isRefreshing) ==>
        outcome == Queued && failedQueue == old(failedQueue) + [requestId]
        && isRefreshing && inFlight == old(inFlight) && stored == old(stored) && settled == old(settled)
      ensures status == Some(401) && requestId !in old(marked) && !old(isRefreshing) ==>
        marked == old(marked) + {requestId}
      ensures outcome.RejectUnchanged? || outcome.Queued? ==> marked == old(marked)
      ensures status == Some(401) && requestId !in old(marked) && !old(isRefreshing) && old(stored) == Absent ==>
        outcome == RedirectNoTokens && isRefreshing && inFlight == None && failedQueue == []
        && redirectedToLogin && stored == Absent && settled == old(settled)
      ensures status == Some(401) && requestId !in old(marked) && !old(isRefreshing) && old(stored) == Unparseable ==>
        outcome == RefreshFailedEarly(TokensUnreadable) && settled == old(settled)
      ensures status == Some(401) && requestId !in old(marked) && !old(isRefreshing)
              && old(stored).Parsed? && !Truthy(old(stored).refreshToken) ==>
        outcome == RefreshFailedEarly(NoRefreshToken) && settled == old(settled)
      ensures outcome.RefreshFailedEarly? ==>
        && (old(stored) == Unparseable || (old(stored).Parsed? && !Truthy(old(stored).refreshToken)))
        && !isRefreshing && stored == Absent && redirectedToLogin
      ensures outcome.RefreshSent? <==>
        status == Some(401) && requestId !in old(marked) && !old(isRefreshing)
        && old(stored).Parsed? && Truthy(old(stored).refreshToken)
      ensures outcome.RefreshSent? ==>
        outcome.refreshToken == old(stored).refreshToken.value && isRefreshing
        && inFlight == Some((requestId, outcome.refreshToken)) && failedQueue == [] && stored == old(stored)
        && settled == old(settled)
      ensures defaultAuthorization == old(defaultAuthorization) && retried == old(retried)
      ensures outcome.RejectUnchanged? || outcome.Queued? || outcome.RefreshSent? ==>
        redirectedToLogin == old(redirectedToLogin)
    {
      if status != Some(401) || requestId in marked {
        return RejectUnchanged;
      }
      if isRefreshing {
        failedQueue := failedQueue + [requestId];
        return Queued;
      }
      marked := marked + {requestId};
      isRefreshing := true;
      match stored {
        case Absent =>
          stored := Absent;
          redirectedToLogin := true;
          outcome := RedirectNoTokens;
        case Unparseable =>
          FailRefresh(TokensUnreadable);
          outcome := RefreshFailedEarly(TokensUnreadable);
        case Parsed(_, refreshToken) =>
          if !Truthy(refreshToken) {
            FailRefresh(NoRefreshToken);
            outcome := RefreshFailedEarly(NoRefreshToken);
          } else {
            inFlight := Some((requestId, refreshToken.value));
            outcome := RefreshSent(refreshToken.value);
          }
      }
    }

    /**
     * The rest of the handler once `/auth/refresh` settles. On success the new tokens are
     * stored (the old refresh token kept when none is returned), the default header is set,
     * the waiters are resolved with the new token and the original request is re-sent; on
     * failure the waiters are rejected, the tokens removed and the page sent to login.
     * Either way the refresh is no longer in progress.
     */
    method OnRefreshReply(reply: RefreshReply)
      requires Valid() && inFlight.Some?
      modifies this
      ensures Valid() && !isRefreshing && inFlight == None && failedQueue == []
      ensures reply.Refreshed? ==>
        var oldRefresh := old(inFlight).value.1;
        var header := "Bearer " + Interpolate(reply.token);
        && stored == Parsed(reply.token, Some(if Truthy(reply.refreshToken) then reply.refreshToken.value else oldRefresh))
        && defaultAuthorization == Some(header)
        && settled == old(settled) + SettleAll(old(failedQueue), Resolved(reply.token))
        && retried == old(retried) + [(old(inFlight).value.0, header)]
        && redirectedToLogin == old(redirectedToLogin)
      ensures old(inFlight).value.0 in marked && marked == old(marked)
      ensures reply.RefreshRejected? ==>
        && stored == Absent && redirectedToLogin
        && settled == old(settled) + SettleAll(old(failedQueue), Rejected(RefreshRequestFailed))
        && defaultAuthorization == old(defaultAuthorization) && retried == old(retried)
    {
      var (requestId, oldRefresh) := inFlight.value;
      match reply {
        case Refreshed(token, refreshToken) =>
          stored := Parsed(token, Some(if Truthy(refreshToken) then refreshToken.value else oldRefresh));
          var header := "Bearer " + Interpolate(token);
          defaultAuthorization := Some(header);
          ProcessQueue(Resolved(token));
          retried := retried + [(requestId, header)];
          isRefreshing := false;
          inFlight := None;
        case RefreshRejected =>
          FailRefresh(RefreshRequestFailed);
      }
    }
  }

  /**
   * After the no-tokens path for request 0 nothing clears the in-progress mark: every later
   * 401 on another request is queued, no refresh is started, and no waiter is ever settled.
   */
  method NoTokensPathParksLaterRequests(later: seq<nat>) returns (c: RefreshCoordinator)
    requires 0 !in later
    ensures c.isRefreshing && c.inFlight == None && c.redirectedToLogin
    ensures c.failedQueue == later && c.settled == []
  {
    c := new RefreshCoordinator(Absent);
    var first := c.OnResponseError(0, Some(401));
    assert first == RedirectNoTokens;
    var i := 0;
    while i < |later|
      invariant 0 <= i <= |later| && c.Valid()
      invariant c.isRefreshing && c.inFlight == None && c.redirectedToLogin
      invariant c.failedQueue == later[..i] && c.settled == [] && c.stored == Absent
      invariant c.marked == {0}
    {
      var o := c.OnResponseError(later[i], Some(401));
      assert later[..i + 1] == later[..i] + [later[i]];
      i := i + 1;
    }
    assert later[..i] == later;
  }

  /**
   * The request that started a successful refresh is re-sent with the `_retry` mark, so a
   * second 401 on it is rejected unchanged and starts no second refresh.
   */
  method ResentRequestIsNotRefreshedAgain(requestId: nat, token: Option<string>, refreshToken: string, reply: RefreshReply)
    returns (first: ErrorOutcome, second: ErrorOutcome, refreshing: bool)
    requires refreshToken != "" && reply.Refreshed?
    ensures first == RefreshSent(refreshToken)
    ensures second == RejectUnchanged && !refreshing
  {
    var c := new RefreshCoordinator(Parsed(token, Some(refreshToken)));
    first := c.OnResponseError(requestId, Some(401));
    c.OnRefreshReply(reply);
    assert c.retried[0].0 == requestId;
    second := c.OnResponseError(requestId, Some(401));
    refreshing := c.isRefreshing;
  }

  /**
   * A waiter re-sent after a successful refresh carries no `_retry` mark: a 401 on it
   * starts a second refresh, with the refresh token the first one stored.
   */
  method ResentWaiterStartsAnotherRefresh(starter: nat, waiter: nat, token: Option<string>, refreshToken: string,
                                          newToken: Option<string>, newRefreshToken: Option<string>)
    returns (queued: ErrorOutcome, settled: seq<(nat, Settlement)>, again: ErrorOutcome)
    requires starter != waiter && refreshToken != ""
    ensures queued == Queued && settled == [(waiter, Resolved(newToken))]
    ensures again == RefreshSent(if Truthy(newRefreshToken) then newRefreshToken.value else refreshToken)
  {
    var c := new RefreshCoordinator(Parsed(token, Some(refreshToken)));
    var first := c.OnResponseError(starter, Some(401));
    queued := c.OnResponseError(waiter, Some(401));
    assert c.failedQueue == [waiter];
    c.OnRefreshReply(Refreshed(newToken, newRefreshToken));
    assert SettleAll([waiter], Resolved(newToken)) == SettleAll([], Resolved(newToken)) + [(waiter, Resolved(newToken))];
    settled := c.settled;
    again := c.OnResponseError(waiter, Some(401));
  }
}
