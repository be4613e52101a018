/**
 * Access-token bookkeeping of the recently-played client: the stored token and its
 * validity test with a 60-second safety margin, the refresh grant that keeps the old
 * refresh token when the reply omits one, and get_valid_token, which reuses, refreshes or
 * obtains a token and saves it to the token file.
 */
module Tokens {
  import opened Wrappers
  import opened Api

  /** Seconds before expiry at which a token is already treated as expired. */
  const SafetyMargin: int := 60

  /**
   * A token as held in memory and in the token file: the token reply plus `got_at`, the
   * time it was obtained. `refreshToken == None` when the object has no `refresh_token`.
   */
  datatype Token = Token(accessToken: string, refreshToken: Option<string>, expiresIn: int, gotAt: int)

  /** The stored token is still good at `now`: more than the margin of its lifetime is left. */
  predicate IsUsable(tok: Token, now: int) {
    now < tok.gotAt + tok.expiresIn - SafetyMargin
  }

  /** 61 seconds of life left is usable; 60 or 59 is not. */
  lemma MarginExamples(tok: Token)
    ensures IsUsable(tok, tok.gotAt + tok.expiresIn - 61)
    ensures !IsUsable(tok, tok.gotAt + tok.expiresIn - 60)
    ensures !IsUsable(tok, tok.gotAt + tok.expiresIn - 59)
  {
  }

  /** `j.setdefault("refresh_token", refresh_token)` on a token reply. */
  function SetDefaultRefresh(reply: TokenResponse, sent: Option<string>): (r: TokenResponse)
    ensures r.accessToken == reply.accessToken && r.expiresIn == reply.expiresIn
    ensures reply.refreshToken.Some? ==> r.refreshToken == reply.refreshToken
    ensures reply.refreshToken.None? ==> r.refreshToken == sent
  {
    if reply.refreshToken.Some? then reply else reply.(refreshToken := sent)
  }

  /** Applying the default a second time changes nothing, and a held refresh token is never lost. */
  lemma SetDefaultRefreshStable(reply: TokenResponse, sent: Option<string>, other: Option<string>)
    ensures SetDefaultRefresh(SetDefaultRefresh(reply, sent), other) == SetDefaultRefresh(reply, sent) || (sent.None? && reply.refreshToken.None?)
    ensures sent.Some? ==> SetDefaultRefresh(reply, sent).refreshToken.Some?
  {
  }

  /**
   * refresh_access_token: the refresh grant for `refreshToken`. An HTTP error of the
   * endpoint propagates; a reply without a `refresh_token` gets the one sent.
   */
  function RefreshAccessToken(endpoint: TokenEndpoint, refreshToken: Option<string>): (r: Result<TokenResponse, Error>)
    ensures r.Failure? <==> endpoint(refreshToken).Failure?
    ensures r.Failure? ==> r.error == endpoint(refreshToken).error
    ensures r.Success? ==> r.value.accessToken == endpoint(refreshToken).value.accessToken
    ensures r.Success? && endpoint(refreshToken).value.refreshToken.None? ==> r.value.refreshToken == refreshToken
    ensures r.Success? && refreshToken.Some? ==> r.value.refreshToken.Some?
  {
    match endpoint(refreshToken)
    case Failure(e) => Failure(e)
    case Success(reply) => Success(SetDefaultRefresh(reply, refreshToken))
  }

  /** `tok["got_at"] = time.time()` */
  function Stamp(reply: TokenResponse, now: int): (tok: Token)
    ensures tok.gotAt == now && tok.accessToken == reply.accessToken
    ensures tok.refreshToken == reply.refreshToken && tok.expiresIn == reply.expiresIn
  {
    Token(reply.accessToken, reply.refreshToken, reply.expiresIn, now)
  }

  /**
   * get_valid_token on the stored token: what it returns and what the token file holds
   * afterwards. A usable token is returned as stored. Otherwise the stored refresh token
   * is redeemed (a token without one raises KeyError); with no stored token, `authorize`
   * is the outcome of the interactive authorization-code flow. A new token is stamped with
   * `now` and saved; any failure propagates and leaves the file alone.
   */
  function ValidToken(stored: Option<Token>, now: int, endpoint: TokenEndpoint, authorize: Result<TokenResponse, Error>)
    : (r: (Result<Token, Error>, Option<Token>))
    ensures r.0.Failure? ==> r.1 == stored
    ensures r.0.Success? ==> r.1 == Some(r.0.value)
    ensures r.0.Success? ==> (stored.Some? && IsUsable(stored.value, now) && r.0.value == stored.value) || r.0.value.gotAt == now
    ensures stored.None? ==> r.0 == (if authorize.Success? then Success(Stamp(authorize.value, now)) else Failure(authorize.error))
  {
    match stored
    case None =>
      (match authorize
       case Failure(e) => (Failure(e), stored)
       case Success(reply) => (Success(Stamp(reply, now)), Some(Stamp(reply, now))))
    case Some(tok) =>
      if IsUsable(tok, now) then (Success(tok), stored)
      else if tok.refreshToken.None? then (Failure(KeyError("refresh_token")), stored)
      else
        match RefreshAccessToken(endpoint, tok.refreshToken)
        case Failure(e) => (Failure(e), stored)
        case Success(reply) => (Success(Stamp(reply, now)), Some(Stamp(reply, now)))
  }

  /**
   * A stored token is returned unchanged when it is usable; otherwise what is returned is
   * a refresh of it, stamped with `now`, which keeps the stored refresh token when the
   * reply carries none.
   */
  lemma ValidTokenReusesOnlyUsable(tok: Token, now: int, endpoint: TokenEndpoint, authorize: Result<TokenResponse, Error>)
    ensures IsUsable(tok, now) ==> ValidToken(Some(tok), now, endpoint, authorize) == (Success(tok), Some(tok))
    ensures !IsUsable(tok, now) && ValidToken(Some(tok), now, endpoint, authorize).0.Success? ==>
              && tok.refreshToken.Some?
              && endpoint(tok.refreshToken).Success?
              && ValidToken(Some(tok), now, endpoint, authorize).0.value
                 == Stamp(SetDefaultRefresh(endpoint(tok.refreshToken).value, tok.refreshToken), now)
  {
  }

  /**
   * A stored token that is no longer usable fails the call in two ways, the file staying
   * as it was: without a refresh token the lookup raises KeyError, and a failure of the
   * refresh grant propagates with its own error.
   */
  lemma ValidTokenRefreshFailures(tok: Token, now: int, endpoint: TokenEndpoint, authorize: Result<TokenResponse, Error>)
    ensures !IsUsable(tok, now) && tok.refreshToken.None? ==>
              ValidToken(Some(tok), now, endpoint, authorize) == (Failure(KeyError("refresh_token")), Some(tok))
    ensures !IsUsable(tok, now) && tok.refreshToken.Some? && endpoint(tok.refreshToken).Failure? ==>
              ValidToken(Some(tok), now, endpoint, authorize) == (Failure(endpoint(tok.refreshToken).error), Some(tok))
    ensures ValidToken(Some(tok), now, endpoint, authorize).0.Failure? <==>
              !IsUsable(tok, now) && (tok.refreshToken.None? || endpoint(tok.refreshToken).Failure?)
  {
  }

  /**
   * After a successful call the saved token can be refreshed next time: it has a refresh
   * token whenever the one it replaced had one.
   */
  lemma RefreshTokenSurvives(tok: Token, now: int, endpoint: TokenEndpoint, authorize: Result<TokenResponse, Error>)
    requires tok.refreshToken.Some?
    requires ValidToken(Some(tok), now, endpoint, authorize).0.Success?
    ensures ValidToken(Some(tok), now, endpoint, authorize).1.value.refreshToken.Some?
  {
    if !IsUsable(tok, now) {
      assert RefreshAccessToken(endpoint, tok.refreshToken).Success?;
    }
  }

  /** A freshly obtained token is usable at once exactly when it lives longer than the margin. */
  lemma FreshTokenUsable(reply: TokenResponse, now: int)
    ensures IsUsable(Stamp(reply, now), now) <==> reply.expiresIn > SafetyMargin
  {
  }

  /** The token file, whose content load_token reads and save_token replaces. */
  class TokenFile {
    var stored: Option<Token>

    constructor (initial: Option<Token>)
      ensures stored == initial
    {
      stored := initial;
    }

    /** load_token */
    method Load() returns (tok: Option<Token>)
      ensures tok == stored
    {
      tok := stored;
    }

    /** save_token */
    method Save(tok: Token)
      modifies this
      ensures stored == Some(tok)
    {
      stored := Some(tok);
    }

    /** get_valid_token */
    method GetValidToken(now: int, endpoint: TokenEndpoint, authorize: Result<TokenResponse, Error>) returns (r: Result<Token, Error>)
      modifies this
      ensures (r, stored) == ValidToken(old(stored), now, endpoint, authorize)
    {
      var tok := Load();
      if tok.Some? {
        if IsUsable(tok.value, now) {
          return Success(tok.value);
        }
        if tok.value.refreshToken.None? {
          return Failure(KeyError("refresh_token"));
        }
        var reply := RefreshAccessToken(endpoint, tok.value.refreshToken);
        if reply.Failure? {
          return Failure(reply.error);
        }
        var stamped := Stamp(reply.value, now);
        Save(stamped);
        return Success(stamped);
      } else {
        if authorize.Failure? {
          return Failure(authorize.error);
        }
        var stamped := Stamp(authorize.value, now);
        Save(stamped);
        return Success(stamped);
      }
    }
  }
}
