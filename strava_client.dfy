/** `StravaClient` (strava_client.py:21-83): the OAuth 2.0 refresh-token
    grant (section 6 of RFC 6749) that keeps an access token current, and
    the paginated activities listing.  The token endpoint is a function
    from the form the client posts to the provider's answer; the clock is
    the integer `now` passed to each call; the activities endpoint is the
    sequence of pages of the Pagination module. */
module Strava {
  import opened Wrappers
  import opened Json
  import Pagination

  /** The credential the client holds (`StravaTokens`). */
  datatype Tokens = Tokens(accessToken: string, refreshToken: string, expiresAt: int)

  /** The form posted to the token endpoint (strava_client.py:30-35). */
  datatype GrantPayload = GrantPayload(clientId: string, clientSecret: string, grantType: string, refreshToken: string)

  /** The token endpoint's answer: the new credential, or a status that
      `raise_for_status` raises on. */
  datatype TokenResponse =
    | Granted(accessToken: string, refreshToken: string, expiresAt: int)
    | Rejected(status: int)

  /** The exceptions that leave the client. */
  datatype ClientError =
    | AuthError(status: int)
    | ListingError(error: Pagination.FetchError)

  /** A held token is refreshed when it expires within this many seconds. */
  const ExpiryMargin: int := 60

  /** The part of the client that the token calls change: the credential
      held (`self.tokens`) and the refresh token the next grant sends
      (`self.refresh_token`). */
  datatype Session = Session(tokens: Option<Tokens>, refreshToken: string)

  /** One token step: the grant form posted, if any, the session after it
      and whether it raised. */
  datatype Exchange = Exchange(sent: Option<GrantPayload>, after: Session, result: Result<(), ClientError>)

  /** The grant requests of an exchange, as a list. */
  function Posted(e: Exchange): seq<GrantPayload>
  {
    if e.sent.Some? then [e.sent.value] else []
  }

  /** The form a refresh posts from session `s` (strava_client.py:30-35). */
  function GrantForm(clientId: string, clientSecret: string, s: Session): GrantPayload
  {
    GrantPayload(clientId, clientSecret, "refresh_token", s.refreshToken)
  }

  /** Whether the token check at time `now` refreshes (strava_client.py:49). */
  predicate Expiring(s: Session, now: int)
  {
    s.tokens.None? || s.tokens.value.expiresAt <= now + ExpiryMargin
  }

  /** The bearer header for a credential (strava_client.py:54). */
  function Bearer(t: Tokens): Pagination.Headers
  {
    map["Authorization" := "Bearer " + t.accessToken]
  }

  /** `_refresh_access_token` on session `s` (strava_client.py:28-45): it
      posts the current refresh token; a grant replaces the credential
      wholesale and adopts the returned refresh token; a rejection raises
      before any assignment. */
  function Grant(clientId: string, clientSecret: string, s: Session, endpoint: GrantPayload -> TokenResponse): (e: Exchange)
    ensures e.sent == Some(GrantForm(clientId, clientSecret, s))
    ensures endpoint(e.sent.value).Granted? ==>
      var g := endpoint(e.sent.value);
      e.after == Session(Some(Tokens(g.accessToken, g.refreshToken, g.expiresAt)), g.refreshToken)
      && e.result == Ok(())
    ensures endpoint(e.sent.value).Rejected? ==>
      e.after == s && e.result == Err(AuthError(endpoint(e.sent.value).status))
  {
    var form := GrantForm(clientId, clientSecret, s);
    match endpoint(form)
    case Granted(access, refresh, expiresAt) =>
      Exchange(Some(form), Session(Some(Tokens(access, refresh, expiresAt)), refresh), Ok(()))
    case Rejected(status) =>
      Exchange(Some(form), s, Err(AuthError(status)))
  }

  /** `_ensure_token` on session `s` at time `now` (strava_client.py:47-50):
      exactly one grant when no credential is held or it expires within the
      margin, and nothing at all otherwise. */
  function Check(clientId: string, clientSecret: string, s: Session, now: int, endpoint: GrantPayload -> TokenResponse): (e: Exchange)
    ensures e.sent.Some? <==> Expiring(s, now)
    ensures !Expiring(s, now) ==> e.after == s && e.result == Ok(())
    ensures Expiring(s, now) ==> e == Grant(clientId, clientSecret, s, endpoint)
    ensures e.result.Ok? ==> e.after.tokens.Some?
  {
    if Expiring(s, now) then Grant(clientId, clientSecret, s, endpoint)
    else Exchange(None, s, Ok(()))
  }

  /** The two token checks of `get_recent_activities` (lines 65 and 66), the
      second from the session the first leaves.  No grant is sent when the
      held token is good at both times; a second grant is sent only when
      the first one was granted a token that already expires at the second
      time, and it then carries the rotated refresh token; a rejected grant
      ends the sequence. */
  lemma TwoChecks(clientId: string, clientSecret: string, s: Session, now1: int, now2: int, endpoint: GrantPayload -> TokenResponse)
    ensures
      var c1 := Check(clientId, clientSecret, s, now1, endpoint);
      var c2 := Check(clientId, clientSecret, c1.after, now2, endpoint);
      (!Expiring(s, now1) && !Expiring(s, now2) ==> c1.sent.None? && c2.sent.None? && c2.after == s)
      && (c1.result.Ok? && c2.sent.Some? && c1.sent.Some? ==>
            endpoint(c1.sent.value).Granted?
            && endpoint(c1.sent.value).expiresAt <= now2 + ExpiryMargin
            && c2.sent.value.refreshToken == endpoint(c1.sent.value).refreshToken)
      && (c1.result.Err? ==> c1.sent.Some? && endpoint(c1.sent.value).Rejected? && c1.after == s)
  {
  }

  class StravaClient {
    const clientId: string
    const clientSecret: string
    var refreshToken: string
    var tokens: Option<Tokens>

    constructor (clientId: string, clientSecret: string, refreshToken: string)
      ensures this.clientId == clientId && this.clientSecret == clientSecret
      ensures this.refreshToken == refreshToken && tokens == None
    {
      this.clientId := clientId;
      this.clientSecret := clientSecret;
      this.refreshToken := refreshToken;
      tokens := None;
    }

    /** The token state of this client. */
    function State(): Session
      reads this
    {
      Session(tokens, refreshToken)
    }

    /** The form the next refresh posts: it carries the current refresh token. */
    function Payload(): GrantPayload
      reads this
    {
      GrantForm(clientId, clientSecret, State())
    }

    /** `_refresh_access_token` (strava_client.py:28-45). */
    method RefreshAccessToken(endpoint: GrantPayload -> TokenResponse) returns (sent: GrantPayload, r: Result<(), ClientError>)
      modifies this
      ensures Exchange(Some(sent), State(), r) == Grant(clientId, clientSecret, old(State()), endpoint)
    {
      sent := Payload();
      match endpoint(sent)
      case Rejected(status) =>
        r := Err(AuthError(status));
      case Granted(access, refresh, expiresAt) =>
        tokens := Some(Tokens(access, refresh, expiresAt));
        refreshToken := refresh;
        r := Ok(());
    }

    /** `_ensure_token` (strava_client.py:47-50). */
    method EnsureToken(now: int, endpoint: GrantPayload -> TokenResponse) returns (sent: Option<GrantPayload>, r: Result<(), ClientError>)
      modifies this
      ensures Exchange(sent, State(), r) == Check(clientId, clientSecret, old(State()), now, endpoint)
    {
      if Expiring(State(), now) {
        var payload;
        payload, r := RefreshAccessToken(endpoint);
        sent := Some(payload);
      } else {
        sent, r := None, Ok(());
      }
    }

    /** `_get_headers` (strava_client.py:52-54): the token check, then the
        bearer header for the credential it leaves. */
    method GetHeaders(now: int, endpoint: GrantPayload -> TokenResponse)
      returns (sent: Option<GrantPayload>, r: Result<Pagination.Headers, ClientError>)
      modifies this
      ensures
        var c := Check(clientId, clientSecret, old(State()), now, endpoint);
        sent == c.sent && State() == c.after
        && (c.result.Err? ==> r == Err(c.result.error))
        && (c.result.Ok? ==> r == Ok(Bearer(c.after.tokens.value)))
    {
      var ok;
      sent, ok := EnsureToken(now, endpoint);
      if ok.Err? {
        r := Err(ok.error);
      } else {
        r := Ok(Bearer(tokens.value));
      }
    }

    /** `get_recent_activities` (strava_client.py:56-83).  The token is
        checked at `now1` (line 65) and again at `now2` inside
        `_get_headers` (line 66), the second check starting from the
        session the first leaves.  A rejected grant raises before any page
        is requested.  Otherwise the headers built at the second check are
        sent with every page request, and the token is not checked again
        during the loop.  Returns the grant requests and the page requests
        issued. */
    method GetRecentActivities(
      now1: int, now2: int, endpoint: GrantPayload -> TokenResponse,
      pages: seq<Pagination.PageResponse<Record>>, maxActivities: int, perPage: int)
      returns (grants: seq<GrantPayload>, requests: seq<Pagination.PageRequest>, r: Result<seq<Record>, ClientError>)
      modifies this
      ensures
        var c1 := Check(clientId, clientSecret, old(State()), now1, endpoint);
        c1.result.Err? ==>
          grants == Posted(c1) && State() == c1.after && requests == [] && r == Err(c1.result.error)
      ensures
        var c1 := Check(clientId, clientSecret, old(State()), now1, endpoint);
        var c2 := Check(clientId, clientSecret, c1.after, now2, endpoint);
        c1.result.Ok? ==>
          grants == Posted(c1) + Posted(c2) && State() == c2.after
          && (c2.result.Err? ==> requests == [] && r == Err(c2.result.error))
      ensures
        var c1 := Check(clientId, clientSecret, old(State()), now1, endpoint);
        var c2 := Check(clientId, clientSecret, c1.after, now2, endpoint);
        c1.result.Ok? && c2.result.Ok? ==>
          Pagination.StopsAt(pages, maxActivities, |requests|)
          && (forall j :: 0 <= j < |requests| ==>
                requests[j] == Pagination.PageRequest(j + 1, perPage, Bearer(c2.after.tokens.value)))
          && r == match Pagination.Outcome(pages, maxActivities, |requests|)
                  case Ok(records) => Ok(records)
                  case Err(e) => Err(ListingError(e))
    {
      var first, ok := EnsureToken(now1, endpoint);
      grants := if first.Some? then [first.value] else [];
      if ok.Err? {
        requests, r := [], Err(ok.error);
        return;
      }
      var second, headers := GetHeaders(now2, endpoint);
      grants := grants + if second.Some? then [second.value] else [];
      if headers.Err? {
        requests, r := [], Err(headers.error);
        return;
      }
      var fetched;
      requests, fetched := Pagination.FetchPages(headers.value, pages, maxActivities, perPage);
      r := match fetched
        case Ok(records) => Ok(records)
        case Err(e) => Err(ListingError(e));
    }
  }

  /** A grant response that rotates the refresh token makes the next grant
      request carry the rotated token, not the one the client was built
      with. */
  method RotationCarriesForward(now: int, endpoint: GrantPayload -> TokenResponse, c: StravaClient)
    returns (first: GrantPayload, second: GrantPayload)
    requires endpoint(c.Payload()).Granted?
    modifies c
    ensures first == old(c.Payload())
    ensures second.refreshToken == endpoint(first).refreshToken
    ensures second.clientId == first.clientId && second.clientSecret == first.clientSecret
    ensures second.grantType == "refresh_token"
  {
    var r;
    first, r := c.RefreshAccessToken(endpoint);
    second, r := c.RefreshAccessToken(endpoint);
  }
}
