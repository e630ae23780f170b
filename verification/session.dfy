/**
 * The session client (`VirginMobile`) and one polling cycle: login, one
 * details fetch per configured phone, and logout in a `finally`.
 *
 * The remote API is a function from the request sent to the reply received;
 * `ConnectionFailed` stands for the HTTP client raising instead of replying.
 */
module Session {
  import opened Wrappers
  import opened Json
  import opened PhoneIds
  import opened Details

  type Cookies = map<string, string>

  /** The three HTTP requests the client issues, with the cookies it attaches. */
  datatype Request =
    | LoginRequest(username: string, password: string)
    | DetailsRequest(msisdn: string, session: Cookies)
    | LogoutRequest(attached: Option<Cookies>)

  /** A reply: status code, decoded body (`None` when it is not JSON), cookies set. */
  datatype Response =
    | Reply(status: int, body: Option<Json>, cookies: Cookies)
    | ConnectionFailed

  type Server = Request -> Response

  const StatusOk := 200

  predicate IsOk(response: Response) {
    response.Reply? && response.status == StatusOk
  }

  /** The session after a login reply: replaced on 200 only, otherwise kept (even if stale). */
  function AfterLogin(session: Option<Cookies>, response: Response): (after: Option<Cookies>)
    ensures IsOk(response) ==> after == Some(response.cookies)
    ensures after != session ==> IsOk(response)
  {
    if IsOk(response) then Some(response.cookies) else session
  }

  /** The session after a logout reply: cleared on 200 only. */
  function AfterLogout(session: Option<Cookies>, response: Response): (after: Option<Cookies>)
    ensures after.None? <==> IsOk(response) || session.None?
    ensures after.Some? ==> after == session
  {
    if IsOk(response) then None else session
  }

  /** The request a details fetch sends: none without a session. */
  function DetailsRequests(phone: string, session: Option<Cookies>): seq<Request> {
    if session.None? then [] else [DetailsRequest(phone, session.value)]
  }

  /**
   * `get_raw_details`: `{}` without a session, `None` on a non-200 reply, the
   * decoded body on 200 (after the log line has read its `name` and `msisdn`).
   */
  function RawDetails(phone: string, session: Option<Cookies>, server: Server): (raw: Attempt<Option<Json>>)
    ensures session.None? ==> raw == Ok(Some(JObject(map[])))
    ensures session.Some? && server(DetailsRequest(phone, session.value)).ConnectionFailed?
            ==> raw == Err(ConnectionError)
    ensures session.Some? && server(DetailsRequest(phone, session.value)).Reply?
            && !IsOk(server(DetailsRequest(phone, session.value)))
            ==> raw == Ok(None)
    ensures session.Some? && raw.Ok? && raw.value.Some? ==>
              && IsOk(server(DetailsRequest(phone, session.value)))
              && raw.value == server(DetailsRequest(phone, session.value)).body
              && Has(raw.value.value, "name") && Has(raw.value.value, "msisdn")
  {
    match session
    case None => Ok(Some(JObject(map[])))
    case Some(cookies) =>
      match server(DetailsRequest(phone, cookies))
      case ConnectionFailed => Err(ConnectionError)
      case Reply(status, body, _) =>
        if status != StatusOk then Ok(None)
        else
          match body
          case None => Err(JsonDecodeError)
          case Some(j) =>
            var name :- Lookup(j, "name");
            var msisdn :- Lookup(j, "msisdn");
            Ok(Some(j))
  }

  /**
   * `extract_phone_details` for one phone. A snapshot comes only from a 200
   * reply with a well-formed body sent under a session, and is that body's.
   */
  function FetchPhone(phone: string, session: Option<Cookies>, server: Server): (r: Attempt<PhoneDetails>)
    ensures session.None? ==> r == Err(KeyError(BalancesKey))
    ensures r.Ok? <==>
              && session.Some?
              && IsOk(server(DetailsRequest(phone, session.value)))
              && server(DetailsRequest(phone, session.value)).body.Some?
              && WellFormed(server(DetailsRequest(phone, session.value)).body.value)
    ensures r.Ok? ==> r.value == Snapshot(server(DetailsRequest(phone, session.value)).body.value)
    ensures session.Some? && server(DetailsRequest(phone, session.value)).Reply?
            && !IsOk(server(DetailsRequest(phone, session.value)))
            ==> r == Err(EndpointReturnedNone)
  {
    var raw :- RawDetails(phone, session, server);
    ExtractPhoneDetailsFrom(raw)
  }

  /** What a run produced and the requests it sent, in order. */
  datatype Run<T> = Run(result: Attempt<T>, sent: seq<Request>)

  /** The fetch loop: phones in order, stopping at the first exception. */
  function FetchAll(phones: seq<string>, session: Option<Cookies>, server: Server): (run: Run<seq<PhoneDetails>>)
    ensures run.result.Ok? ==> |run.result.value| == |phones|
    ensures |run.sent| <= |phones|
    ensures session.None? ==> run.sent == []
    decreases |phones|
  {
    if phones == [] then Run(Ok([]), [])
    else
      var before := FetchAll(phones[..|phones| - 1], session, server);
      if before.result.Err? then before
      else
        var last := phones[|phones| - 1];
        var sent := before.sent + DetailsRequests(last, session);
        match FetchPhone(last, session, server)
        case Err(e) => Run(Err(e), sent)
        case Ok(d) => Run(Ok(before.result.value + [d]), sent)
  }

  /** One details request per phone, under the session; none without one. */
  function RequestsFor(phones: seq<string>, session: Option<Cookies>): seq<Request> {
    if session.None? then []
    else seq(|phones|, i requires 0 <= i < |phones| => DetailsRequest(phones[i], session.value))
  }

  /** One cycle's outcome, the session it leaves behind and every request it sent. */
  datatype CycleRun = CycleRun(result: Attempt<seq<PhoneDetails>>, session: Option<Cookies>, sent: seq<Request>)

  /**
   * `extract_all_details`: login, then (unless login raised) the fetch loop,
   * then logout in a `finally`; an exception raised by logout replaces any other.
   */
  function Cycle(username: string, password: string, phones: seq<string>,
                 session: Option<Cookies>, server: Server): (run: CycleRun)
    ensures 2 <= |run.sent| <= |phones| + 2
    ensures run.sent[0] == LoginRequest(username, password)
    ensures run.sent[|run.sent| - 1] == LogoutRequest(LoggedIn(username, password, session, server))
    ensures run.result.Ok? ==> |run.result.value| == |phones|
  {
    var login := LoginRequest(username, password);
    var loggedIn := LoggedIn(username, password, session, server);
    var fetch := if server(login).ConnectionFailed? then Run(Err(ConnectionError), [])
                 else FetchAll(phones, loggedIn, server);
    var logout := LogoutRequest(loggedIn);
    var result := if server(logout).ConnectionFailed? then Err(ConnectionError) else fetch.result;
    CycleRun(result, AfterLogout(loggedIn, server(logout)), [login] + fetch.sent + [logout])
  }

  /** The session the fetches of a cycle run under. */
  function LoggedIn(username: string, password: string, session: Option<Cookies>, server: Server): Option<Cookies> {
    AfterLogin(session, server(LoginRequest(username, password)))
  }

  // ---------------------------------------------------------------------------
  // Properties of the fetch loop

  /** The loop succeeds iff every phone's fetch succeeds. */
  lemma {:induction false} FetchAllOkIff(phones: seq<string>, session: Option<Cookies>, server: Server)
    ensures FetchAll(phones, session, server).result.Ok? <==>
            forall i :: 0 <= i < |phones| ==> FetchPhone(phones[i], session, server).Ok?
    decreases |phones|
  {
    if phones != [] {
      var init := phones[..|phones| - 1];
      FetchAllOkIff(init, session, server);
      assert forall i :: 0 <= i < |init| ==> init[i] == phones[i];
    }
  }

  /** When every fetch succeeds: one snapshot per phone, in order, one request per phone. */
  lemma {:induction false} FetchAllSucceeds(phones: seq<string>, session: Option<Cookies>, server: Server)
    requires forall i :: 0 <= i < |phones| ==> FetchPhone(phones[i], session, server).Ok?
    ensures FetchAll(phones, session, server).result.Ok?
    ensures |FetchAll(phones, session, server).result.value| == |phones|
    ensures forall i :: 0 <= i < |phones| ==>
              FetchAll(phones, session, server).result.value[i] == FetchPhone(phones[i], session, server).value
    ensures FetchAll(phones, session, server).sent == RequestsFor(phones, session)
    decreases |phones|
  {
    if phones != [] {
      var init := phones[..|phones| - 1];
      var last := phones[|phones| - 1];
      assert forall i :: 0 <= i < |init| ==> init[i] == phones[i];
      FetchAllSucceeds(init, session, server);
      var before := FetchAll(init, session, server);
      var d := FetchPhone(last, session, server);
      assert FetchAll(phones, session, server) ==
             Run(Ok(before.result.value + [d.value]), before.sent + DetailsRequests(last, session));
      RequestsForSnoc(phones, session);
    }
  }

  /** Requests for a list of phones are the requests for all but the last, then the last's. */
  lemma RequestsForSnoc(phones: seq<string>, session: Option<Cookies>)
    requires phones != []
    ensures RequestsFor(phones, session) ==
            RequestsFor(phones[..|phones| - 1], session) + DetailsRequests(phones[|phones| - 1], session)
  {
  }

  /** The first failing phone aborts the rest: its exception, and no request after its own. */
  lemma {:induction false} FetchAllStopsAtFirstFailure(phones: seq<string>, session: Option<Cookies>,
                                                      server: Server, k: nat)
    requires k < |phones|
    requires forall i :: 0 <= i < k ==> FetchPhone(phones[i], session, server).Ok?
    requires FetchPhone(phones[k], session, server).Err?
    ensures FetchAll(phones, session, server) ==
            Run(Err(FetchPhone(phones[k], session, server).error), RequestsFor(phones[..k + 1], session))
    decreases |phones|
  {
    var init := phones[..|phones| - 1];
    assert forall i :: 0 <= i < |init| ==> init[i] == phones[i];
    if k == |phones| - 1 {
      FetchAllSucceeds(init, session, server);
      assert phones[..k + 1] == phones;
      RequestsForSnoc(phones, session);
    } else {
      FetchAllStopsAtFirstFailure(init, session, server, k);
      assert init[..k + 1] == phones[..k + 1];
    }
  }

  /** One more turn of the loop after a successful prefix of the phones. */
  lemma FetchAllStep(phones: seq<string>, i: nat, session: Option<Cookies>, server: Server,
                     collected: seq<PhoneDetails>, fetched: seq<Request>)
    requires i < |phones|
    requires FetchAll(phones[..i], session, server) == Run(Ok(collected), fetched)
    ensures FetchAll(phones[..i + 1], session, server) ==
            match FetchPhone(phones[i], session, server)
            case Err(e) => Run(Err(e), fetched + DetailsRequests(phones[i], session))
            case Ok(d) => Run(Ok(collected + [d]), fetched + DetailsRequests(phones[i], session))
  {
    assert phones[..i + 1][..i] == phones[..i];
  }

  /** Once a prefix of the phones has failed, the rest of the loop changes nothing. */
  lemma {:induction false} FetchAllErrPersists(phones: seq<string>, n: nat, session: Option<Cookies>, server: Server)
    requires n <= |phones|
    requires FetchAll(phones[..n], session, server).result.Err?
    ensures FetchAll(phones, session, server) == FetchAll(phones[..n], session, server)
    decreases |phones|
  {
    if n == |phones| {
      assert phones[..n] == phones;
    } else {
      var init := phones[..|phones| - 1];
      assert init[..n] == phones[..n];
      FetchAllErrPersists(init, n, session, server);
    }
  }

  /** The loop sends details requests only, all under the given session. */
  lemma {:induction false} FetchAllSendsDetailsOnly(phones: seq<string>, session: Option<Cookies>, server: Server)
    ensures forall i :: 0 <= i < |FetchAll(phones, session, server).sent| ==>
              FetchAll(phones, session, server).sent[i].DetailsRequest? &&
              Some(FetchAll(phones, session, server).sent[i].session) == session
    decreases |phones|
  {
    if phones != [] {
      FetchAllSendsDetailsOnly(phones[..|phones| - 1], session, server);
    }
  }

  // ---------------------------------------------------------------------------
  // Properties of a whole cycle

  /** Login is the first request, logout the last, and every other request is a fetch. */
  lemma CycleRequestOrder(username: string, password: string, phones: seq<string>,
                          session: Option<Cookies>, server: Server)
    ensures var run := Cycle(username, password, phones, session, server);
            && |run.sent| >= 2
            && run.sent[0] == LoginRequest(username, password)
            && run.sent[|run.sent| - 1] == LogoutRequest(LoggedIn(username, password, session, server))
            && forall i :: 0 < i < |run.sent| - 1 ==> run.sent[i].DetailsRequest?
  {
    FetchAllSendsDetailsOnly(phones, LoggedIn(username, password, session, server), server);
  }

  /** All or nothing: a list of one snapshot per phone, in order, or an exception. */
  lemma CycleAllOrNothing(username: string, password: string, phones: seq<string>,
                          session: Option<Cookies>, server: Server)
    ensures var run := Cycle(username, password, phones, session, server);
            var loggedIn := LoggedIn(username, password, session, server);
            && (run.result.Ok? <==>
                  && !server(LoginRequest(username, password)).ConnectionFailed?
                  && !server(LogoutRequest(loggedIn)).ConnectionFailed?
                  && forall i :: 0 <= i < |phones| ==> FetchPhone(phones[i], loggedIn, server).Ok?)
            && (run.result.Ok? ==>
                  && |run.result.value| == |phones|
                  && forall i :: 0 <= i < |phones| ==>
                       run.result.value[i] == FetchPhone(phones[i], loggedIn, server).value)
  {
    var loggedIn := LoggedIn(username, password, session, server);
    FetchAllOkIff(phones, loggedIn, server);
    if forall i :: 0 <= i < |phones| ==> FetchPhone(phones[i], loggedIn, server).Ok? {
      FetchAllSucceeds(phones, loggedIn, server);
    }
  }

  /** With no phones configured, even a rejected login yields an empty successful list. */
  lemma CycleWithoutPhones(username: string, password: string, session: Option<Cookies>, server: Server)
    requires !server(LoginRequest(username, password)).ConnectionFailed?
    requires !server(LogoutRequest(LoggedIn(username, password, session, server))).ConnectionFailed?
    ensures Cycle(username, password, [], session, server).result == Ok([])
  {
  }

  /**
   * After a successful login the cycle no longer depends on the session it
   * started with, so repeating it against the same remote data repeats it.
   */
  lemma CycleIgnoresEarlierSession(username: string, password: string, phones: seq<string>,
                                   s1: Option<Cookies>, s2: Option<Cookies>, server: Server)
    requires IsOk(server(LoginRequest(username, password)))
    ensures Cycle(username, password, phones, s1, server) == Cycle(username, password, phones, s2, server)
  {
  }

  /** Without a session, a rejected login makes the first phone fail with no fetch sent. */
  lemma RejectedLoginWithoutSession(username: string, password: string, phones: seq<string>, server: Server)
    requires phones != []
    requires server(LoginRequest(username, password)).Reply?
    requires !IsOk(server(LoginRequest(username, password)))
    ensures var run := Cycle(username, password, phones, None, server);
            && run.result.Err?
            && run.sent == [LoginRequest(username, password), LogoutRequest(None)]
            && run.session == None
  {
    FetchAllStopsAtFirstFailure(phones, None, server, 0);
  }

  /** A rejected login keeps stale cookies, and the fetches go out under them. */
  lemma RejectedLoginReusesStaleSession(username: string, password: string, phones: seq<string>,
                                        stale: Cookies, server: Server)
    requires phones != []
    requires server(LoginRequest(username, password)).Reply?
    requires !IsOk(server(LoginRequest(username, password)))
    ensures var run := Cycle(username, password, phones, Some(stale), server);
            run.sent[1] == DetailsRequest(phones[0], stale)
  {
    FetchAllSendsDetailsOnly(phones, Some(stale), server);
    FetchAllStartsWithFirstPhone(phones, stale, server);
  }

  /** Under a session the loop's first request is the first phone's. */
  lemma {:induction false} FetchAllStartsWithFirstPhone(phones: seq<string>, cookies: Cookies, server: Server)
    requires phones != []
    ensures |FetchAll(phones, Some(cookies), server).sent| >= 1
    ensures FetchAll(phones, Some(cookies), server).sent[0] == DetailsRequest(phones[0], cookies)
    decreases |phones|
  {
    if |phones| > 1 {
      var init := phones[..|phones| - 1];
      FetchAllStartsWithFirstPhone(init, cookies, server);
    }
  }

  // ---------------------------------------------------------------------------
  // The client object

  /**
   * `VirginMobile`: credentials and phone list fixed at construction, the
   * session cookies it updates in place, and the log of requests it has sent.
   */
  class VirginMobile {
    const username: string
    const password: string
    const phones: seq<string>
    var cookies: Option<Cookies>
    var sent: seq<Request>

    /** The phone list is parsed from the comma-separated configuration string. */
    constructor (username: string, password: string, phoneIds: string)
      ensures this.username == username && this.password == password
      ensures phones == ParsePhoneIds(phoneIds)
      ensures cookies == None && sent == []
    {
      this.username := username;
      this.password := password;
      this.phones := ParsePhoneIds(phoneIds);
      cookies := None;
      sent := [];
    }

    /** `login`: always sends; takes the reply's cookies on 200 and keeps the old ones otherwise. */
    method Login(server: Server) returns (outcome: Outcome<Exception>)
      modifies this
      ensures sent == old(sent) + [LoginRequest(username, password)]
      ensures var response := server(LoginRequest(username, password));
              && (IsOk(response) ==> cookies == Some(response.cookies))
              && (!IsOk(response) ==> cookies == old(cookies))
              && (outcome.Fail? <==> response.ConnectionFailed?)
              && (outcome.Fail? ==> outcome.error == ConnectionError)
    {
      var request := LoginRequest(username, password);
      sent := sent + [request];
      var response := server(request);
      if response.ConnectionFailed? {
        return Fail(ConnectionError);
      }
      if response.status == StatusOk {
        cookies := Some(response.cookies);
      }
      outcome := Pass;
    }

    /** `logout`: always sends, with no cookies when there is no session; clears them on 200 only. */
    method Logout(server: Server) returns (outcome: Outcome<Exception>)
      modifies this
      ensures sent == old(sent) + [LogoutRequest(old(cookies))]
      ensures var response := server(LogoutRequest(old(cookies)));
              && (IsOk(response) ==> cookies == None)
              && (!IsOk(response) ==> cookies == old(cookies))
              && (outcome.Fail? <==> response.ConnectionFailed?)
              && (outcome.Fail? ==> outcome.error == ConnectionError)
    {
      var request := LogoutRequest(cookies);
      sent := sent + [request];
      var response := server(request);
      if response.ConnectionFailed? {
        return Fail(ConnectionError);
      }
      if response.status == StatusOk {
        cookies := None;
      }
      outcome := Pass;
    }

    /**
     * `get_raw_details`: `{}` and no request without a session; otherwise one
     * request, then the body on 200 and `None` on any other status.
     */
    method GetRawDetails(phone: string, server: Server) returns (raw: Attempt<Option<Json>>)
      modifies this
      ensures cookies == old(cookies)
      ensures sent == old(sent) + DetailsRequests(phone, cookies)
      ensures cookies.None? ==> raw == Ok(Some(JObject(map[])))
      ensures cookies.Some? ==>
                var response := server(DetailsRequest(phone, cookies.value));
                && (response.ConnectionFailed? ==> raw == Err(ConnectionError))
                && (response.Reply? && response.status != StatusOk ==> raw == Ok(None))
                && (IsOk(response) && response.body.Some? &&
                    Has(response.body.value, "name") && Has(response.body.value, "msisdn")
                    ==> raw == Ok(response.body))
      ensures raw == RawDetails(phone, cookies, server)
    {
      if cookies == None {
        return Ok(Some(JObject(map[])));
      }
      var request := DetailsRequest(phone, cookies.value);
      sent := sent + [request];
      var response := server(request);
      if response.ConnectionFailed? {
        return Err(ConnectionError);
      }
      if response.status != StatusOk {
        return Ok(None);
      }
      if response.body.None? {
        return Err(JsonDecodeError);
      }
      var body := response.body.value;
      // the success log line reads `name` and `msisdn` before returning
      var name := Lookup(body, "name");
      if name.Err? {
        return Err(name.error);
      }
      var msisdn := Lookup(body, "msisdn");
      if msisdn.Err? {
        return Err(msisdn.error);
      }
      raw := Ok(Some(body));
    }

    /** `extract_phone_details`: fetch one phone, then build its snapshot or raise. */
    method ExtractPhoneDetails(phone: string, server: Server) returns (details: Attempt<PhoneDetails>)
      modifies this
      ensures cookies == old(cookies)
      ensures sent == old(sent) + DetailsRequests(phone, cookies)
      ensures details == FetchPhone(phone, cookies, server)
    {
      var raw := GetRawDetails(phone, server);
      if raw.Err? {
        return Err(raw.error);
      }
      if raw.value.None? {
        return Err(EndpointReturnedNone);
      }
      details := ExtractDetails(raw.value.value);
    }

    /**
     * The `for` loop of `extract_all_details`: the phones in configured order,
     * appending each snapshot, until one raises. The session is unchanged.
     */
    method FetchEach(server: Server) returns (fetched: Attempt<seq<PhoneDetails>>)
      modifies this
      ensures cookies == old(cookies)
      ensures fetched == FetchAll(phones, cookies, server).result
      ensures sent == old(sent) + FetchAll(phones, cookies, server).sent
    {
      var failure: Option<Exception> := None;
      var collected: seq<PhoneDetails> := [];
      ghost var requests: seq<Request> := [];
      var i := 0;
      while i < |phones| && failure.None?
        invariant 0 <= i <= |phones|
        invariant cookies == old(cookies)
        invariant sent == old(sent) + requests
        invariant failure.None? ==> FetchAll(phones[..i], cookies, server) == Run(Ok(collected), requests)
        invariant failure.Some? ==>
                    i < |phones| && FetchAll(phones[..i + 1], cookies, server) == Run(Err(failure.value), requests)
        decreases |phones| - i, if failure.None? then 1 else 0
      {
        var details := ExtractPhoneDetails(phones[i], server);
        FetchAllStep(phones, i, cookies, server, collected, requests);
        requests := requests + DetailsRequests(phones[i], cookies);
        if details.Err? {
          failure := Some(details.error);
        } else {
          collected := collected + [details.value];
          i := i + 1;
        }
      }
      if failure.Some? {
        FetchAllErrPersists(phones, i + 1, cookies, server);
        fetched := Err(failure.value);
      } else {
        assert phones[..i] == phones;
        fetched := Ok(collected);
      }
    }

    /**
     * `extract_all_details`: login, fetch every phone in order until one
     * raises, and log out on every path; the list is returned only when
     * nothing raised.
     */
    method ExtractAllDetails(server: Server) returns (result: Attempt<seq<PhoneDetails>>)
      modifies this
      ensures var run := Cycle(username, password, phones, old(cookies), server);
              && result == run.result
              && cookies == run.session
              && sent == old(sent) + run.sent
    {
      var fetched: Attempt<seq<PhoneDetails>>;
      var login := Login(server);
      if login.Fail? {
        fetched := Err(login.error);
      } else {
        fetched := FetchEach(server);
      }
      var logout := Logout(server);
      if logout.Fail? {
        result := Err(logout.error);
      } else {
        result := fetched;
      }
    }
  }
}
