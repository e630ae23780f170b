/**
 * Whole iterations, from the configured phone string to the messages the
 * broker receives when no publish call raises.
 */
module EndToEnd {
  import opened Wrappers
  import opened Json
  import opened PhoneIds
  import opened Details
  import opened Session
  import opened Publishing

  function AlwaysAccepts(): nat -> bool {
    _ => true
  }

  /**
   * Two valid ids, a successful login and two well-formed replies: the cycle
   * yields both snapshots in configured order after four requests.
   */
  lemma TwoPhonesCycle(username: string, password: string, p1: string, p2: string,
                       session: Option<Cookies>, server: Server, cookies: Cookies, b1: Json, b2: Json)
    requires IsOk(server(LoginRequest(username, password))) && server(LoginRequest(username, password)).cookies == cookies
    requires IsOk(server(DetailsRequest(p1, cookies))) && server(DetailsRequest(p1, cookies)).body == Some(b1)
    requires IsOk(server(DetailsRequest(p2, cookies))) && server(DetailsRequest(p2, cookies)).body == Some(b2)
    requires WellFormed(b1) && WellFormed(b2)
    requires !server(LogoutRequest(Some(cookies))).ConnectionFailed?
    ensures var run := Cycle(username, password, [p1, p2], session, server);
            && run.result == Ok([Snapshot(b1), Snapshot(b2)])
            && run.sent == [LoginRequest(username, password), DetailsRequest(p1, cookies),
                            DetailsRequest(p2, cookies), LogoutRequest(Some(cookies))]
  {
    var phones := [p1, p2];
    assert LoggedIn(username, password, session, server) == Some(cookies);
    FetchAllSucceeds(phones, Some(cookies), server);
    var fetch := FetchAll(phones, Some(cookies), server);
    assert fetch.result.value == [Snapshot(b1), Snapshot(b2)];
    assert fetch.sent == [DetailsRequest(p1, cookies), DetailsRequest(p2, cookies)];
  }

  /**
   * The same iteration configured as `"<p1>,<p2>"`: both snapshots are
   * published in configured order, then `online`.
   */
  lemma TwoPhonesThenOnline(username: string, password: string, p1: string, p2: string,
                            session: Option<Cookies>, server: Server, cookies: Cookies,
                            b1: Json, b2: Json, qos: int)
    requires |p1| == PhoneIdLength && |p2| == PhoneIdLength && CommaFree(p1) && CommaFree(p2)
    requires IsOk(server(LoginRequest(username, password))) && server(LoginRequest(username, password)).cookies == cookies
    requires IsOk(server(DetailsRequest(p1, cookies))) && server(DetailsRequest(p1, cookies)).body == Some(b1)
    requires IsOk(server(DetailsRequest(p2, cookies))) && server(DetailsRequest(p2, cookies)).body == Some(b2)
    requires WellFormed(b1) && WellFormed(b2)
    requires !server(LogoutRequest(Some(cookies))).ConnectionFailed?
    ensures var run := Cycle(username, password, ParsePhoneIds(p1 + "," + p2), session, server);
            && run.result == Ok([Snapshot(b1), Snapshot(b2)])
            && run.sent == [LoginRequest(username, password), DetailsRequest(p1, cookies),
                            DetailsRequest(p2, cookies), LogoutRequest(Some(cookies))]
            && Delivered(IterationMessages(run.result, username, qos), AlwaysAccepts()) ==
               [PayloadMessage(username, qos, Snapshot(b1)), PayloadMessage(username, qos, Snapshot(b2)),
                StatusMessage(username, Online)]
  {
    ParseTwoIds(p1, p2);
    TwoPhonesCycle(username, password, p1, p2, session, server, cookies, b1, b2);
    TwoSnapshotsThenOnline(username, qos, Snapshot(b1), Snapshot(b2));
  }

  /** A successful cycle of two snapshots publishes both, in order, then `online`. */
  lemma TwoSnapshotsThenOnline(username: string, qos: int, d1: PhoneDetails, d2: PhoneDetails)
    ensures Delivered(IterationMessages(Ok([d1, d2]), username, qos), AlwaysAccepts()) ==
            [PayloadMessage(username, qos, d1), PayloadMessage(username, qos, d2), StatusMessage(username, Online)]
  {
    var ms := IterationMessages(Ok([d1, d2]), username, qos);
    DeliveredAll(ms, AlwaysAccepts());
    assert ms == [PayloadMessage(username, qos, d1), PayloadMessage(username, qos, d2), StatusMessage(username, Online)];
  }

  /**
   * Login succeeds but the first phone's reply is not 200: no further phone is
   * fetched, logout is still sent, and only `offline` is published.
   */
  lemma FirstFetchRejectedThenOffline(username: string, password: string, phones: seq<string>,
                                      session: Option<Cookies>, server: Server, cookies: Cookies, qos: int)
    requires phones != []
    requires IsOk(server(LoginRequest(username, password))) && server(LoginRequest(username, password)).cookies == cookies
    requires server(DetailsRequest(phones[0], cookies)).Reply? && !IsOk(server(DetailsRequest(phones[0], cookies)))
    requires !server(LogoutRequest(Some(cookies))).ConnectionFailed?
    ensures var run := Cycle(username, password, phones, session, server);
            && run.result == Err(EndpointReturnedNone)
            && run.sent == [LoginRequest(username, password), DetailsRequest(phones[0], cookies),
                            LogoutRequest(Some(cookies))]
            && Delivered(IterationMessages(run.result, username, qos), AlwaysAccepts()) ==
               [StatusMessage(username, Offline)]
  {
    FetchAllStopsAtFirstFailure(phones, Some(cookies), server, 0);
    assert RequestsFor(phones[..1], Some(cookies)) == [DetailsRequest(phones[0], cookies)];
    var run := Cycle(username, password, phones, session, server);
    DeliveredAll(IterationMessages(run.result, username, qos), AlwaysAccepts());
  }

  /**
   * A rejected login with no earlier session: logout is still sent (without
   * cookies), no fetch goes out, and only `offline` is published.
   */
  lemma RejectedLoginThenOffline(username: string, password: string, phones: seq<string>,
                                 server: Server, qos: int)
    requires phones != []
    requires server(LoginRequest(username, password)).Reply? && !IsOk(server(LoginRequest(username, password)))
    ensures var run := Cycle(username, password, phones, None, server);
            && run.sent == [LoginRequest(username, password), LogoutRequest(None)]
            && Delivered(IterationMessages(run.result, username, qos), AlwaysAccepts()) ==
               [StatusMessage(username, Offline)]
  {
    RejectedLoginWithoutSession(username, password, phones, server);
    var run := Cycle(username, password, phones, None, server);
    DeliveredAll(IterationMessages(run.result, username, qos), AlwaysAccepts());
  }

  /**
   * Whatever happens, an iteration publishes exactly one status message, and
   * it is the last one sent.
   */
  lemma OneStatusPerIteration(username: string, password: string, phones: seq<string>,
                              session: Option<Cookies>, server: Server, qos: int)
    ensures var ms := IterationMessages(Cycle(username, password, phones, session, server).result, username, qos);
            && |ms| >= 1
            && ms[|ms| - 1].payload.StatusPayload?
            && ms[|ms| - 1].retain && ms[|ms| - 1].qos == StatusQos
            && forall i :: 0 <= i < |ms| - 1 ==> !ms[i].payload.StatusPayload?
  {
  }
}
