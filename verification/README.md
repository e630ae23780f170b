# virginmobile2mqtt in Dafny

A verified model of the polling core of `virginmobile2mqtt`. The program logs into
the Virgin Mobile (Poland) self-care API and fetches balance details for each
configured phone number. It logs out in a `finally` block. Each phone's snapshot
is published to MQTT, followed by a retained `online` status, or only `offline`
when the cycle raised.

Modules, one per component of `virginmobile2mqtt.py`:

- `Wrappers` (`wrappers.dfy`): `Option`, `Result`, `Outcome`.
- `Json` (`json.dfy`): decoded JSON values and the exceptions a cycle can raise.
  It also defines Python's subscript `d[key]` (`Lookup`): a KeyError on a missing
  key, a TypeError on a non-object.
- `PhoneIds` (`phone_ids.dfy`): `str.split(',')` and the length-11 filter of
  `pasrse_phone_ids`.
- `Details` (`details.dfy`): the `Balance` and `PhoneDetails` records and their
  extraction from a reply body.
- `Session` (`session.dfy`): the `VirginMobile` class. It holds the `cookies` it
  updates in place and `sent`, the log of HTTP requests it has issued. The
  module also has the functions that specify one cycle (`FetchAll`, `Cycle`) and
  their lemmas.
- `Publishing` (`publisher.dfy`): the `Publisher` class. Its `published` list
  holds the MQTT messages it has published. `PublishOnce` models one iteration
  of `publish`.
- `EndToEnd` (`end_to_end.dfy`): whole iterations, from the configured phone
  string to the published messages.

The HTTP server is a parameter `server: Request -> Response`. A reply is a status
code, a decoded body (`None` when the body is not JSON) and cookies.
`ConnectionFailed` stands for the HTTP client raising. Whether each MQTT
`publish` call raises is a parameter `accepts: nat -> bool`, indexed by send
within the iteration. Python exceptions are `Err` values. An exception raised by
the `finally` logout replaces the one in flight, as in Python.

Where the code and the intended design differ, the model follows the code:

- `logout` is sent even when there is no session (`LogoutRequest(None)`).
- `logout` clears the cookies only on status 200.
- `login` keeps the previous, possibly stale, cookies on any status other than
  200. A later fetch then goes out under those stale cookies
  (`RejectedLoginReusesStaleSession`).
- A fetch without a session makes no request and yields `{}`. Extraction then
  fails with `KeyError('customerBalancesDto')`. There is no separate
  "no session" error.
- The code does not tag exceptions with a stage such as "login" or "fetch". The
  model keeps only the exception itself.
- On a 200 reply, the success log line reads the body's `name` and `msisdn`
  before `get_raw_details` returns. A body lacking either key therefore raises
  inside `get_raw_details` itself.

## Model

| member | source | states |
|---|---|---|
| `PhoneIds.Split` | virginmobile2mqtt.py:51 | Splitting on commas always yields at least one piece, as Python's `split` does. |
| `PhoneIds.JoinSplit` | virginmobile2mqtt.py:51 | Joining the pieces with commas gives the configuration string back, and no piece contains a comma. |
| `PhoneIds.SplitJoin` | virginmobile2mqtt.py:51 | Splitting comma-free pieces joined by commas gives exactly those pieces back. |
| `PhoneIds.ValidPhoneIds` | virginmobile2mqtt.py:51 | The filter keeps at most the entries it is given. Every kept id has length 11 and is one of the entries. |
| `PhoneIds.ParsePhoneIds` | virginmobile2mqtt.py:50-52 | `pasrse_phone_ids`: every parsed id has length 11 and is one of the comma-separated pieces of the configuration. |
| `PhoneIds.ValidPhoneIdsAppend` | virginmobile2mqtt.py:51-52 | The length filter distributes over concatenation, so kept entries stay in their original relative order. |
| `PhoneIds.ValidPhoneIdsExact` | virginmobile2mqtt.py:51-52 | An entry is kept iff it has length 11, and it is kept as many times as it occurs. |
| `PhoneIds.ParsePhoneIdsCorrect` | virginmobile2mqtt.py:50-52 | The parsed ids are exactly the comma-separated entries of length 11, with their multiplicities. Every id has length 11 and no comma. |
| `PhoneIds.ParsePhoneIdsOfJoin` | virginmobile2mqtt.py:50-52 | Parsing comma-joined comma-free pieces gives the pieces of length 11, in order. |
| `PhoneIds.ParseTwoIds` | virginmobile2mqtt.py:50-52 | `"<id1>,<id2>"` with two valid ids parses to `[id1, id2]`. |
| `Json.Lookup` | virginmobile2mqtt.py:95-96 | A subscript succeeds iff the value is an object holding the key, and yields that member. Otherwise it raises KeyError (object) or TypeError (non-object). |
| `Details.ExtractBalance` | virginmobile2mqtt.py:94-96 | Succeeds iff the balances node holds the named node with `quantity` and `unit`, and yields exactly that pair. A missing node raises KeyError naming it. |
| `Details.ExtractDetails` | virginmobile2mqtt.py:104-109 | Succeeds iff the body is well-formed (msisdn, name, all four balance nodes), and then yields that body's snapshot field by field. A body without `customerBalancesDto` raises on that key. |
| `Details.ExtractPhoneDetailsFrom` | virginmobile2mqtt.py:101-109 | A `None` body raises; otherwise it succeeds iff the body is well-formed, yielding its snapshot. |
| `Details.EmptyBodyFails` | virginmobile2mqtt.py:79 | The `{}` returned without a session raises `KeyError('customerBalancesDto')`. |
| `Details.MissingBalanceIsReported` | virginmobile2mqtt.py:104-107 | When balance `k` is the first missing one, extraction raises a KeyError naming exactly that balance. |
| `Session.AfterLogin` | virginmobile2mqtt.py:60-65 | A 200 login reply installs its cookies. The session changes only on a 200 reply. |
| `Session.AfterLogout` | virginmobile2mqtt.py:70-74 | After logout the session is empty iff the reply was 200 or there was no session. A session that survives is the old one. |
| `Session.RawDetails` | virginmobile2mqtt.py:76-92 | Without a session: `{}`. A raising transport raises. A non-200 reply gives `None`. A returned body comes from a 200 reply and holds `name` and `msisdn`. |
| `Session.FetchPhone` | virginmobile2mqtt.py:98-109 | A snapshot is produced only under a session, from a 200 reply with a well-formed body, and is that body's. Without a session it raises KeyError. A non-200 reply raises `Endpoint returned None`. |
| `Session.FetchAll` | virginmobile2mqtt.py:117-119 | The fetch loop. A successful list has one snapshot per phone. At most one request per phone is sent, and none without a session. |
| `Session.Cycle` | virginmobile2mqtt.py:111-123 | `extract_all_details`: login is the first request and logout the last, with at most one fetch per phone between. A successful list has one snapshot per phone. |
| `Session.FetchAllOkIff` | virginmobile2mqtt.py:117-119 | The fetch loop succeeds iff every phone's fetch succeeds. |
| `Session.FetchAllSucceeds` | virginmobile2mqtt.py:117-119 | When all fetches succeed, the loop yields one snapshot per phone in configured order and sends exactly one request per phone. |
| `Session.FetchAllStopsAtFirstFailure` | virginmobile2mqtt.py:117-119 | The first failing phone's exception ends the loop, and no request goes out after that phone's. |
| `Session.FetchAllErrPersists` | virginmobile2mqtt.py:117-119 | Once a prefix of the phones has raised, the remaining phones change neither the result nor the requests. |
| `Session.FetchAllStep` | virginmobile2mqtt.py:117-119 | One more turn after a successful prefix appends that phone's snapshot, or its exception. |
| `Session.FetchAllSendsDetailsOnly` | virginmobile2mqtt.py:117-119 | The loop sends only details requests, all under the session of the cycle. |
| `Session.FetchAllStartsWithFirstPhone` | virginmobile2mqtt.py:117-118 | Under a session, the loop's first request is for the first configured phone. |
| `Session.CycleRequestOrder` | virginmobile2mqtt.py:111-123 | Login is the first request and logout the last, so logout is sent exactly once on every path. Every request in between is a fetch. |
| `Session.CycleAllOrNothing` | virginmobile2mqtt.py:111-123 | The cycle returns a list iff login and logout do not raise and every fetch succeeds. The list has one snapshot per phone, in configured order. |
| `Session.CycleWithoutPhones` | virginmobile2mqtt.py:111-123 | With no phones configured, even a rejected login gives an empty successful list. |
| `Session.CycleIgnoresEarlierSession` | virginmobile2mqtt.py:58-62 | After a successful login the cycle does not depend on the earlier session. Repeating it against the same remote data repeats it. |
| `Session.RejectedLoginWithoutSession` | virginmobile2mqtt.py:77-79 | With no session and a rejected login, the cycle raises. Only login and a cookie-less logout are sent, and the session stays empty. |
| `Session.RejectedLoginReusesStaleSession` | virginmobile2mqtt.py:60-65 | A rejected login keeps stale cookies, and the first fetch goes out under them. |
| `Session.VirginMobile.constructor` | virginmobile2mqtt.py:39-48 | Starts without a session and with no requests sent. The phone list is the parsed configuration string. |
| `Session.VirginMobile.Login` | virginmobile2mqtt.py:54-65 | Always sends the login request. Cookies become the reply's on 200 and are otherwise unchanged. Raises only when the transport raises. |
| `Session.VirginMobile.Logout` | virginmobile2mqtt.py:67-74 | Always sends, attaching the current cookies (possibly none). Cookies are cleared on 200 and otherwise unchanged. |
| `Session.VirginMobile.GetRawDetails` | virginmobile2mqtt.py:76-92 | Without a session: `{}` and no request. Under a session: one request, then the body on 200 and `None` on any other status. The session is unchanged. |
| `Session.VirginMobile.ExtractPhoneDetails` | virginmobile2mqtt.py:98-109 | Result and requests are those of `FetchPhone` for the current session, which is unchanged. |
| `Session.VirginMobile.FetchEach` | virginmobile2mqtt.py:117-119 | The fetch loop: result and requests sent are those of `FetchAll` under the current session, which is unchanged. |
| `Session.VirginMobile.ExtractAllDetails` | virginmobile2mqtt.py:111-123 | Result, final cookies and requests sent are exactly those of one `Cycle` from the current cookies. |
| `Publishing.StatusMessage` | virginmobile2mqtt.py:133 | The status message goes to `virginmobile2mqtt/<username>/status`, retained, with QoS 0. |
| `Publishing.PayloadMessage` | virginmobile2mqtt.py:140 | A snapshot goes to `virginmobile2mqtt/<username>/<phone_id>`, not retained, with the configured QoS. |
| `Publishing.IterationMessages` | virginmobile2mqtt.py:145-154 | On success: one non-retained payload per snapshot, in order, on `<prefix>/<username>/<phone_id>` with the configured QoS, then a retained QoS-0 `online`. On an exception: only `offline`. The status is always the last message. |
| `Publishing.Delivered` | virginmobile2mqtt.py:132-143 | The messages whose publish call did not raise: never more than were sent, and each one of them. |
| `Publishing.AcceptedIndices` | virginmobile2mqtt.py:132-143 | The positions of the sends that did not raise, strictly increasing, including every such position. |
| `Publishing.DeliveredExactly` | virginmobile2mqtt.py:132-143 | A send that raises is swallowed. The delivered list is the in-order subsequence of the accepted sends: its j-th message is the send at the j-th accepted position. Repeated messages therefore keep their multiplicity. |
| `Publishing.DeliveredSnoc` | virginmobile2mqtt.py:132-143 | One more send appends its message after the earlier deliveries, or drops it if it raised. |
| `Publishing.DeliveredAll` | virginmobile2mqtt.py:131-143 | When no publish call raises, all messages are delivered in order. |
| `Publishing.Publisher.constructor` | virginmobile2mqtt.py:126-129 | Starts with nothing published. Topics use the client's own username, since both come from `VM_USERNAME`. The QoS defaults to 1. |
| `Publishing.Publisher.SendStatus` | virginmobile2mqtt.py:131-136 | Appends the retained QoS-0 status message, unless the publish call raises. |
| `Publishing.Publisher.SendPayload` | virginmobile2mqtt.py:138-143 | Appends the non-retained snapshot message on the postfix topic with the configured QoS, unless the publish call raises. |
| `Publishing.Publisher.Report` | virginmobile2mqtt.py:147-154 | Given the cycle's outcome, publishes exactly the delivered part of its `IterationMessages`. |
| `Publishing.Publisher.PublishOnce` | virginmobile2mqtt.py:145-154 | Runs one cycle on the client, leaving it in that cycle's state. It then publishes exactly the delivered part of that cycle's `IterationMessages`. |
| `EndToEnd.TwoPhonesCycle` | virginmobile2mqtt.py:111-123 | A successful login and two well-formed replies give both snapshots in order, after login, two fetches and logout. |
| `EndToEnd.TwoSnapshotsThenOnline` | virginmobile2mqtt.py:145-154 | A cycle of two snapshots publishes both payloads in order, then `online`. |
| `EndToEnd.TwoPhonesThenOnline` | virginmobile2mqtt.py:111-154 | Two valid ids and two well-formed replies give both snapshots in order, four requests, and `online` last. |
| `EndToEnd.FirstFetchRejectedThenOffline` | virginmobile2mqtt.py:111-154 | A non-200 reply for the first phone stops the fetches. Logout is still sent and only `offline` is published. |
| `EndToEnd.RejectedLoginThenOffline` | virginmobile2mqtt.py:111-154 | A rejected login without a session sends only login and logout, then publishes only `offline`. |
| `EndToEnd.OneStatusPerIteration` | virginmobile2mqtt.py:145-154 | Every iteration sends exactly one status message, retained with QoS 0, and it is sent last. |

## Left out

- HTTP (`requests.post`/`get`) is the `server` parameter. It maps each request to one reply, so identical requests within one run (a phone id configured twice) get identical replies.
- Failures to decode a reply are a body of `None`. JSON text and its parsing are not modelled.
- Logging, including the log level check in `__main__`: no state effect, apart from the success log line reading `name` and `msisdn` (modelled).
- `sleep` after login and between iterations: timing only.
- The `while True` loop of `publish`, the background thread and `loop_forever` are not modelled. `PublishOnce` models a single iteration. Iterations compose by running it again on the state it leaves.
- `mqtt_connect`: the client setup, the last-will message, the `online` status at startup and `sys.exit` on connection failure belong to the MQTT library and process control.
- Environment variables are constructor parameters: username, password, phone-id string and QoS (default 1, `DefaultQos`). A missing `VM_PHONE_IDS`, which crashes at construction, is not modelled.
- `json.dumps` of payloads: the published payload is the `PhoneDetails` value itself. Its serialisation sits inside the same swallowed `try` as the publish call.
- A raising `client.publish` is modelled as the message not being published. Whether a raising call still reached the broker is not modelled.
- Topics keep the phone id as the JSON value the code formats into it. Python's string formatting of a non-string `msisdn` is not modelled.
- Numbers in replies are kept as their text (`JNumber`). `quantity` is only copied, so no floating-point arithmetic is modelled.
- When a `finally` logout raises, the model keeps only the new exception. Python's chaining of the original exception as context is not modelled.
