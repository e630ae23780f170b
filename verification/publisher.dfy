/**
 * The MQTT side: the messages one iteration of `Publisher.publish` sends and
 * the subset the broker client accepts without raising.
 */
module Publishing {
  import opened Wrappers
  import opened Json
  import opened Details
  import opened Session

  const Prefix := "virginmobile2mqtt"
  /** QoS used for payloads when none is configured. */
  const DefaultQos := 1
  const StatusQos := 0
  const Online := "online"
  const Offline := "offline"

  /**
   * `<prefix>/<username>/<postfix>`; the postfix is the JSON value the code
   * formats into the topic (`"status"` or a snapshot's phone id).
   */
  datatype Topic = Topic(prefix: string, username: string, postfix: Json)

  datatype Payload = DetailsPayload(details: PhoneDetails) | StatusPayload(status: string)

  datatype Message = Message(topic: Topic, payload: Payload, qos: int, retain: bool)

  /** What `send_status` publishes: QoS 0, retained. */
  function StatusMessage(username: string, status: string): (m: Message)
    ensures m.topic == Topic(Prefix, username, JStr("status"))
    ensures m.payload == StatusPayload(status) && m.qos == StatusQos && m.retain
  {
    Message(Topic(Prefix, username, JStr("status")), StatusPayload(status), StatusQos, true)
  }

  /** What `send_payload` publishes for a snapshot: the configured QoS, not retained. */
  function PayloadMessage(username: string, qos: int, details: PhoneDetails): (m: Message)
    ensures m.topic == Topic(Prefix, username, details.phoneId)
    ensures m.payload == DetailsPayload(details) && m.qos == qos && !m.retain
  {
    Message(Topic(Prefix, username, details.phoneId), DetailsPayload(details), qos, false)
  }

  /**
   * The sends of one iteration, in order: a payload per snapshot then `online`,
   * or `offline` alone when the cycle raised.
   */
  function IterationMessages(cycle: Attempt<seq<PhoneDetails>>, username: string, qos: int): (ms: seq<Message>)
    ensures cycle.Ok? ==>
              && |ms| == |cycle.value| + 1
              && (forall i :: 0 <= i < |cycle.value| ==>
                    && ms[i].topic == Topic(Prefix, username, cycle.value[i].phoneId)
                    && ms[i].payload == DetailsPayload(cycle.value[i])
                    && ms[i].qos == qos && !ms[i].retain)
              && ms[|ms| - 1] == StatusMessage(username, Online)
    ensures cycle.Err? ==> ms == [StatusMessage(username, Offline)]
    ensures forall i :: 0 <= i < |ms| ==> (ms[i].payload.StatusPayload? <==> i == |ms| - 1)
  {
    match cycle
    case Err(_) => [StatusMessage(username, Offline)]
    case Ok(all) =>
      seq(|all|, i requires 0 <= i < |all| => PayloadMessage(username, qos, all[i])) + [StatusMessage(username, Online)]
  }

  /** The messages whose publish call did not raise; `accepts(i)` says whether send `i` went through. */
  function Delivered(ms: seq<Message>, accepts: nat -> bool): (out: seq<Message>)
    ensures |out| <= |ms|
    ensures forall j :: 0 <= j < |out| ==> out[j] in ms
    decreases |ms|
  {
    if ms == [] then []
    else Delivered(ms[..|ms| - 1], accepts) + (if accepts(|ms| - 1) then [ms[|ms| - 1]] else [])
  }

  /** The positions below `n` whose send did not raise, in increasing order. */
  function AcceptedIndices(n: nat, accepts: nat -> bool): (idx: seq<nat>)
    ensures forall j :: 0 <= j < |idx| ==> idx[j] < n && accepts(idx[j])
    ensures forall j, k :: 0 <= j < k < |idx| ==> idx[j] < idx[k]
    ensures forall i :: 0 <= i < n && accepts(i) ==> i in idx
    decreases n
  {
    if n == 0 then []
    else AcceptedIndices(n - 1, accepts) + (if accepts(n - 1) then [n - 1] else [])
  }

  /**
   * A failed send is swallowed: what is delivered is exactly the accepted
   * sends, each once, in the order they were sent.
   */
  lemma {:induction false} DeliveredExactly(ms: seq<Message>, accepts: nat -> bool)
    ensures |Delivered(ms, accepts)| == |AcceptedIndices(|ms|, accepts)|
    ensures forall j :: 0 <= j < |Delivered(ms, accepts)| ==>
              Delivered(ms, accepts)[j] == ms[AcceptedIndices(|ms|, accepts)[j]]
    decreases |ms|
  {
    if ms != [] {
      var init := ms[..|ms| - 1];
      DeliveredExactly(init, accepts);
      assert forall i :: 0 <= i < |init| ==> init[i] == ms[i];
    }
  }

  /** Sending one more message delivers it after the earlier ones, or drops it. */
  lemma DeliveredSnoc(ms: seq<Message>, k: nat, accepts: nat -> bool)
    requires k < |ms|
    ensures Delivered(ms[..k + 1], accepts) ==
            Delivered(ms[..k], accepts) + (if accepts(k) then [ms[k]] else [])
  {
    assert ms[..k + 1][..k] == ms[..k];
  }

  /** When no send raises, everything is delivered in order. */
  lemma {:induction false} DeliveredAll(ms: seq<Message>, accepts: nat -> bool)
    requires forall i :: 0 <= i < |ms| ==> accepts(i)
    ensures Delivered(ms, accepts) == ms
    decreases |ms|
  {
    if ms != [] {
      DeliveredAll(ms[..|ms| - 1], accepts);
    }
  }

  /** `Publisher`: the client object and the messages it has published so far. */
  class Publisher {
    const vm: VirginMobile
    const username: string
    const qos: int
    var published: seq<Message>

    /** Topics use the same account name the client logs in with. */
    constructor (vm: VirginMobile, qos: int := DefaultQos)
      ensures this.vm == vm && username == vm.username && this.qos == qos
      ensures published == []
    {
      this.vm := vm;
      this.username := vm.username;
      this.qos := qos;
      published := [];
    }

    /** `send_status`: a retained QoS 0 status message; a raising publish is swallowed. */
    method SendStatus(status: string, accepted: bool)
      modifies this
      ensures published == old(published) + (if accepted then [StatusMessage(username, status)] else [])
    {
      if accepted {
        published := published + [StatusMessage(username, status)];
      }
    }

    /** `send_payload`: the snapshot under `<prefix>/<username>/<postfix>`, not retained. */
    method SendPayload(payload: PhoneDetails, postfix: Json, accepted: bool)
      modifies this
      ensures published == old(published) +
                (if accepted then [Message(Topic(Prefix, username, postfix), DetailsPayload(payload), qos, false)]
                 else [])
    {
      if accepted {
        published := published + [Message(Topic(Prefix, username, postfix), DetailsPayload(payload), qos, false)];
      }
    }

    /**
     * The body of the `try`/`except` in `publish`, given what the cycle
     * returned: each snapshot then `online`, or `offline` alone.
     */
    method Report(all: Attempt<seq<PhoneDetails>>, accepts: nat -> bool)
      modifies this
      ensures published == old(published) + Delivered(IterationMessages(all, username, qos), accepts)
    {
      ghost var ms := IterationMessages(all, username, qos);
      if all.Ok? {
        var details := all.value;
        var k := 0;
        while k < |details|
          invariant 0 <= k <= |details|
          invariant published == old(published) + Delivered(ms[..k], accepts)
        {
          DeliveredSnoc(ms, k, accepts);
          SendPayload(details[k], details[k].phoneId, accepts(k));
          k := k + 1;
        }
        DeliveredSnoc(ms, k, accepts);
        assert ms[..k + 1] == ms;
        SendStatus(Online, accepts(k));
      } else {
        DeliveredSnoc(ms, 0, accepts);
        assert ms[..1] == ms;
        SendStatus(Offline, accepts(0));
      }
    }

    /**
     * One iteration of `publish`: run a cycle on the client, then report it.
     */
    method PublishOnce(server: Server, accepts: nat -> bool)
      modifies this, vm
      ensures var run := Cycle(vm.username, vm.password, vm.phones, old(vm.cookies), server);
              && vm.cookies == run.session
              && vm.sent == old(vm.sent) + run.sent
              && published == old(published) + Delivered(IterationMessages(run.result, username, qos), accepts)
    {
      var all := vm.ExtractAllDetails(server);
      Report(all, accepts);
    }
  }
}
