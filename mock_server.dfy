/**
 * The simulated Netty peer used when no real socket is opened. It keeps a
 * list of message listeners, answers the envelopes it is sent after a short
 * delay, and sends an occasional broadcast on a five-second timer.
 *
 * Timers are explicit: every `setTimeout` the peer schedules is a `Timeout`
 * in `pending` until the environment calls `Fire` for it, and each tick of
 * the periodic timer is a call to `Tick` carrying the two random draws.
 */
module MockServer {
  import opened Wrappers
  import opened Json
  import opened Text

  /** A registered `onMessage` callback, named by a number. */
  type Listener = nat

  /** One callback invocation: `listener(data)`. */
  datatype Delivery = Delivery(listener: Listener, data: string)

  /** A scheduled `setTimeout` that will emit `message` after `delay` milliseconds. */
  datatype Timeout = Timeout(delay: nat, message: Object)

  /** The greeting scheduled on connect. */
  const Welcome: Object := [("type", "SYSTEM"), ("content", "Connected to Mock Netty Server v1.0")]

  /** The answer to a PING envelope. */
  const Pong: Object := [("type", "PONG"), ("content", "ack")]

  /** The answer to an AUTH envelope. */
  function AuthAck(credential: string): Object
  {
    [("type", "SYSTEM"), ("content", "Authenticated as User-" + Prefix(credential, 5) + "...")]
  }

  /** The acknowledgement is a SYSTEM envelope that repeats at most five characters of the credential. */
  lemma AuthAckShape(credential: string)
    ensures DistinctKeys(AuthAck(credential)) && Get(AuthAck(credential), "type") == Some("SYSTEM")
    ensures exists p :: |p| <= 5 && StartsWith(credential, p)
                     && Get(AuthAck(credential), "content") == Some("Authenticated as User-" + p + "...")
  {
    var p := Prefix(credential, 5);
    assert |p| <= 5 && StartsWith(credential, p);
    assert Get(AuthAck(credential), "content") == Some("Authenticated as User-" + p + "...");
  }

  /** The echo of a MESSAGE or BROADCAST envelope: the same object with `sender` overwritten. */
  function Echo(o: Object): (r: Object)
    ensures Get(r, "sender") == Some("ECHO_SERVICE")
    ensures forall k :: k != "sender" ==> Get(r, k) == Get(o, k)
  {
    Put(o, "sender", "ECHO_SERVICE")
  }

  /** The periodic alert about worker node `node`. */
  function Alert(node: nat): Object
    requires node < 10
  {
    [ ("type", "BROADCAST"),
      ("content", "System Alert: High load on worker node #" + [('0' as int + node) as char]),
      ("sender", "SERVER") ]
  }

  /**
   * What `send(data)` schedules: a PONG after 100 ms for a PING envelope, an
   * acknowledgement after 300 ms for an AUTH envelope, an echo after 200 ms
   * for a MESSAGE or BROADCAST envelope, and nothing otherwise. Text that does
   * not parse, and an AUTH envelope without a `content` (whose `substring`
   * throws), are swallowed.
   */
  function Reply(data: string): (r: Option<Timeout>)
    ensures r.Some? ==> Decode(data).Some?
    ensures r.Some? ==> r.value.delay == 100 || r.value.delay == 200 || r.value.delay == 300
  {
    match Decode(data)
    case None => None
    case Some(o) =>
      var kind := Get(o, "type");
      if kind == Some("PING") then Some(Timeout(100, Pong))
      else if kind == Some("AUTH") then
        match Get(o, "content")
        case None => None
        case Some(c) => Some(Timeout(300, AuthAck(c)))
      else if kind == Some("MESSAGE") || kind == Some("BROADCAST") then Some(Timeout(200, Echo(o)))
      else None
  }

  /** The timeouts `send(data)` adds to the schedule: the reply, if any. */
  function Scheduled(data: string): (r: seq<Timeout>)
    ensures |r| <= 1
    ensures r == [] <==> Reply(data).None?
  {
    match Reply(data)
    case Some(t) => [t]
    case None => []
  }

  /** `Math.floor(draw * 10)`: the worker node an alert names. */
  function NodeOf(draw: real): (n: nat)
    requires 0.0 <= draw < 1.0
    ensures n < 10 && n as real <= draw * 10.0 < n as real + 1.0
  {
    (draw * 10.0).Floor
  }

  /**
   * A hand-typed PING envelope is answered whatever whitespace stands around
   * its tokens, as in `{"type": "PING"}`.
   */
  lemma SpacedPingAnswered(w0: string, w1: string, w2: string, w3: string, w4: string, w5: string)
    requires AllSpace(w0) && AllSpace(w1) && AllSpace(w2) && AllSpace(w3) && AllSpace(w4) && AllSpace(w5)
    ensures Reply(w0 + ("{" + (w1 + Quoted("type", w2 + (":" + (w3 + Quoted("PING", w4 + ("}" + w5))))))))
         == Some(Timeout(100, Pong))
  {
    DecodeSpacedMember("type", "PING", w0, w1, w2, w3, w4, w5);
  }

  /** A PING envelope is answered by exactly one PONG, 100 ms later. */
  lemma ReplyToPing(o: Object)
    requires DistinctKeys(o) && Get(o, "type") == Some("PING")
    ensures Reply(Encode(o)) == Some(Timeout(100, [("type", "PONG"), ("content", "ack")]))
  {
    EncodeDecode(o);
  }

  /** An AUTH envelope with a credential is acknowledged 300 ms later. */
  lemma ReplyToAuth(o: Object, credential: string)
    requires DistinctKeys(o) && Get(o, "type") == Some("AUTH") && Get(o, "content") == Some(credential)
    ensures Reply(Encode(o)) == Some(Timeout(300, AuthAck(credential)))
  {
    EncodeDecode(o);
  }

  /**
   * A MESSAGE or BROADCAST envelope comes back 200 ms later as its `Echo`:
   * unchanged except that its sender is the echo service.
   */
  lemma ReplyToChat(o: Object)
    requires DistinctKeys(o) && (Get(o, "type") == Some("MESSAGE") || Get(o, "type") == Some("BROADCAST"))
    ensures Reply(Encode(o)) == Some(Timeout(200, Echo(o)))
  {
    EncodeDecode(o);
    var kind := Get(o, "type");
    assert |kind.value| != 4;
    assert kind != Some("PING") && kind != Some("AUTH");
  }

  /** Any other envelope type is ignored. */
  lemma ReplyToOther(o: Object)
    requires DistinctKeys(o)
    requires Get(o, "type") !in {Some("PING"), Some("AUTH"), Some("MESSAGE"), Some("BROADCAST")}
    ensures Reply(Encode(o)) == None
  {
    EncodeDecode(o);
  }

  /** `out` hands `data` to each listener of `ls`, in registration order. */
  predicate DeliversTo(out: seq<Delivery>, ls: seq<Listener>, data: string)
  {
    |out| == |ls| && forall j :: 0 <= j < |out| ==> out[j] == Delivery(ls[j], data)
  }

  class MockNettyServer {
    /** The registered callbacks, in registration order. */
    var listeners: seq<Listener>
    /** The `setTimeout` emissions scheduled and not yet fired. */
    var pending: seq<Timeout>
    /** How many periodic broadcast timers are running. */
    var intervals: nat
    /** Whether `intervalId` names one of the running periodic timers. */
    var tracked: bool

    ghost predicate Valid()
      reads this
    {
      tracked ==> intervals > 0
    }

    constructor ()
      ensures Valid()
      ensures listeners == [] && pending == [] && intervals == 0 && !tracked
    {
      listeners, pending, intervals, tracked := [], [], 0, false;
    }

    /**
     * Registers one more listener, schedules the greeting after 500 ms and
     * starts the periodic timer (overwriting `intervalId`).
     */
    method Connect(onMessage: Listener)
      requires Valid()
      modifies this
      ensures Valid()
      ensures listeners == old(listeners) + [onMessage]
      ensures pending == old(pending) + [Timeout(500, Welcome)]
      ensures intervals == old(intervals) + 1 && tracked
    {
      listeners := listeners + [onMessage];
      pending := pending + [Timeout(500, Welcome)];
      intervals, tracked := intervals + 1, true;
    }

    /** Schedules the reply to `data`, if any; nothing is reported to the caller. */
    method Send(data: string)
      requires Valid()
      modifies this
      ensures Valid()
      ensures listeners == old(listeners) && intervals == old(intervals) && tracked == old(tracked)
      ensures pending == old(pending) + Scheduled(data)
    {
      var reply := Reply(data);
      match reply
      case Some(t) => pending := pending + [t];
      case None =>
    }

    /**
     * Drops every listener and stops the periodic timer `intervalId` names.
     * Timeouts already scheduled stay scheduled; they will reach nobody.
     */
    method Disconnect()
      requires Valid()
      modifies this
      ensures Valid()
      ensures listeners == [] && pending == old(pending) && !tracked
      ensures intervals == if old(tracked) then old(intervals) - 1 else old(intervals)
    {
      listeners := [];
      if tracked {
        intervals := intervals - 1;
      }
      tracked := false;
    }

    /** Serialises `message` once and hands it to every listener in order. */
    method Emit(message: Object) returns (out: seq<Delivery>)
      ensures DeliversTo(out, listeners, Encode(message))
    {
      var data := Encode(message);
      out := [];
      var i := 0;
      while i < |listeners|
        invariant 0 <= i <= |listeners|
        invariant DeliversTo(out, listeners[..i], data)
      {
        out := out + [Delivery(listeners[i], data)];
        i := i + 1;
      }
    }

    /** The scheduled timeout `pending[i]` elapses and emits its message. */
    method Fire(i: nat) returns (out: seq<Delivery>)
      requires Valid() && i < |pending|
      modifies this
      ensures Valid()
      ensures listeners == old(listeners) && intervals == old(intervals) && tracked == old(tracked)
      ensures pending == old(pending[..i] + pending[i + 1..])
      ensures DeliversTo(out, listeners, Encode(old(pending[i]).message))
    {
      var t := pending[i];
      pending := pending[..i] + pending[i + 1..];
      out := Emit(t.message);
    }

    /**
     * One tick of the periodic timer, with the two `Math.random()` draws:
     * an alert about node `floor(nodeDraw * 10)` when `draw > 0.7`, else nothing.
     */
    method Tick(draw: real, nodeDraw: real) returns (out: seq<Delivery>)
      requires intervals > 0
      requires 0.0 <= draw < 1.0 && 0.0 <= nodeDraw < 1.0
      ensures draw <= 0.7 ==> out == []
      ensures draw > 0.7 ==> DeliversTo(out, listeners, Encode(Alert(NodeOf(nodeDraw))))
    {
      if draw > 0.7 {
        out := Emit(Alert(NodeOf(nodeDraw)));
      } else {
        out := [];
      }
    }
  }

  /** Once disconnected, a firing timeout reaches no listener. */
  method FireAfterDisconnect(m: MockNettyServer, i: nat) returns (out: seq<Delivery>)
    requires m.Valid() && i < |m.pending|
    modifies m
    ensures out == []
  {
    m.Disconnect();
    out := m.Fire(i);
  }
}
