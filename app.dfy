/**
 * The session controller: the connection state machine, the message log and
 * its per-direction counters, the metrics window, the choice between a real
 * socket and the simulated peer, the heartbeat and outbound routing.
 *
 * Every React callback is a method of `AppContent`; socket events, timer
 * ticks and random draws arrive as method calls and parameters. Effects run
 * synchronously: the heartbeat gate is re-evaluated at the end of every
 * method that changes the status or the configuration.
 */
module App {
  import opened Wrappers
  import opened Text
  import opened Json
  import opened Types
  import opened MockServer

  /** What `addMessage` is given: a frame without its id and timestamp. */
  datatype Frame = Frame(kind: MessageType, content: string, isOutgoing: bool)

  /** The log entry `addMessage` makes of `f` when `id` is the next free id. */
  function Stamped(f: Frame, id: nat): WSMessage
  {
    WSMessage(id, f.kind, f.content, None, f.isOutgoing)
  }

  /** How many of `fs` are outgoing. */
  function Outgoing(fs: seq<Frame>): (n: nat)
    ensures n <= |fs|
  {
    if fs == [] then 0 else (if fs[0].isOutgoing then 1 else 0) + Outgoing(fs[1..])
  }

  /** The log with the counters that go with it: the next id and the frames counted in each direction. */
  datatype Logbook = Logbook(entries: seq<WSMessage>, nextId: nat, inCount: nat, outCount: nat)

  /** One `addMessage`: the frame stamped with the next id, appended, and counted in its direction. */
  function Log1(b: Logbook, f: Frame): Logbook
  {
    Logbook(b.entries + [Stamped(f, b.nextId)], b.nextId + 1,
            b.inCount + (if f.isOutgoing then 0 else 1), b.outCount + (if f.isOutgoing then 1 else 0))
  }

  /** `b` after logging the frames `fs`, one `addMessage` each. */
  function Append(b: Logbook, fs: seq<Frame>): Logbook
    decreases |fs|
  {
    if fs == [] then b else Append(Log1(b, fs[0]), fs[1..])
  }

  /**
   * Logging appends: earlier entries stay as they were, entry `j` of the new
   * ones is frame `j` with the `j`-th next id, and each frame is counted once,
   * in its own direction.
   */
  lemma {:induction false} AppendShape(b: Logbook, fs: seq<Frame>)
    ensures var r := Append(b, fs);
            && |r.entries| == |b.entries| + |fs| && r.entries[..|b.entries|] == b.entries
            && (forall j :: 0 <= j < |fs| ==> r.entries[|b.entries| + j] == Stamped(fs[j], b.nextId + j))
            && r.nextId == b.nextId + |fs|
            && r.inCount + r.outCount == b.inCount + b.outCount + |fs|
            && r.outCount == b.outCount + Outgoing(fs)
    decreases |fs|
  {
    if fs != [] {
      var b1 := Log1(b, fs[0]);
      AppendShape(b1, fs[1..]);
      var r := Append(b, fs);
      assert r == Append(b1, fs[1..]);
      assert r.entries[..|b1.entries|] == b1.entries;
      assert r.entries[..|b.entries|] == b1.entries[..|b.entries|];
      forall j | 0 <= j < |fs|
        ensures r.entries[|b.entries| + j] == Stamped(fs[j], b.nextId + j)
      {
        if j == 0 {
          assert r.entries[|b.entries|] == b1.entries[|b.entries|];
        } else {
          assert fs[1..][j - 1] == fs[j];
        }
      }
    }
  }

  /** Logging `a` and then `c` is logging `a + c`. */
  lemma {:induction false} AppendAppend(b: Logbook, a: seq<Frame>, c: seq<Frame>)
    ensures Append(Append(b, a), c) == Append(b, a + c)
    decreases |a|
  {
    if a == [] {
      assert a + c == c;
    } else {
      AppendAppend(Log1(b, a[0]), a[1..], c);
      assert (a + c)[0] == a[0] && (a + c)[1..] == a[1..] + c;
    }
  }

  /** The address test that forces the simulated peer: `mock` occurs somewhere in the address. */
  predicate WantsMock(url: string)
    ensures WantsMock(url) <==> exists i: nat :: OccursAt(url, "mock", i)
  {
    IncludesIff(url, "mock");
    Includes(url, "mock")
  }

  // ---------------------------------------------------------------------
  // Inbound classification

  /**
   * The trimmed text opens a JSON object or array: the first character that
   * is not whitespace is `{` or `[`.
   */
  predicate OpensStructure(data: string)
    ensures OpensStructure(data) <==> var t := TrimStart(data); t != [] && (t[0] == '{' || t[0] == '[')
  {
    TrimKeepsHead(data);
    StartsWithChar(Trim(data), '{');
    StartsWithChar(Trim(data), '[');
    StartsWith(Trim(data), "{") || StartsWith(Trim(data), "[")
  }

  /**
   * Where JSON whitespace ends, `trim` has stopped too, as long as what
   * follows is not whitespace of another kind.
   */
  lemma {:induction false} SkipSpaceTrims(s: string)
    requires SkipSpace(s) != [] && !IsSpace(SkipSpace(s)[0])
    ensures TrimStart(s) == SkipSpace(s)
  {
    if s != [] && IsJsonSpace(s[0]) {
      SkipSpaceTrims(s[1..]);
    }
  }

  /** Text that parses as an envelope opens a JSON object once trimmed. */
  lemma ParsedOpensStructure(data: string)
    ensures Decode(data).Some? ==> OpensStructure(data)
  {
    DecodedStartsWithBrace(data);
    if Decode(data).Some? {
      SkipSpaceTrims(data);
      TrimmedHead(data);
    }
  }

  /**
   * The kind a real-socket frame is logged with: JSON when its trimmed text
   * opens an object or array, else TEXT, and then JSON again when the text
   * parses as a MESSAGE or BROADCAST envelope.
   */
  function SocketFrameKind(data: string): (r: MessageType)
    ensures r == Json || r == Text
  {
    var kind := if OpensStructure(data) then Json else Text;
    match Decode(data)
    case Some(o) =>
      if Get(o, "type") == Some("MESSAGE") || Get(o, "type") == Some("BROADCAST") then Json else kind
    case None => kind
  }

  /**
   * A socket frame is JSON exactly when its trimmed text opens an object or
   * an array: the envelope check can only ever confirm JSON, so it never
   * changes the outcome.
   */
  lemma SocketFrameKindIff(data: string)
    ensures SocketFrameKind(data) == Json <==> OpensStructure(data)
    ensures SocketFrameKind(data) == Text <==> !OpensStructure(data)
  {
    ParsedOpensStructure(data);
  }

  /**
   * The frame logged for text the simulated peer delivers: SYSTEM or AUTH for
   * envelopes of those types and JSON for every other envelope (PONG
   * included), showing the envelope's `content` or, without one, the whole
   * envelope re-serialised; text that does not parse is logged as TEXT, raw.
   */
  function MockFrame(data: string): (f: Frame)
    ensures !f.isOutgoing
  {
    match Decode(data)
    case None => Frame(Text, data, false)
    case Some(o) =>
      var kind :=
        if Get(o, "type") == Some("SYSTEM") then System
        else if Get(o, "type") == Some("AUTH") then Auth
        else Json;
      var content := match Get(o, "content") case Some(c) => c case None => Encode(o);
      Frame(kind, content, false)
  }

  /**
   * How a delivery is classified: TEXT, shown raw, exactly when it does not
   * parse; SYSTEM and AUTH exactly for envelopes of those types; JSON for
   * every other envelope.
   */
  lemma MockFrameKinds(data: string)
    ensures MockFrame(data).kind == Text <==> Decode(data).None?
    ensures Decode(data).None? ==> MockFrame(data).content == data
    ensures MockFrame(data).kind == System <==> Decode(data).Some? && Get(Decode(data).value, "type") == Some("SYSTEM")
    ensures MockFrame(data).kind == Auth <==> Decode(data).Some? && Get(Decode(data).value, "type") == Some("AUTH")
    ensures MockFrame(data).kind in {System, Auth, Json, Text}
  {
  }

  /** A serialised envelope is shown with its own `content`, classified by its own `type`. */
  lemma MockEnvelopeFrame(o: Object, content: string)
    requires DistinctKeys(o) && Get(o, "content") == Some(content)
    ensures MockFrame(Encode(o)).content == content
    ensures MockFrame(Encode(o)).kind ==
              if Get(o, "type") == Some("SYSTEM") then System
              else if Get(o, "type") == Some("AUTH") then Auth
              else Json
  {
    EncodeDecode(o);
  }

  /** The peer's greeting is logged as an incoming SYSTEM frame. */
  lemma WelcomeLoggedAsSystem()
    ensures MockFrame(Encode(Welcome)) == Frame(System, "Connected to Mock Netty Server v1.0", false)
  {
    MockEnvelopeFrame(Welcome, "Connected to Mock Netty Server v1.0");
  }

  /** A PONG is not given the HEARTBEAT_PONG kind: it is logged as JSON showing "ack". */
  lemma PongLoggedAsJson()
    ensures MockFrame(Encode(Pong)) == Frame(Json, "ack", false)
  {
    MockEnvelopeFrame(Pong, "ack");
  }

  /** The peer's acknowledgement of a credential is logged as SYSTEM. */
  lemma AuthAckLoggedAsSystem(credential: string)
    ensures MockFrame(Encode(AuthAck(credential))).kind == System
  {
    var r := AuthAck(credential);
    AuthAckShape(credential);
    EncodeDecode(r);
  }

  // ---------------------------------------------------------------------
  // Authentication

  /** The envelope sent on a real socket once it opens. */
  function SocketAuth(token: string): Object
  {
    [("type", "AUTH"), ("token", token)]
  }

  /** The envelope sent to the simulated peer. */
  function MockAuth(token: string): Object
  {
    [("type", "AUTH"), ("content", token)]
  }

  /**
   * A frame written to a real socket: a text as the caller gave it, or an
   * object put through `JSON.stringify`.
   */
  datatype Outbound = Raw(text: string) | Stringified(o: Object)

  /** The characters that go on the wire. */
  function Wire(x: Outbound): string
  {
    match x
    case Raw(text) => text
    case Stringified(o) => Encode(o)
  }

  /**
   * What the log shows for the credential: `Bearer `, then the credential's
   * first five characters (all of it when shorter), then `...`.
   */
  function MaskedToken(token: string): (r: string)
    ensures |r| == 10 + (if |token| < 5 then |token| else 5)
    ensures r[..7] == "Bearer " && r[|r| - 3..] == "..."
    ensures StartsWith(token, r[7..|r| - 3])
  {
    var p := Prefix(token, 5);
    var r := "Bearer " + p + "...";
    assert r[..7] == "Bearer " && r[7..|r| - 3] == p && r[|r| - 3..] == "...";
    r
  }

  /** The masked credential shows at most its first five characters. */
  lemma MaskedTokenShape(token: string)
    ensures exists p :: |p| <= 5 && StartsWith(token, p) && MaskedToken(token) == "Bearer " + p + "..."
  {
    var p := Prefix(token, 5);
    assert |p| <= 5 && StartsWith(token, p);
  }

  /** The peer acknowledges the session's credential envelope after 300 ms. */
  lemma MockAuthAcknowledged(token: string)
    ensures Reply(Encode(MockAuth(token))) == Some(Timeout(300, AuthAck(token)))
  {
    ReplyToAuth(MockAuth(token), token);
  }

  /** The socket envelope carries the credential under `token`, not `content`. */
  lemma SocketAuthCarriesToken(token: string)
    ensures Decode(Wire(Stringified(SocketAuth(token)))) == Some(SocketAuth(token))
    ensures Get(SocketAuth(token), "type") == Some("AUTH") && Get(SocketAuth(token), "token") == Some(token)
    ensures Get(SocketAuth(token), "content") == None
  {
    EncodeDecode(SocketAuth(token));
  }

  // ---------------------------------------------------------------------
  // Metrics

  /** How many points the chart keeps. */
  const MetricsWindow: nat := 20

  /** One tick of the chart: `p` appended, the oldest point dropped once there are more than 20. */
  function Slide(window: seq<MetricPoint>, p: MetricPoint): (r: seq<MetricPoint>)
    ensures |window| <= MetricsWindow ==>
              |r| == if |window| < MetricsWindow then |window| + 1 else MetricsWindow
  {
    var d := window + [p];
    if |d| > MetricsWindow then d[1..] else d
  }

  /** The new point comes last, after a suffix of the old chart: only the oldest points ever leave. */
  lemma SlideShape(window: seq<MetricPoint>, p: MetricPoint)
    ensures var r := Slide(window, p);
            && 0 < |r| <= |window| + 1 && r[|r| - 1] == p
            && r == (window + [p])[|window| + 1 - |r|..]
  {
  }

  /** The chart after ticks producing `history` in order, from an empty chart. */
  function Replay(history: seq<MetricPoint>): seq<MetricPoint>
  {
    if history == [] then [] else Slide(Replay(history[..|history| - 1]), history[|history| - 1])
  }

  /** The newest 20 points of `history`, oldest first. */
  function Newest(history: seq<MetricPoint>): seq<MetricPoint>
  {
    if |history| <= MetricsWindow then history else history[|history| - MetricsWindow..]
  }

  /** One tick appends to `Newest(h)` exactly the way it extends `h`. */
  lemma SlideNewest(h: seq<MetricPoint>, x: MetricPoint)
    ensures Slide(Newest(h), x) == Newest(h + [x])
  {
    var history := h + [x];
    if |h| >= MetricsWindow {
      var w := h[|h| - MetricsWindow..];
      assert (w + [x])[1..] == history[|history| - MetricsWindow..];
    }
  }

  /** The chart always shows exactly the newest 20 points, in order. */
  lemma {:induction false} ReplayKeepsNewest(history: seq<MetricPoint>)
    ensures Replay(history) == Newest(history)
  {
    if history != [] {
      var h := history[..|history| - 1];
      var x := history[|history| - 1];
      assert history == h + [x];
      ReplayKeepsNewest(h);
      SlideNewest(h, x);
    }
  }

  // ---------------------------------------------------------------------
  // Settings

  /** One `handleConfigChange(key, value)`. */
  datatype ConfigEdit =
    | SetUrl(url: string)
    | SetToken(token: string)
    | SetHeartbeatEnabled(enabled: bool)
    | SetHeartbeatInterval(interval: int)
    | SetHeartbeatMessage(message: string)

  /** `{ ...config, [key]: value }`: each edit sets its own field and leaves every other as it was. */
  function WithEdit(c: ConnectionConfig, e: ConfigEdit): (r: ConnectionConfig)
    ensures r.url == if e.SetUrl? then e.url else c.url
    ensures r.token == if e.SetToken? then e.token else c.token
    ensures r.enableHeartbeat == if e.SetHeartbeatEnabled? then e.enabled else c.enableHeartbeat
    ensures r.heartbeatInterval == if e.SetHeartbeatInterval? then e.interval else c.heartbeatInterval
    ensures r.heartbeatMessage == if e.SetHeartbeatMessage? then e.message else c.heartbeatMessage
  {
    match e
    case SetUrl(u) => c.(url := u)
    case SetToken(t) => c.(token := t)
    case SetHeartbeatEnabled(b) => c.(enableHeartbeat := b)
    case SetHeartbeatInterval(n) => c.(heartbeatInterval := n)
    case SetHeartbeatMessage(m) => c.(heartbeatMessage := m)
  }

  /** Repeating an edit changes nothing more. */
  lemma EditIdempotent(c: ConnectionConfig, e: ConfigEdit)
    ensures WithEdit(WithEdit(c, e), e) == WithEdit(c, e)
  {
  }

  /** The frames logged for the credential `token`: its masked form, if it is not empty. */
  function CredentialFrames(token: string): (r: seq<Frame>)
    ensures |r| <= 1
    ensures r != [] <==> token != ""
    ensures r != [] ==> r[0].kind == Auth && r[0].isOutgoing
  {
    if token != "" then [Frame(Auth, MaskedToken(token), true)] else []
  }

  /** What is written to a real socket for the credential `token`: its envelope, if it is not empty. */
  function CredentialSends(token: string): (r: seq<Outbound>)
    ensures |r| <= 1 && (r != [] <==> token != "")
  {
    if token != "" then [Stringified(SocketAuth(token))] else []
  }

  /** What the simulated peer schedules in answer to the credential `token`. */
  function CredentialReplies(token: string): (r: seq<Timeout>)
  {
    if token != "" then [Timeout(300, AuthAck(token))] else []
  }

  /** The callback the session registers with the simulated peer. */
  const SessionListener: Listener := 0

  /** The outgoing system line logged when a connection is attempted. */
  function Attempting(url: string): Frame
  {
    Frame(System, "Attempting connection to " + url + "...", true)
  }

  /** The text logged when a send finds no transport while CONNECTED. */
  const SendFailed := "Socket not open, message failed."

  class AppContent {
    /** The connection settings in use. */
    var config: ConnectionConfig
    /** What the settings store holds. */
    var savedConfig: Option<ConnectionConfig>
    var status: ConnectionState
    /** Every frame logged since the last clear, oldest first. */
    var log: seq<WSMessage>
    /** Frames logged in each direction since the last metrics tick. */
    var inCount: nat
    var outCount: nat
    var metrics: seq<MetricPoint>
    /** `wsRef.current` is set, and that socket's `readyState` is OPEN. */
    var hasSocket: bool
    var socketOpen: bool
    /** Every frame written to a real socket, in order. */
    var socketSent: seq<Outbound>
    /** `mockServerRef.current` */
    var mock: MockNettyServer?
    /** Heartbeat intervals running. */
    var heartbeatTimers: nat
    /** The id the next logged frame gets. */
    var nextId: nat

    /** The heartbeat runs, once, exactly when it is enabled and the session is CONNECTED. */
    ghost predicate HeartbeatGated()
      reads this`heartbeatTimers, this`config, this`status
    {
      heartbeatTimers == if config.enableHeartbeat && status == Connected then 1 else 0
    }

    /** An open socket is a referenced one; the referenced peer, if any, has at most the session as listener. */
    ghost predicate TransportsValid()
      reads this`socketOpen, this`hasSocket, this`mock, mock
    {
      && (socketOpen ==> hasSocket)
      && (mock != null ==> mock.Valid() && (mock.listeners == [] || mock.listeners == [SessionListener]))
    }

    /** The session's invariant: the heartbeat gated by the status, and the transports consistent. */
    ghost predicate Valid()
      reads this`heartbeatTimers, this`config, this`status
      reads this`socketOpen, this`hasSocket, this`mock, mock
    {
      HeartbeatGated() && TransportsValid()
    }

    /** The chart holds at most the last `MetricsWindow` points. */
    ghost predicate WindowBounded()
      reads this`metrics
    {
      |metrics| <= MetricsWindow
    }

    /** The log and its counters, as one value. */
    function Book(): Logbook
      reads this`log, this`nextId, this`inCount, this`outCount
    {
      Logbook(log, nextId, inCount, outCount)
    }

    /** Mounting, with the settings store's content loaded. */
    constructor (stored: Option<ConnectionConfig>)
      ensures Valid() && WindowBounded()
      ensures config == (match stored case Some(c) => c case None => DefaultConfig)
      ensures savedConfig == stored
      ensures status == Disconnected && log == [] && metrics == [] && inCount == 0 && outCount == 0
      ensures !hasSocket && !socketOpen && socketSent == [] && mock == null && heartbeatTimers == 0
    {
      config := match stored case Some(c) => c case None => DefaultConfig;
      savedConfig := stored;
      status := Disconnected;
      log, metrics := [], [];
      inCount, outCount, nextId := 0, 0, 0;
      hasSocket, socketOpen, socketSent := false, false, [];
      mock := null;
      heartbeatTimers := 0;
    }

    /** Appends one stamped entry and counts it in its direction. */
    method AddMessage(f: Frame)
      modifies this`log, this`nextId, this`inCount, this`outCount
      ensures Book() == Append(old(Book()), [f])
    {
      log := log + [Stamped(f, nextId)];
      nextId := nextId + 1;
      if f.isOutgoing {
        outCount := outCount + 1;
      } else {
        inCount := inCount + 1;
      }
    }

    /** Starts a heartbeat interval after clearing the one it last started. */
    method StartHeartbeat()
      requires heartbeatTimers <= 1
      modifies this`heartbeatTimers
      ensures heartbeatTimers == 1
    {
      if heartbeatTimers > 0 {
        heartbeatTimers := heartbeatTimers - 1;
      }
      heartbeatTimers := heartbeatTimers + 1;
    }

    /** Clears the heartbeat interval it last started. */
    method StopHeartbeat()
      requires heartbeatTimers <= 1
      modifies this`heartbeatTimers
      ensures heartbeatTimers == 0
    {
      if heartbeatTimers > 0 {
        heartbeatTimers := heartbeatTimers - 1;
      }
    }

    /** The effect that starts or stops the heartbeat when the settings or the status change. */
    method GateHeartbeat()
      requires heartbeatTimers <= 1
      modifies this`heartbeatTimers
      ensures HeartbeatGated()
    {
      if config.enableHeartbeat && status == Connected {
        StartHeartbeat();
      } else {
        StopHeartbeat();
      }
    }

    /** One settings edit, saved to the store. */
    method Configure(e: ConfigEdit)
      requires Valid()
      modifies this`config, this`savedConfig, this`heartbeatTimers
      ensures Valid()
      ensures config == WithEdit(old(config), e) && savedConfig == Some(config)
    {
      config := WithEdit(config, e);
      savedConfig := Some(config);
      GateHeartbeat();
    }

    /** Closes the referenced socket and disconnects the referenced peer; both references stay. */
    method CloseTransports()
      requires TransportsValid()
      modifies this`socketOpen, mock
      ensures TransportsValid() && !socketOpen
      ensures mock != null ==> mock.listeners == [] && !mock.tracked && mock.pending == old(mock.pending)
    {
      if hasSocket {
        socketOpen := false;
      }
      if mock != null {
        mock.Disconnect();
      }
    }

    /** The masked credential logged outgoing, when there is one. */
    method LogCredential()
      modifies this`log, this`nextId, this`inCount, this`outCount
      ensures Book() == Append(old(Book()), CredentialFrames(config.token))
    {
      if config.token != "" {
        AddMessage(Frame(Auth, MaskedToken(config.token), true));
      }
    }

    /**
     * The mock path of `connect`: a fresh peer with the session as its only
     * listener, sent the credential envelope when there is a credential.
     */
    method OpenMock() returns (m: MockNettyServer)
      ensures fresh(m) && m.Valid()
      ensures m.listeners == [SessionListener] && m.intervals == 1 && m.tracked
      ensures m.pending == [Timeout(500, Welcome)] + CredentialReplies(config.token)
    {
      m := new MockNettyServer();
      m.Connect(SessionListener);
      ghost var p0 := m.pending;
      assert p0 == [Timeout(500, Welcome)];
      if config.token != "" {
        var envelope := Encode(MockAuth(config.token));
        MockAuthAcknowledged(config.token);
        assert Scheduled(envelope) == CredentialReplies(config.token);
        m.Send(envelope);
        assert m.pending == p0 + CredentialReplies(config.token);
      }
    }

    /** The start of `connect`: CONNECTING, the attempt logged, and any earlier socket and peer closed. */
    method BeginConnect()
      requires TransportsValid()
      modifies this`status, this`log, this`nextId, this`inCount, this`outCount, this`socketOpen, mock
      ensures status == Connecting && TransportsValid() && !socketOpen
      ensures mock != null ==> mock.listeners == [] && !mock.tracked
      ensures Book() == Append(old(Book()), [Attempting(config.url)])
    {
      status := Connecting;
      AddMessage(Attempting(config.url));
      CloseTransports();
    }

    /** A fresh peer installed with the session as its only listener; CONNECTED, and the heartbeat gated. */
    method InstallMock()
      requires heartbeatTimers <= 1 && !socketOpen
      modifies this`mock, this`status, this`heartbeatTimers
      ensures status == Connected && HeartbeatGated() && TransportsValid() && fresh(mock) && mock.tracked
      ensures mock.listeners == [SessionListener] && mock.intervals == 1
      ensures mock.pending == [Timeout(500, Welcome)] + CredentialReplies(config.token)
    {
      status := Connected;
      GateHeartbeat();
      var m := OpenMock();
      mock := m;
    }

    /** The socket path's end: a socket referenced but not yet open, and the heartbeat gated. */
    method ConnectSocket()
      requires heartbeatTimers <= 1 && TransportsValid()
      modifies this`hasSocket, this`socketOpen, this`heartbeatTimers
      ensures hasSocket && !socketOpen && HeartbeatGated() && TransportsValid()
    {
      hasSocket, socketOpen := true, false;
      GateHeartbeat();
    }

    /**
     * `connect`: CONNECTING and the attempt logged; any earlier socket and peer
     * closed; then either a new socket (awaiting its open event) or, when the
     * address names the simulated peer or the socket constructor throws, a
     * fresh peer with the session as its only listener, CONNECTED at once,
     * with the credential envelope sent and logged masked when there is one.
     */
    method Connect(ctorThrows: bool)
      requires Valid()
      modifies this`status, this`log, this`nextId, this`inCount, this`outCount
      modifies this`hasSocket, this`socketOpen, this`mock, this`heartbeatTimers, mock
      ensures Valid() && !socketOpen
      ensures old(mock) != null ==> old(mock).listeners == [] && !old(mock).tracked
      ensures WantsMock(config.url) || ctorThrows ==>
                && status == Connected && hasSocket == old(hasSocket)
                && fresh(mock) && mock.listeners == [SessionListener] && mock.intervals == 1
                && mock.pending == [Timeout(500, Welcome)] + CredentialReplies(config.token)
      ensures !(WantsMock(config.url) || ctorThrows) ==> status == Connecting && hasSocket && mock == old(mock)
      ensures Book() == Append(old(Book()),
                     [Attempting(config.url)]
                     + if WantsMock(config.url) || ctorThrows then CredentialFrames(config.token) else [])
    {
      BeginConnect();
      var attempt := Attempting(config.url);
      if WantsMock(config.url) || ctorThrows {
        LogCredential();
        InstallMock();
        AppendAppend(old(Book()), [attempt], CredentialFrames(config.token));
      } else {
        ConnectSocket();
        assert [attempt] + [] == [attempt];
      }
    }

    /** On an open socket: the credential envelope sent, and the credential logged masked, when there is one. */
    method SendCredential()
      modifies this`socketSent, this`log, this`nextId, this`inCount, this`outCount
      ensures socketSent == old(socketSent) + CredentialSends(config.token)
      ensures Book() == Append(old(Book()), CredentialFrames(config.token))
    {
      if config.token != "" {
        socketSent := socketSent + [Stringified(SocketAuth(config.token))];
      }
      LogCredential();
    }

    /** The open event's frames: "Connection Established" logged, then the credential sent and logged. */
    method AnnounceOpen()
      modifies this`socketSent, this`log, this`nextId, this`inCount, this`outCount
      ensures socketSent == old(socketSent) + CredentialSends(config.token)
      ensures Book() == Append(Append(old(Book()), [Frame(System, "Connection Established", false)]),
                               CredentialFrames(config.token))
    {
      AddMessage(Frame(System, "Connection Established", false));
      SendCredential();
    }

    /** The socket opened: CONNECTED, and the credential sent and logged masked when there is one. */
    method SocketOpen()
      requires Valid() && hasSocket
      modifies this`status, this`socketOpen, this`socketSent, this`log, this`nextId, this`inCount, this`outCount, this`heartbeatTimers
      ensures Valid()
      ensures status == Connected && socketOpen
      ensures socketSent == old(socketSent) + CredentialSends(config.token)
      ensures Book() == Append(Append(old(Book()), [Frame(System, "Connection Established", false)]),
                               CredentialFrames(config.token))
    {
      status := Connected;
      socketOpen := true;
      assert TransportsValid();
      AnnounceOpen();
      GateHeartbeat();
    }

    /** A frame arrived on the socket: logged incoming, as JSON or TEXT. */
    method SocketMessage(data: string)
      requires Valid() && socketOpen
      modifies this`log, this`nextId, this`inCount, this`outCount
      ensures Valid()
      ensures Book() == Append(old(Book()), [Frame(SocketFrameKind(data), data, false)])
    {
      AddMessage(Frame(SocketFrameKind(data), data, false));
    }

    /** The socket closed: DISCONNECTED, logged, and the heartbeat stopped. */
    method SocketClose()
      requires Valid() && hasSocket
      modifies this`status, this`socketOpen, this`log, this`nextId, this`inCount, this`outCount, this`heartbeatTimers
      ensures Valid()
      ensures status == Disconnected && !socketOpen && heartbeatTimers == 0
      ensures Book() == Append(old(Book()), [Frame(System, "Connection Closed", false)])
    {
      status := Disconnected;
      socketOpen := false;
      AddMessage(Frame(System, "Connection Closed", false));
      StopHeartbeat();
    }

    /** The socket reported an error: ERROR and an ERROR frame; the heartbeat gate then stops the heartbeat. */
    method SocketError()
      requires Valid() && hasSocket
      modifies this`status, this`log, this`nextId, this`inCount, this`outCount, this`heartbeatTimers
      ensures Valid()
      ensures status == ConnectionState.Error && heartbeatTimers == 0
      ensures Book() == Append(old(Book()), [Frame(MessageType.Error, "Network Error", false)])
    {
      status := ConnectionState.Error;
      AddMessage(Frame(MessageType.Error, "Network Error", false));
      GateHeartbeat();
    }

    /** The listener registered with the simulated peer: one incoming frame per delivery. */
    method MockDeliver(data: string)
      requires Valid()
      modifies this`log, this`nextId, this`inCount, this`outCount
      ensures Valid()
      ensures Book() == Append(old(Book()), [MockFrame(data)])
    {
      AddMessage(MockFrame(data));
    }

    /** The peer's scheduled timeout `i` elapses; its message reaches the session if still listening. */
    method MockFire(i: nat)
      requires Valid() && mock != null && i < |mock.pending|
      modifies this`log, this`nextId, this`inCount, this`outCount, mock
      ensures Valid()
      ensures mock.listeners == old(mock.listeners) && mock.intervals == old(mock.intervals)
      ensures mock.pending == old(mock.pending[..i] + mock.pending[i + 1..])
      ensures Book() == Append(old(Book()), if mock.listeners == [] then []
                     else [MockFrame(Encode(old(mock.pending[i]).message))])
    {
      var out := mock.Fire(i);
      if out != [] {
        MockDeliver(out[0].data);
      }
    }

    /** One tick of the peer's periodic timer, with its two random draws. */
    method MockTick(draw: real, nodeDraw: real)
      requires Valid() && mock != null && mock.intervals > 0
      requires 0.0 <= draw < 1.0 && 0.0 <= nodeDraw < 1.0
      modifies this`log, this`nextId, this`inCount, this`outCount
      ensures Valid()
      ensures Book() == Append(old(Book()), if draw > 0.7 && mock.listeners != [] then [MockFrame(Encode(Alert(NodeOf(nodeDraw))))] else [])
    {
      var out := mock.Tick(draw, nodeDraw);
      if out != [] {
        MockDeliver(out[0].data);
      }
    }

    /**
     * `disconnect`: the socket closed and the peer's listeners dropped, but
     * both references kept; DISCONNECTED, heartbeat stopped, nothing logged.
     */
    method Disconnect()
      requires Valid()
      modifies this`socketOpen, this`status, this`heartbeatTimers, mock
      ensures Valid()
      ensures status == Disconnected && heartbeatTimers == 0 && !socketOpen
      ensures mock != null ==> mock.listeners == [] && !mock.tracked && mock.pending == old(mock.pending)
    {
      CloseTransports();
      status := Disconnected;
      StopHeartbeat();
    }

    /**
     * `handleSendMessage`: to the open socket, else to the peer if one is
     * referenced, then logged outgoing; with neither, nothing is sent and
     * only a CONNECTED session logs the failure.
     */
    method Send(kind: MessageType, content: string)
      requires Valid()
      modifies this`socketSent, this`log, this`nextId, this`inCount, this`outCount, mock
      ensures Valid()
      ensures socketSent == old(socketSent) + if socketOpen then [Raw(content)] else []
      ensures mock != null ==> mock.listeners == old(mock.listeners) && mock.intervals == old(mock.intervals)
      ensures mock != null ==> mock.pending == old(mock.pending) + if socketOpen then [] else Scheduled(content)
      ensures Book() == Append(old(Book()), if socketOpen || mock != null then [Frame(kind, content, true)]
                     else if status == Connected then [Frame(MessageType.Error, SendFailed, false)]
                     else [])
    {
      if socketOpen {
        socketSent := socketSent + [Raw(content)];
      } else if mock != null {
        mock.Send(content);
      } else {
        if status == Connected {
          AddMessage(Frame(MessageType.Error, SendFailed, false));
        }
        return;
      }
      AddMessage(Frame(kind, content, true));
    }

    /**
     * One tick of the heartbeat interval. The interval runs only while the
     * session is CONNECTED, so the tick always sends the configured message
     * verbatim (socket first, else peer) and logs one outgoing PING frame,
     * even when neither transport is there to carry it.
     */
    method HeartbeatTick()
      requires Valid() && heartbeatTimers > 0
      modifies this`socketSent, this`log, this`nextId, this`inCount, this`outCount, mock
      ensures Valid()
      ensures old(status) == Connected
      ensures socketSent == old(socketSent) + if socketOpen then [Raw(config.heartbeatMessage)] else []
      ensures mock != null ==> mock.listeners == old(mock.listeners) && mock.intervals == old(mock.intervals)
      ensures mock != null ==>
                mock.pending == old(mock.pending) + if socketOpen then [] else Scheduled(config.heartbeatMessage)
      ensures Book() == Append(old(Book()), [Frame(HeartbeatPing, config.heartbeatMessage, true)])
    {
      if status == Connected {
        var ping := config.heartbeatMessage;
        if socketOpen {
          socketSent := socketSent + [Raw(ping)];
        } else if mock != null {
          mock.Send(ping);
        }
        AddMessage(Frame(HeartbeatPing, ping, true));
      }
    }

    /**
     * One tick of the one-second metrics interval: a point carrying the
     * counts since the last tick and a latency of `5 + latencyDraw` joins the
     * window, and both counts restart from zero.
     */
    method MetricsTick(time: string, latencyDraw: nat)
      requires Valid() && WindowBounded() && latencyDraw < 10
      modifies this`metrics, this`inCount, this`outCount
      ensures Valid() && WindowBounded()
      ensures metrics == Slide(old(metrics), MetricPoint(time, old(inCount), old(outCount), latencyDraw + 5))
      ensures inCount == 0 && outCount == 0
    {
      var point := MetricPoint(time, inCount, outCount, latencyDraw + 5);
      var window := Slide(metrics, point);
      assert |window| <= MetricsWindow;
      metrics := window;
      inCount, outCount := 0, 0;
    }

    /** The log's clear button: the log emptied; counters and ids untouched. */
    method ClearLogs()
      requires Valid()
      modifies this`log
      ensures Valid() && log == []
    {
      log := [];
    }
  }
}
