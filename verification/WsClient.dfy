/**
 The browser's WebSocket client. It keeps the channels, threads and DMs the user wants, opens a
 socket when it needs one, repeats its subscriptions on every new socket, and reconnects with a
 growing delay. The class has the program's fields and methods; each is proved against a function
 on values, and the theorems are about runs of those functions.
 */
module WsClient {
  import opened Wrappers

  datatype Ready = Connecting | Open | Closing | Closed

  datatype Kind = Channel | Thread | DM

  datatype Topic = Topic(kind: Kind, id: string)

  datatype Command = Command(on: bool, topic: Topic)

  /** A browser socket: its readyState, whether the client's callbacks are on it, and what was sent. */
  datatype Socket = Socket(ready: Ready, attached: bool, sent: seq<Command>)

  datatype Mode = Disconnected | Trying | Connected

  const INITIAL_RECONNECT_DELAY := 1000
  const MAX_RECONNECT_DELAY := 30000
  const BACKOFF_MULTIPLIER := 2

  /** All sockets ever made, and the fields; the subscription sets keep the order of insertion. */
  datatype Client = Client(
    sockets: seq<Socket>,
    ws: Option<nat>,
    mode: Mode,
    channels: seq<string>,
    threads: seq<string>,
    dms: seq<string>,
    delay: int,
    timer: Option<int>,
    watchdog: bool,
    intentionalClose: bool,
    hasConnectedBefore: bool,
    attempts: nat)

  const FRESH := Client([], None, Disconnected, [], [], [], INITIAL_RECONNECT_DELAY, None, false, false, false, 0)

  // ---- The methods as functions ----

  function Included(ids: seq<string>, id: string): seq<string> {
    if id in ids then ids else ids + [id]
  }

  function Without(ids: seq<string>, id: string): seq<string> {
    if ids == [] then [] else (if ids[0] == id then [] else [ids[0]]) + Without(ids[1..], id)
  }

  function Wanted(c: Client, kind: Kind): seq<string> {
    match kind
    case Channel => c.channels
    case Thread => c.threads
    case DM => c.dms
  }

  function SetWanted(c: Client, kind: Kind, ids: seq<string>): Client {
    match kind
    case Channel => c.(channels := ids)
    case Thread => c.(threads := ids)
    case DM => c.(dms := ids)
  }

  predicate Has(c: Client, ready: Ready) {
    c.ws.Some? && c.ws.value < |c.sockets| && c.sockets[c.ws.value].ready == ready
  }

  function Send(c: Client, commands: seq<Command>): Client {
    if Has(c, Open) then
      var k := c.ws.value;
      c.(sockets := c.sockets[k := c.sockets[k].(sent := c.sockets[k].sent + commands)])
    else c
  }

  /** What close() does to a socket whose callbacks were just removed. */
  function Detached(s: Socket): Socket {
    s.(attached := false, ready := if s.ready.Connecting? || s.ready.Open? then Closing else s.ready)
  }

  function Cleanup(c: Client): Client {
    c.(watchdog := false, ws := None,
       sockets := if c.ws.Some? && c.ws.value < |c.sockets| then c.sockets[c.ws.value := Detached(c.sockets[c.ws.value])] else c.sockets)
  }

  function Connect(c: Client, token: bool): Client {
    if Has(c, Open) || Has(c, Connecting) || !token then c
    else
      var d := Cleanup(c.(intentionalClose := false, timer := None));
      d.(mode := Trying, sockets := d.sockets + [Socket(Connecting, true, [])], ws := Some(|d.sockets|))
  }

  function Disconnect(c: Client): Client {
    Cleanup(c.(intentionalClose := true, timer := None)).(mode := Disconnected)
  }

  function ForceReconnect(c: Client, token: bool): Client {
    Connect(Cleanup(c.(intentionalClose := false, timer := None)).(mode := Disconnected), token)
  }

  function Subscribe(c: Client, topic: Topic, token: bool): Client {
    var d := SetWanted(c, topic.kind, Included(Wanted(c, topic.kind), topic.id));
    if Has(d, Open) then Send(d, [Command(true, topic)]) else Connect(d, token)
  }

  function Unsubscribe(c: Client, topic: Topic): Client {
    Send(SetWanted(c, topic.kind, Without(Wanted(c, topic.kind), topic.id)), [Command(false, topic)])
  }

  function Subscriptions(kind: Kind, ids: seq<string>): seq<Command> {
    seq(|ids|, i requires 0 <= i < |ids| => Command(true, Topic(kind, ids[i])))
  }

  function SendAll(c: Client): Client {
    Send(Send(Send(c, Subscriptions(Channel, c.channels)), Subscriptions(Thread, c.threads)), Subscriptions(DM, c.dms))
  }

  function OnOpen(c: Client): Client {
    SendAll(c.(hasConnectedBefore := true, attempts := 0, mode := Connected, delay := INITIAL_RECONNECT_DELAY, watchdog := true))
  }

  function ScheduleReconnect(c: Client): Client {
    if c.timer.Some? then c
    else
      var next := c.delay * BACKOFF_MULTIPLIER;
      c.(timer := Some(c.delay), delay := if next < MAX_RECONNECT_DELAY then next else MAX_RECONNECT_DELAY)
  }

  function OnClose(c: Client): Client {
    var d := c.(watchdog := false, mode := Disconnected, ws := None);
    if !d.intentionalClose then ScheduleReconnect(d.(attempts := d.attempts + 1)) else d.(hasConnectedBefore := false, attempts := 0)
  }

  /** The sockets afterwards: the current one without its callbacks and closing, the others as they were. */
  predicate LeftBehind(before: seq<Socket>, ws: Option<nat>, after: seq<Socket>) {
    && |before| <= |after|
    && forall k | 0 <= k < |before| ::
         if ws == Some(k) then
           && !after[k].attached && after[k].sent == before[k].sent
           && after[k].ready == if before[k].ready == Closed then Closed else Closing
         else after[k] == before[k]
  }

  /** A socket whose callbacks are not yet called, and nothing sent. */
  predicate Opening(s: Socket) {
    s.ready == Connecting && s.attached && s.sent == []
  }

  /** The program's object, and the browser's sockets beside it. */
  class WSClient {
    var sockets: seq<Socket>
    var ws: Option<nat>
    var state: Mode
    var subscribedChannels: seq<string>
    var subscribedThreads: seq<string>
    var subscribedDMs: seq<string>
    var reconnectDelay: int
    var reconnectTimer: Option<int>
    var watchdogTimer: bool
    var intentionalClose: bool
    var hasConnectedBefore: bool
    var reconnectAttemptCount: nat

    constructor ()
      ensures Now() == FRESH
    {
      sockets, ws, state, subscribedChannels, subscribedThreads, subscribedDMs := [], None, Disconnected, [], [], [];
      reconnectDelay, reconnectTimer, watchdogTimer := INITIAL_RECONNECT_DELAY, None, false;
      intentionalClose, hasConnectedBefore, reconnectAttemptCount := false, false, 0;
    }

    function Now(): Client
      reads this
    {
      Client(sockets, ws, state, subscribedChannels, subscribedThreads, subscribedDMs, reconnectDelay, reconnectTimer,
             watchdogTimer, intentionalClose, hasConnectedBefore, reconnectAttemptCount)
    }

    method CleanupSocket()
      modifies this`watchdogTimer, this`sockets, this`ws
      ensures Now() == Cleanup(old(Now()))
      ensures !watchdogTimer && ws == None && |sockets| == |old(sockets)| && LeftBehind(old(sockets), old(ws), sockets)
    {
      watchdogTimer := false;
      if ws.Some? {
        if ws.value < |sockets| {
          sockets := sockets[ws.value := Detached(sockets[ws.value])];
        }
        ws := None;
      }
    }

    method ConnectSocket(token: bool)
      modifies this
      ensures Now() == Connect(old(Now()), token)
      ensures old(Has(Now(), Open)) || old(Has(Now(), Connecting)) || !token ==> unchanged(this)
      ensures !old(Has(Now(), Open)) && !old(Has(Now(), Connecting)) && token ==>
                && ws == Some(|old(sockets)|) && |sockets| == |old(sockets)| + 1 && Opening(sockets[|old(sockets)|])
                && LeftBehind(old(sockets), old(ws), sockets)
                && state == Trying && reconnectTimer == None && !watchdogTimer && !intentionalClose
      ensures unchanged(`subscribedChannels) && unchanged(`subscribedThreads) && unchanged(`subscribedDMs)
      ensures unchanged(`reconnectDelay) && unchanged(`hasConnectedBefore) && unchanged(`reconnectAttemptCount)
    {
      if Has(Now(), Open) || Has(Now(), Connecting) {
        return;
      }
      if !token {
        return;
      }
      intentionalClose := false;
      reconnectTimer := None;
      CleanupSocket();
      state := Trying;
      sockets := sockets + [Socket(Connecting, true, [])];
      ws := Some(|sockets| - 1);
    }

    method DisconnectSocket()
      modifies this
      ensures Now() == Disconnect(old(Now()))
      ensures ws == None && reconnectTimer == None && !watchdogTimer && intentionalClose && state == Disconnected
      ensures |sockets| == |old(sockets)| && LeftBehind(old(sockets), old(ws), sockets)
      ensures unchanged(`subscribedChannels) && unchanged(`subscribedThreads) && unchanged(`subscribedDMs)
      ensures unchanged(`reconnectDelay) && unchanged(`hasConnectedBefore) && unchanged(`reconnectAttemptCount)
    {
      intentionalClose := true;
      reconnectTimer := None;
      CleanupSocket();
      state := Disconnected;
    }

    method Reconnect(token: bool)
      modifies this
      ensures Now() == ForceReconnect(old(Now()), token)
      ensures reconnectTimer == None && !watchdogTimer && !intentionalClose && LeftBehind(old(sockets), old(ws), sockets)
      ensures !token ==> ws == None && state == Disconnected && |sockets| == |old(sockets)|
      ensures token ==> ws == Some(|old(sockets)|) && state == Trying && |sockets| == |old(sockets)| + 1 && Opening(sockets[|old(sockets)|])
      ensures unchanged(`subscribedChannels) && unchanged(`subscribedThreads) && unchanged(`subscribedDMs)
      ensures unchanged(`reconnectDelay) && unchanged(`hasConnectedBefore) && unchanged(`reconnectAttemptCount)
    {
      intentionalClose := false;
      reconnectTimer := None;
      CleanupSocket();
      state := Disconnected;
      ConnectSocket(token);
    }

    method SendCommand(command: Command)
      modifies this`sockets
      ensures Now() == Send(old(Now()), [command])
      ensures if old(Has(Now(), Open)) then
                sockets == old(sockets)[old(ws.value) := old(sockets[ws.value]).(sent := old(sockets[ws.value]).sent + [command])]
              else sockets == old(sockets)
    {
      if Has(Now(), Open) {
        sockets := sockets[ws.value := sockets[ws.value].(sent := sockets[ws.value].sent + [command])];
      }
    }

    method SubscribeChannel(id: string, token: bool)
      modifies this
      ensures Now() == Subscribe(old(Now()), Topic(Channel, id), token)
      ensures forall x :: x in subscribedChannels <==> x in old(subscribedChannels) || x == id
      ensures old(Has(Now(), Open)) ==> ws == old(ws) && sockets[ws.value].sent == old(sockets[ws.value]).sent + [Command(true, Topic(Channel, id))]
      ensures !old(Has(Now(), Open)) && !old(Has(Now(), Connecting)) && token ==> ws == Some(|old(sockets)|) && Has(Now(), Connecting)
    {
      if id !in subscribedChannels {
        subscribedChannels := subscribedChannels + [id];
      }
      if Has(Now(), Open) {
        SendCommand(Command(true, Topic(Channel, id)));
      } else {
        ConnectSocket(token);
      }
    }

    method SubscribeThread(id: string, token: bool)
      modifies this
      ensures Now() == Subscribe(old(Now()), Topic(Thread, id), token)
      ensures forall x :: x in subscribedThreads <==> x in old(subscribedThreads) || x == id
      ensures old(Has(Now(), Open)) ==> ws == old(ws) && sockets[ws.value].sent == old(sockets[ws.value]).sent + [Command(true, Topic(Thread, id))]
      ensures !old(Has(Now(), Open)) && !old(Has(Now(), Connecting)) && token ==> ws == Some(|old(sockets)|) && Has(Now(), Connecting)
    {
      if id !in subscribedThreads {
        subscribedThreads := subscribedThreads + [id];
      }
      if Has(Now(), Open) {
        SendCommand(Command(true, Topic(Thread, id)));
      } else {
        ConnectSocket(token);
      }
    }

    method SubscribeDM(id: string, token: bool)
      modifies this
      ensures Now() == Subscribe(old(Now()), Topic(DM, id), token)
      ensures forall x :: x in subscribedDMs <==> x in old(subscribedDMs) || x == id
      ensures old(Has(Now(), Open)) ==> ws == old(ws) && sockets[ws.value].sent == old(sockets[ws.value]).sent + [Command(true, Topic(DM, id))]
      ensures !old(Has(Now(), Open)) && !old(Has(Now(), Connecting)) && token ==> ws == Some(|old(sockets)|) && Has(Now(), Connecting)
    {
      if id !in subscribedDMs {
        subscribedDMs := subscribedDMs + [id];
      }
      if Has(Now(), Open) {
        SendCommand(Command(true, Topic(DM, id)));
      } else {
        ConnectSocket(token);
      }
    }

    method UnsubscribeChannel(id: string)
      modifies this
      ensures Now() == Unsubscribe(old(Now()), Topic(Channel, id))
      ensures forall x :: x in subscribedChannels <==> x in old(subscribedChannels) && x != id
      ensures ws == old(ws)
      ensures old(Has(Now(), Open)) ==> sockets[ws.value].sent == old(sockets[ws.value]).sent + [Command(false, Topic(Channel, id))]
    {
      WithoutRemovesAll(subscribedChannels, id);
      subscribedChannels := Without(subscribedChannels, id);
      SendCommand(Command(false, Topic(Channel, id)));
    }

    method UnsubscribeThread(id: string)
      modifies this
      ensures Now() == Unsubscribe(old(Now()), Topic(Thread, id))
      ensures forall x :: x in subscribedThreads <==> x in old(subscribedThreads) && x != id
      ensures ws == old(ws)
      ensures old(Has(Now(), Open)) ==> sockets[ws.value].sent == old(sockets[ws.value]).sent + [Command(false, Topic(Thread, id))]
    {
      WithoutRemovesAll(subscribedThreads, id);
      subscribedThreads := Without(subscribedThreads, id);
      SendCommand(Command(false, Topic(Thread, id)));
    }

    method UnsubscribeDM(id: string)
      modifies this
      ensures Now() == Unsubscribe(old(Now()), Topic(DM, id))
      ensures forall x :: x in subscribedDMs <==> x in old(subscribedDMs) && x != id
      ensures ws == old(ws)
      ensures old(Has(Now(), Open)) ==> sockets[ws.value].sent == old(sockets[ws.value]).sent + [Command(false, Topic(DM, id))]
    {
      WithoutRemovesAll(subscribedDMs, id);
      subscribedDMs := Without(subscribedDMs, id);
      SendCommand(Command(false, Topic(DM, id)));
    }

    method SubscribeAgain(kind: Kind, ids: seq<string>)
      modifies this`sockets
      ensures Now() == Send(old(Now()), Subscriptions(kind, ids))
    {
      ghost var was := Now();
      NothingSent(was, Subscriptions(kind, []));
      for i := 0 to |ids|
        invariant Now() == Send(was, Subscriptions(kind, ids[..i]))
      {
        SendCommand(Command(true, Topic(kind, ids[i])));
        assert Subscriptions(kind, ids[..i + 1]) == Subscriptions(kind, ids[..i]) + [Command(true, Topic(kind, ids[i]))];
        SendTwice(was, Subscriptions(kind, ids[..i]), [Command(true, Topic(kind, ids[i]))]);
      }
      assert ids[..|ids|] == ids;
    }

    method HandleOpen()
      modifies this
      ensures Now() == OnOpen(old(Now()))
      ensures hasConnectedBefore && reconnectAttemptCount == 0 && state == Connected && reconnectDelay == 1000 && watchdogTimer
      ensures ws == old(ws) && reconnectTimer == old(reconnectTimer) && intentionalClose == old(intentionalClose)
      ensures subscribedChannels == old(subscribedChannels) && subscribedThreads == old(subscribedThreads) && subscribedDMs == old(subscribedDMs)
    {
      hasConnectedBefore := true;
      reconnectAttemptCount := 0;
      state := Connected;
      reconnectDelay := INITIAL_RECONNECT_DELAY;
      watchdogTimer := true;
      ghost var open := Now();
      assert SendAll(open) == OnOpen(old(Now()));
      SubscribeToAll();
    }

    method SubscribeToAll()
      modifies this`sockets
      ensures Now() == SendAll(old(Now()))
    {
      SubscribeAgain(Channel, subscribedChannels);
      SubscribeAgain(Thread, subscribedThreads);
      SubscribeAgain(DM, subscribedDMs);
    }

    method Schedule()
      modifies this`reconnectTimer, this`reconnectDelay
      ensures Now() == ScheduleReconnect(old(Now()))
      ensures if old(reconnectTimer).Some? then unchanged(this)
              else reconnectTimer == Some(old(reconnectDelay))
                   && reconnectDelay == if 2 * old(reconnectDelay) < 30000 then 2 * old(reconnectDelay) else 30000
    {
      if reconnectTimer != None {
        return;
      }
      reconnectTimer := Some(reconnectDelay);
      reconnectDelay := reconnectDelay * BACKOFF_MULTIPLIER;
      if reconnectDelay > MAX_RECONNECT_DELAY {
        reconnectDelay := MAX_RECONNECT_DELAY;
      }
    }

    method HandleClose()
      modifies this
      ensures Now() == OnClose(old(Now()))
      ensures !watchdogTimer && state == Disconnected && ws == None && sockets == old(sockets) && intentionalClose == old(intentionalClose)
      ensures !intentionalClose ==>
                && reconnectAttemptCount == old(reconnectAttemptCount) + 1 && hasConnectedBefore == old(hasConnectedBefore)
                && reconnectTimer == if old(reconnectTimer).Some? then old(reconnectTimer) else Some(old(reconnectDelay))
      ensures intentionalClose ==> reconnectAttemptCount == 0 && !hasConnectedBefore && reconnectTimer == old(reconnectTimer)
      ensures subscribedChannels == old(subscribedChannels) && subscribedThreads == old(subscribedThreads) && subscribedDMs == old(subscribedDMs)
    {
      watchdogTimer := false;
      state := Disconnected;
      ws := None;
      if !intentionalClose {
        reconnectAttemptCount := reconnectAttemptCount + 1;
        Schedule();
      } else {
        hasConnectedBefore := false;
        reconnectAttemptCount := 0;
      }
    }
  }

  lemma NothingSent(c: Client, none: seq<Command>)
    requires none == []
    ensures Send(c, none) == c
  {
    if Has(c, Open) {
      assert c.sockets[c.ws.value].sent + none == c.sockets[c.ws.value].sent;
      assert c.sockets[c.ws.value := c.sockets[c.ws.value]] == c.sockets;
    }
  }

  lemma SendTwice(c: Client, first: seq<Command>, rest: seq<Command>)
    ensures Send(Send(c, first), rest) == Send(c, first + rest)
  {
    if Has(c, Open) {
      var k := c.ws.value;
      assert c.sockets[k].sent + (first + rest) == (c.sockets[k].sent + first) + rest;
      assert Send(Send(c, first), rest).sockets == Send(c, first + rest).sockets;
    }
  }

  // ---- Runs ----

  /** What the page, the timers and the browser do; token tells whether getToken has one at that moment. */
  datatype Action =
    | CallConnect(token: bool)
    | CallDisconnect
    | CallForceReconnect(token: bool)
    | CallSubscribe(topic: Topic, token: bool)
    | CallUnsubscribe(topic: Topic)
    | TimerFires(token: bool)
    | WatchdogFires(token: bool)
    | SocketOpens(k: nat)
    | SocketCloseStarts(k: nat)
    | SocketCloses(k: nat)
    | SocketMessage(k: nat)

  function SetReady(c: Client, k: nat, ready: Ready): Client
    requires k < |c.sockets|
  {
    c.(sockets := c.sockets[k := c.sockets[k].(ready := ready)])
  }

  function Do(c: Client, a: Action): Client {
    match a
    case CallConnect(token) => Connect(c, token)
    case CallDisconnect => Disconnect(c)
    case CallForceReconnect(token) => ForceReconnect(c, token)
    case CallSubscribe(topic, token) => Subscribe(c, topic, token)
    case CallUnsubscribe(topic) => Unsubscribe(c, topic)
    case TimerFires(token) => if c.timer.Some? then Connect(c.(timer := None), token) else c
    case WatchdogFires(token) => if c.watchdog then ForceReconnect(c.(watchdog := false), token) else c
    case SocketOpens(k) =>
      if k < |c.sockets| && c.sockets[k].ready.Connecting? then
        var d := SetReady(c, k, Open);
        if c.sockets[k].attached then OnOpen(d) else d
      else c
    case SocketCloseStarts(k) =>
      if k < |c.sockets| && (c.sockets[k].ready.Connecting? || c.sockets[k].ready.Open?) then SetReady(c, k, Closing) else c
    case SocketCloses(k) =>
      if k < |c.sockets| && !c.sockets[k].ready.Closed? then
        var d := SetReady(c, k, Closed);
        if c.sockets[k].attached then OnClose(d) else d
      else c
    case SocketMessage(k) =>
      if k < |c.sockets| && c.sockets[k].ready.Open? && c.sockets[k].attached then c.(watchdog := true) else c
  }

  function Run(c: Client, actions: seq<Action>): Client
    decreases |actions|
  {
    if actions == [] then c else Run(Do(c, actions[0]), actions[1..])
  }

  // ---- What the server knows ----

  /** The server's subscriptions of a socket after the commands it received. */
  function Replay(sent: seq<Command>): set<Topic> {
    if sent == [] then {}
    else
      var last, before := sent[|sent| - 1], Replay(sent[..|sent| - 1]);
      if last.on then before + {last.topic} else before - {last.topic}
  }

  predicate Wants(c: Client, topic: Topic) {
    topic.id in Wanted(c, topic.kind)
  }

  lemma ReplayOne(sent: seq<Command>, command: Command)
    ensures Replay(sent + [command]) == if command.on then Replay(sent) + {command.topic} else Replay(sent) - {command.topic}
  {
    assert (sent + [command])[..|sent|] == sent;
  }

  lemma {:induction false} ReplaySubscriptions(sent: seq<Command>, kind: Kind, ids: seq<string>, topic: Topic)
    ensures topic in Replay(sent + Subscriptions(kind, ids)) <==> topic in Replay(sent) || (topic.kind == kind && topic.id in ids)
  {
    if ids == [] {
      assert sent + Subscriptions(kind, ids) == sent;
    } else {
      var n := |ids| - 1;
      var last := Command(true, Topic(kind, ids[n]));
      ReplaySubscriptions(sent, kind, ids[..n], topic);
      assert sent + Subscriptions(kind, ids) == (sent + Subscriptions(kind, ids[..n])) + [last];
      ReplayOne(sent + Subscriptions(kind, ids[..n]), last);
      assert ids == ids[..n] + [ids[n]];
    }
  }

  lemma {:induction false} WithoutRemoves(ids: seq<string>, id: string, other: string)
    ensures other in Without(ids, id) <==> other in ids && other != id
  {
    if ids != [] {
      WithoutRemoves(ids[1..], id, other);
    }
  }

  lemma WithoutRemovesAll(ids: seq<string>, id: string)
    ensures forall other :: other in Without(ids, id) <==> other in ids && other != id
  {
    forall other
      ensures other in Without(ids, id) <==> other in ids && other != id
    {
      WithoutRemoves(ids, id, other);
    }
  }

  lemma WantsMore(c: Client, topic: Topic, other: Topic)
    ensures Wants(SetWanted(c, topic.kind, Included(Wanted(c, topic.kind), topic.id)), other) <==> Wants(c, other) || other == topic
  {
    WantedAfter(c, topic.kind, Included(Wanted(c, topic.kind), topic.id), other.kind);
  }

  lemma WantsLess(c: Client, topic: Topic, other: Topic)
    ensures Wants(SetWanted(c, topic.kind, Without(Wanted(c, topic.kind), topic.id)), other) <==> Wants(c, other) && other != topic
  {
    WantedAfter(c, topic.kind, Without(Wanted(c, topic.kind), topic.id), other.kind);
    WithoutRemoves(Wanted(c, topic.kind), topic.id, other.id);
  }

  lemma WantedAfter(c: Client, kind: Kind, ids: seq<string>, other: Kind)
    ensures Wanted(SetWanted(c, kind, ids), other) == if other == kind then ids else Wanted(c, other)
  {
  }

  // ---- The delay ----

  function Doubled(k: nat): int {
    if k == 0 then INITIAL_RECONNECT_DELAY else BACKOFF_MULTIPLIER * Doubled(k - 1)
  }

  /** min(1000 * 2^k, 30000) */
  function Backoff(k: nat): int {
    if Doubled(k) < MAX_RECONNECT_DELAY then Doubled(k) else MAX_RECONNECT_DELAY
  }

  // ---- The invariant ----

  predicate SocketsOk(c: Client) {
    && (c.ws.Some? ==> c.ws.value < |c.sockets| && c.sockets[c.ws.value].attached && !c.sockets[c.ws.value].ready.Closed?)
    && (forall k | 0 <= k < |c.sockets| && c.sockets[k].attached && !c.sockets[k].ready.Closed? :: c.ws == Some(k))
    && (forall k | 0 <= k < |c.sockets| && c.sockets[k].ready.Connecting? :: c.sockets[k].sent == [])
  }

  /** While the current socket is open, the server has exactly the subscriptions that the client wants. */
  ghost predicate Mirrors(c: Client) {
    Has(c, Open) ==> forall topic :: topic in Replay(c.sockets[c.ws.value].sent) <==> Wants(c, topic)
  }

  predicate TimersOk(c: Client) {
    && (c.timer.Some? ==> c.ws.None? && !c.intentionalClose && c.attempts > 0 && c.timer.value == Backoff(c.attempts - 1))
    && (c.intentionalClose ==> c.ws.None? && !c.watchdog)
    && (c.watchdog ==> Has(c, Open) || Has(c, Closing))
    && c.delay == Backoff(c.attempts)
  }

  predicate ModeOk(c: Client) {
    && (c.mode.Disconnected? <==> c.ws.None?)
    && (c.mode.Trying? ==> Has(c, Connecting) || Has(c, Closing))
    && (c.mode.Connected? ==> Has(c, Open) || Has(c, Closing))
  }

  ghost predicate Safe(c: Client) {
    SocketsOk(c) && Mirrors(c) && TimersOk(c) && ModeOk(c)
  }

  lemma CleanupIsSafe(c: Client)
    requires SocketsOk(c)
    ensures SocketsOk(Cleanup(c)) && Cleanup(c).ws.None?
  {
  }

  lemma SendIsSafe(c: Client, commands: seq<Command>)
    requires SocketsOk(c)
    ensures SocketsOk(Send(c, commands))
  {
  }

  lemma ConnectIsSafe(c: Client, token: bool)
    requires SocketsOk(c) && c.delay == Backoff(c.attempts)
    requires Has(c, Open) || Has(c, Connecting) || !token ==> Safe(c)
    ensures Safe(Connect(c, token))
  {
    CleanupIsSafe(c.(intentionalClose := false, timer := None));
  }

  lemma DoublingGrows(k: nat)
    ensures Backoff(k + 1) == if Backoff(k) * BACKOFF_MULTIPLIER < MAX_RECONNECT_DELAY then Backoff(k) * BACKOFF_MULTIPLIER else MAX_RECONNECT_DELAY
  {
  }

  lemma ConnectedIsSafe(c: Client, token: bool)
    requires Safe(c)
    ensures Safe(Connect(c, token)) && Safe(Disconnect(c)) && Safe(ForceReconnect(c, token))
  {
    ConnectIsSafe(c, token);
    var d := Cleanup(c.(intentionalClose := false, timer := None)).(mode := Disconnected);
    CleanupIsSafe(c.(intentionalClose := false, timer := None));
    CleanupIsSafe(c.(intentionalClose := true, timer := None));
    ConnectIsSafe(d, token);
  }

  lemma TimersAreSafe(c: Client, token: bool)
    requires Safe(c)
    ensures Safe(Do(c, TimerFires(token))) && Safe(Do(c, WatchdogFires(token)))
  {
    if c.timer.Some? {
      ConnectIsSafe(c.(timer := None), token);
    }
    if c.watchdog {
      ConnectedIsSafe(c.(watchdog := false), token);
    }
  }

  /** Changing what is wanted and telling an open socket about it. */
  lemma TellIsSafe(c: Client, d: Client, command: Command)
    requires Safe(c) && Has(c, Open) && d == c.(channels := d.channels, threads := d.threads, dms := d.dms)
    requires forall other :: Wants(d, other) <==> if other == command.topic then command.on else Wants(c, other)
    ensures Safe(Send(d, [command]))
  {
    var sent := c.sockets[c.ws.value].sent;
    ReplayOne(sent, command);
    SendIsSafe(d, [command]);
    var e := Send(d, [command]);
    assert e.sockets[e.ws.value].sent == sent + [command];
    assert forall other :: Wants(e, other) <==> Wants(d, other);
  }

  /** Without an open socket what is wanted can change freely. */
  lemma WantingIsSafe(c: Client, d: Client)
    requires Safe(c) && !Has(c, Open) && d == c.(channels := d.channels, threads := d.threads, dms := d.dms)
    ensures Safe(d)
  {
  }

  /** The command is sent to an open socket; without one nothing is sent. */
  lemma ChangeIsSafe(c: Client, d: Client, command: Command)
    requires Safe(c) && d == c.(channels := d.channels, threads := d.threads, dms := d.dms)
    requires forall other :: Wants(d, other) <==> if other == command.topic then command.on else Wants(c, other)
    ensures Safe(Send(d, [command]))
  {
    if Has(c, Open) {
      TellIsSafe(c, d, command);
    } else {
      WantingIsSafe(c, d);
    }
  }

  lemma SubscribeWants(c: Client, topic: Topic)
    ensures forall other ::
              Wants(SetWanted(c, topic.kind, Included(Wanted(c, topic.kind), topic.id)), other) <==> Wants(c, other) || other == topic
  {
    forall other
      ensures Wants(SetWanted(c, topic.kind, Included(Wanted(c, topic.kind), topic.id)), other) <==> Wants(c, other) || other == topic
    {
      WantsMore(c, topic, other);
    }
  }

  lemma UnsubscribeWants(c: Client, topic: Topic)
    ensures forall other ::
              Wants(SetWanted(c, topic.kind, Without(Wanted(c, topic.kind), topic.id)), other) <==> Wants(c, other) && other != topic
  {
    forall other
      ensures Wants(SetWanted(c, topic.kind, Without(Wanted(c, topic.kind), topic.id)), other) <==> Wants(c, other) && other != topic
    {
      WantsLess(c, topic, other);
    }
  }

  /** A new open socket receives the subscriptions of all wanted topics. */
  lemma SendAllMirrors(c: Client)
    requires SocketsOk(c) && Has(c, Open) && c.sockets[c.ws.value].sent == []
    ensures SocketsOk(SendAll(c)) && Mirrors(SendAll(c))
  {
    var channels, threads, dms := Subscriptions(Channel, c.channels), Subscriptions(Thread, c.threads), Subscriptions(DM, c.dms);
    SendIsSafe(c, channels);
    SendIsSafe(Send(c, channels), threads);
    SendIsSafe(Send(Send(c, channels), threads), dms);
    forall topic
      ensures topic in Replay([] + channels + threads + dms) <==> Wants(c, topic)
    {
      ReplaySubscriptions([], Channel, c.channels, topic);
      ReplaySubscriptions([] + channels, Thread, c.threads, topic);
      ReplaySubscriptions([] + channels + threads, DM, c.dms, topic);
    }
  }

  lemma OpenIsSafe(c: Client, k: nat)
    requires Safe(c)
    ensures Safe(Do(c, SocketOpens(k)))
  {
    if k < |c.sockets| && c.sockets[k].ready.Connecting? && c.sockets[k].attached {
      var d := SetReady(c, k, Open).(hasConnectedBefore := true, attempts := 0, mode := Connected,
                                     delay := INITIAL_RECONNECT_DELAY, watchdog := true);
      SendAllMirrors(d);
    }
  }

  lemma CloseIsSafe(c: Client, k: nat)
    requires Safe(c)
    ensures Safe(Do(c, SocketCloses(k)))
  {
    if k < |c.sockets| && !c.sockets[k].ready.Closed? {
      if c.sockets[k].attached {
        CurrentCloses(c, SetReady(c, k, Closed), k);
      } else {
        StaleChanges(c, SetReady(c, k, Closed), k);
      }
    }
  }

  /** The callback runs: the socket was the current one, so no timer is set yet. */
  lemma CurrentCloses(c: Client, d: Client, k: nat)
    requires Safe(c) && k < |c.sockets| && c.sockets[k].attached && !c.sockets[k].ready.Closed?
    requires d == SetReady(c, k, Closed)
    ensures Safe(OnClose(d))
  {
    DoublingGrows(c.attempts);
    assert c.ws == Some(k);
  }

  lemma StaleChanges(c: Client, d: Client, k: nat)
    requires Safe(c) && k < |c.sockets| && !c.sockets[k].attached
    requires |d.sockets| == |c.sockets| && d == c.(sockets := c.sockets[k := d.sockets[k]])
    requires !d.sockets[k].attached && !d.sockets[k].ready.Connecting?
    ensures Safe(d)
  {
  }

  lemma CloseStartIsSafe(c: Client, k: nat)
    requires Safe(c)
    ensures Safe(Do(c, SocketCloseStarts(k)))
  {
  }

  lemma MessageIsSafe(c: Client, k: nat)
    requires Safe(c)
    ensures Safe(Do(c, SocketMessage(k)))
  {
  }

  lemma SubscribeIsSafe(c: Client, topic: Topic, token: bool)
    requires Safe(c)
    ensures Safe(Subscribe(c, topic, token))
  {
    var d := SetWanted(c, topic.kind, Included(Wanted(c, topic.kind), topic.id));
    SubscribeWants(c, topic);
    if Has(c, Open) {
      TellIsSafe(c, d, Command(true, topic));
    } else {
      WantingIsSafe(c, d);
      ConnectIsSafe(d, token);
    }
  }

  lemma UnsubscribeIsSafe(c: Client, topic: Topic)
    requires Safe(c)
    ensures Safe(Unsubscribe(c, topic))
  {
    UnsubscribeWants(c, topic);
    ChangeIsSafe(c, SetWanted(c, topic.kind, Without(Wanted(c, topic.kind), topic.id)), Command(false, topic));
  }

  lemma DoIsSafe(c: Client, a: Action)
    requires Safe(c)
    ensures Safe(Do(c, a))
  {
    match a
    case CallConnect(token) => ConnectedIsSafe(c, token);
    case CallDisconnect => ConnectedIsSafe(c, true);
    case CallForceReconnect(token) => ConnectedIsSafe(c, token);
    case CallSubscribe(topic, token) => SubscribeIsSafe(c, topic, token);
    case CallUnsubscribe(topic) => UnsubscribeIsSafe(c, topic);
    case TimerFires(token) => TimersAreSafe(c, token);
    case WatchdogFires(token) => TimersAreSafe(c, token);
    case SocketOpens(k) => OpenIsSafe(c, k);
    case SocketCloseStarts(k) => CloseStartIsSafe(c, k);
    case SocketCloses(k) => CloseIsSafe(c, k);
    case SocketMessage(k) => MessageIsSafe(c, k);
  }

  lemma {:induction false} RunIsSafe(c: Client, actions: seq<Action>)
    requires Safe(c)
    ensures Safe(Run(c, actions))
    decreases |actions|
  {
    if actions != [] {
      DoIsSafe(c, actions[0]);
      RunIsSafe(Do(c, actions[0]), actions[1..]);
    }
  }

  // ---- The theorems ----

  /**
   In every run: while the current socket is open, replaying what was sent on it gives exactly the
   wanted channels, threads and DMs; the next delay is min(1000 * 2^k, 30000) for k reconnects
   scheduled since the last open; and a pending reconnect was given the delay before that one and
   means that there is no socket.
   */
  lemma ServerMirrorsClient(actions: seq<Action>)
    ensures var c := Run(FRESH, actions);
            && (Has(c, Open) ==> forall topic :: topic in Replay(c.sockets[c.ws.value].sent) <==> Wants(c, topic))
            && c.delay == Backoff(c.attempts)
            && (c.timer.Some? ==> c.ws.None? && c.attempts > 0 && c.timer.value == Backoff(c.attempts - 1))
            && (c.mode.Disconnected? <==> c.ws.None?)
  {
    RunIsSafe(FRESH, actions);
  }

  /** Whether the last word about a topic was to subscribe; wanted says what it was before. */
  predicate LastSaid(wanted: bool, actions: seq<Action>, topic: Topic)
    decreases |actions|
  {
    if actions == [] then wanted
    else
      LastSaid(match actions[0]
               case CallSubscribe(other, _) => wanted || other == topic
               case CallUnsubscribe(other) => wanted && other != topic
               case _ => wanted, actions[1..], topic)
  }

  predicate SameWanted(c: Client, d: Client) {
    d.channels == c.channels && d.threads == c.threads && d.dms == c.dms
  }

  lemma HandlersKeepWanted(c: Client)
    ensures SameWanted(c, OnOpen(c)) && SameWanted(c, OnClose(c))
  {
  }

  lemma ConnectsKeepWanted(c: Client, token: bool)
    ensures SameWanted(c, Connect(c, token)) && SameWanted(c, ForceReconnect(c, token)) && SameWanted(c, Disconnect(c))
  {
  }

  lemma SocketsKeepWanted(c: Client, a: Action)
    requires a.SocketOpens? || a.SocketCloseStarts? || a.SocketCloses? || a.SocketMessage?
    ensures SameWanted(c, Do(c, a))
  {
    if a.SocketOpens? && a.k < |c.sockets| {
      HandlersKeepWanted(SetReady(c, a.k, Open));
    } else if a.SocketCloses? && a.k < |c.sockets| {
      HandlersKeepWanted(SetReady(c, a.k, Closed));
    }
  }

  lemma TimersKeepWanted(c: Client, token: bool)
    ensures SameWanted(c, Do(c, TimerFires(token))) && SameWanted(c, Do(c, WatchdogFires(token)))
  {
    ConnectsKeepWanted(c.(timer := None), token);
    ConnectsKeepWanted(c.(watchdog := false), token);
  }

  /** Connections come and go; what is wanted stays. */
  lemma OthersKeepWanted(c: Client, a: Action)
    requires !a.CallSubscribe? && !a.CallUnsubscribe?
    ensures SameWanted(c, Do(c, a))
  {
    match a
    case CallConnect(token) => ConnectsKeepWanted(c, token);
    case CallDisconnect => ConnectsKeepWanted(c, true);
    case CallForceReconnect(token) => ConnectsKeepWanted(c, token);
    case TimerFires(token) => TimersKeepWanted(c, token);
    case WatchdogFires(token) => TimersKeepWanted(c, token);
    case _ => SocketsKeepWanted(c, a);
  }

  lemma StepWants(c: Client, a: Action, topic: Topic)
    ensures Wants(Do(c, a), topic) <==> LastSaid(Wants(c, topic), [a], topic)
  {
    match a
    case CallSubscribe(other, _) => WantsMore(c, other, topic);
    case CallUnsubscribe(other) => WantsLess(c, other, topic);
    case _ => OthersKeepWanted(c, a);
  }

  /** In every run, connected or not, a topic is wanted exactly when the last call about it was to subscribe. */
  lemma {:induction false} WantedIsLastSaid(c: Client, actions: seq<Action>, topic: Topic)
    ensures Wants(Run(c, actions), topic) <==> LastSaid(Wants(c, topic), actions, topic)
    decreases |actions|
  {
    if actions != [] {
      StepWants(c, actions[0], topic);
      WantedIsLastSaid(Do(c, actions[0]), actions[1..], topic);
      assert [actions[0]][1..] == [];
    }
  }

  /** A pending reconnect, and a watchdog that nothing was heard for, make a new socket if there is a token. */
  lemma TimersReconnect(actions: seq<Action>)
    ensures var c := Run(FRESH, actions);
            && (c.timer.Some? ==>
                  var d := Do(c, TimerFires(true));
                  d.timer.None? && d.ws == Some(|c.sockets|) && |d.sockets| == |c.sockets| + 1 && Opening(d.sockets[|c.sockets|]))
            && (c.watchdog ==>
                  var d := Do(c, WatchdogFires(true));
                  !d.watchdog && d.ws == Some(|c.sockets|) && |d.sockets| == |c.sockets| + 1 && Opening(d.sockets[|c.sockets|])
                  && LeftBehind(c.sockets, c.ws, d.sockets))
            && (Has(c, Open) ==> Do(c, SocketMessage(c.ws.value)).watchdog)
  {
    RunIsSafe(FRESH, actions);
  }

  /** connect() makes a socket unless it has one; forceReconnect() always does; disconnect() gives up the socket and the timer. */
  lemma CallsConnect(c: Client)
    ensures var d := Do(c, CallConnect(true));
            if Has(c, Open) || Has(c, Connecting) then d == c
            else d.ws == Some(|c.sockets|) && |d.sockets| == |c.sockets| + 1 && Opening(d.sockets[|c.sockets|])
                 && LeftBehind(c.sockets, c.ws, d.sockets) && d.timer.None? && !d.intentionalClose
    ensures var d := Do(c, CallForceReconnect(true));
            && d.ws == Some(|c.sockets|) && |d.sockets| == |c.sockets| + 1 && Opening(d.sockets[|c.sockets|])
            && LeftBehind(c.sockets, c.ws, d.sockets) && d.timer.None? && !d.intentionalClose
    ensures var d := Do(c, CallDisconnect);
            && d.ws.None? && d.timer.None? && !d.watchdog && d.intentionalClose && d.mode.Disconnected?
            && |d.sockets| == |c.sockets| && LeftBehind(c.sockets, c.ws, d.sockets)
  {
  }

  /** Each close of the current socket schedules one more reconnect; it is never taken for an intentional one. */
  lemma CloseSchedulesReconnect(actions: seq<Action>, k: nat)
    ensures var c := Run(FRESH, actions);
            c.ws == Some(k) ==>
              var d := Do(c, SocketCloses(k));
              !c.intentionalClose && d.ws.None? && d.attempts == c.attempts + 1 && d.timer == Some(Backoff(c.attempts))
  {
    RunIsSafe(FRESH, actions);
  }

  /** The browser's events of a socket. */
  predicate OfSocket(a: Action, k: nat) {
    a == SocketOpens(k) || a == SocketCloseStarts(k) || a == SocketCloses(k) || a == SocketMessage(k)
  }

  /** A replaced socket can no longer change anything but itself. */
  lemma StaleSocketsAreSilent(actions: seq<Action>, a: Action, k: nat)
    requires OfSocket(a, k)
    ensures var c := Run(FRESH, actions);
            var d := Do(c, a);
            c.ws != Some(k) ==>
              && d == c.(sockets := d.sockets) && |d.sockets| == |c.sockets|
              && forall j | 0 <= j < |c.sockets| && j != k :: d.sockets[j] == c.sockets[j]
  {
    RunIsSafe(FRESH, actions);
    if Run(FRESH, actions).ws != Some(k) {
      StaleSocketIsSilent(Run(FRESH, actions), a, k);
    }
  }

  lemma StaleSocketIsSilent(c: Client, a: Action, k: nat)
    requires SocketsOk(c) && OfSocket(a, k) && c.ws != Some(k)
    ensures var d := Do(c, a);
            && d == c.(sockets := d.sockets) && |d.sockets| == |c.sockets|
            && forall j | 0 <= j < |c.sockets| && j != k :: d.sockets[j] == c.sockets[j]
  {
    assert k < |c.sockets| && c.sockets[k].attached && !c.sockets[k].ready.Closed? ==> c.ws == Some(k);
  }

  predicate FromBrowser(a: Action) {
    a.TimerFires? || a.WatchdogFires? || a.SocketOpens? || a.SocketCloseStarts? || a.SocketCloses? || a.SocketMessage?
  }

  /** After disconnect() nothing the browser does changes the client, until the page calls it again. */
  lemma DisconnectIsQuiet(before: seq<Action>, actions: seq<Action>)
    requires forall a <- actions :: FromBrowser(a)
    ensures var c := Disconnect(Run(FRESH, before));
            c.ws.None? && c.timer.None? && !c.watchdog && Run(c, actions) == c.(sockets := Run(c, actions).sockets)
  {
    RunIsSafe(FRESH, before);
    ConnectedIsSafe(Run(FRESH, before), true);
    ClosedStaysQuiet(Disconnect(Run(FRESH, before)), actions);
  }

  lemma {:induction false} ClosedStaysQuiet(c: Client, actions: seq<Action>)
    requires Safe(c) && c.intentionalClose && forall a <- actions :: FromBrowser(a)
    ensures Run(c, actions) == c.(sockets := Run(c, actions).sockets)
    decreases |actions|
  {
    if actions != [] {
      var a := actions[0];
      var d := Do(c, a);
      DoIsSafe(c, a);
      QuietStep(c, a);
      ClosedStaysQuiet(d, actions[1..]);
    }
  }

  lemma QuietStep(c: Client, a: Action)
    requires Safe(c) && c.intentionalClose && FromBrowser(a)
    ensures Do(c, a) == c.(sockets := Do(c, a).sockets)
  {
    assert forall k | 0 <= k < |c.sockets| :: c.sockets[k].attached ==> c.sockets[k].ready.Closed?;
  }

  /** There is a socket, or a reconnect is pending, or the page disconnected. */
  predicate Alive(c: Client) {
    c.ws.Some? || c.timer.Some? || c.intentionalClose
  }

  /** The steps that give up the socket or the timer before they look for a token. */
  predicate Commits(c: Client, a: Action) {
    a.CallForceReconnect? || (a.WatchdogFires? && c.watchdog) || (a.TimerFires? && c.timer.Some?)
  }

  /** A client that is alive stays so, except exactly when such a step finds no token: then nothing is left that would reconnect. */
  lemma AliveUnlessNoToken(c: Client, a: Action)
    requires Safe(c) && Alive(c)
    ensures Alive(Do(c, a)) <==> !(Commits(c, a) && !a.token)
  {
    match a
    case SocketOpens(k) => SocketKeepsAlive(c, a, k);
    case SocketCloseStarts(k) => SocketKeepsAlive(c, a, k);
    case SocketCloses(k) => SocketKeepsAlive(c, a, k);
    case SocketMessage(k) => SocketKeepsAlive(c, a, k);
    case CallForceReconnect(token) => ForceKeepsAlive(c, token);
    case WatchdogFires(token) => if c.watchdog { ForceKeepsAlive(c.(watchdog := false), token); }
    case TimerFires(token) => if c.timer.Some? { ConnectKeepsAlive(c.(timer := None), token); }
    case CallConnect(token) => ConnectKeepsAlive(c, token);
    case CallSubscribe(topic, token) => SubscribeKeepsAlive(c, topic, token);
    case CallDisconnect =>
    case CallUnsubscribe(_) =>
  }

  lemma ConnectKeepsAlive(c: Client, token: bool)
    ensures Alive(Connect(c, token)) <==> Alive(c) || token
  {
  }

  lemma ForceKeepsAlive(c: Client, token: bool)
    ensures Alive(ForceReconnect(c, token)) <==> token
  {
  }

  lemma SubscribeKeepsAlive(c: Client, topic: Topic, token: bool)
    requires Alive(c)
    ensures Alive(Subscribe(c, topic, token))
  {
    ConnectKeepsAlive(SetWanted(c, topic.kind, Included(Wanted(c, topic.kind), topic.id)), token);
  }

  lemma SocketKeepsAlive(c: Client, a: Action, k: nat)
    requires SocketsOk(c) && TimersOk(c) && Alive(c) && OfSocket(a, k)
    ensures Alive(Do(c, a))
  {
    if c.ws != Some(k) {
      StaleSocketIsSilent(c, a, k);
    }
  }

  predicate WithToken(a: Action) {
    a.CallForceReconnect? || a.TimerFires? || a.WatchdogFires? ==> a.token
  }

  /** So with a token at every such moment, a client that once connected is always alive. */
  lemma {:induction false} NeverStranded(c: Client, actions: seq<Action>)
    requires Safe(c) && Alive(c)
    requires forall a <- actions :: WithToken(a)
    ensures Alive(Run(c, actions))
    decreases |actions|
  {
    if actions != [] {
      DoIsSafe(c, actions[0]);
      assert WithToken(actions[0]);
      AliveUnlessNoToken(c, actions[0]);
      NeverStranded(Do(c, actions[0]), actions[1..]);
    }
  }
}
