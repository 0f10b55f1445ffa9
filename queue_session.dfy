/**
 * The examination-workflow session client (the `ExaminationFlowService` singleton) as a
 * state machine over values. Every public call of the service and every callback the
 * STOMP library fires is a transition function on `Session`; the class in module
 * QueueService performs the same transitions in place.
 *
 * The STOMP client object is reduced to what the service observes of it: its `active`
 * flag. The broker side is the set `live` of subscriptions that were made and never
 * unsubscribed, kept next to the service's own map of tracked subscriptions.
 */
module QueueSession {
  import opened Wrappers
  import D = StompDestinations

  /** `maxReconnectAttempts`. */
  const MaxReconnectAttempts: nat := 5

  /** A STOMP client the service created: the token of the `connect` call that created it and its `active` flag. */
  datatype StompClient = StompClient(id: nat, token: string, active: bool)

  /** The message handler a subscription was made with; it decides how a body is decoded. */
  datatype HandlerKind = ItemHandler | SizeHandler | ErrorHandler | BroadcastHandler

  /** A subscription handle; `id` is unique per session. */
  datatype Subscription = Subscription(id: nat, destination: string, kind: HandlerKind)

  /** A published command frame. */
  datatype Frame = Frame(destination: string, body: string)

  datatype ErrorReason = StompErrorFrame | WebSocketErrorEvent | MaxAttemptsReached

  /** An invocation of the `onConnected` or `onError` callback given to `connect`. */
  datatype Notice = ConnectedNotice | ErrorNotice(reason: ErrorReason)

  datatype Session = Session(
    client: Option<StompClient>,           // `client`
    connected: bool,                       // `connected`
    reconnectAttempts: nat,                // `reconnectAttempts`
    subscriptions: map<string, Subscription>,  // `subscriptions`
    live: set<Subscription>,               // broker side: subscribed and not unsubscribed
    nextId: nat,                           // source of fresh client and subscription ids
    pendingReconnects: seq<string>,        // tokens of reconnect timers scheduled and not yet fired
    published: seq<Frame>,                 // every frame published, in order
    notices: seq<Notice>)                  // every onConnected/onError invocation, in order

  /** The state of a freshly constructed service. */
  function Initial(): Session {
    Session(None, false, 0, map[], {}, 0, [], [], [])
  }

  /** The invariant every reachable session keeps. */
  predicate Valid(s: Session) {
    && s.reconnectAttempts <= MaxReconnectAttempts
    && s.subscriptions.Values <= s.live
    && (forall h :: h in s.live ==> h.id < s.nextId)
    && (s.client.Some? ==> s.client.value.id < s.nextId)
  }

  /** `this.client?.active`. */
  predicate ClientActive(s: Session) {
    s.client.Some? && s.client.value.active
  }

  /** `isConnected()`. */
  predicate IsConnected(s: Session) {
    s.connected && ClientActive(s)
  }

  // ---------------------------------------------------------------------------------
  // Calls made by the pages.

  /** `connect(token, onConnected, onError)`: a no-op apart from `onConnected` when already connected; otherwise a new, activated client. */
  function Connect(s: Session, token: string): Session {
    if IsConnected(s) then s.(notices := s.notices + [ConnectedNotice])
    else s.(client := Some(StompClient(s.nextId, token, true)), nextId := s.nextId + 1)
  }

  /** `disconnect()`: on an active client, unsubscribe every tracked subscription, clear the map, deactivate, clear `connected`. */
  function Disconnect(s: Session): Session {
    if ClientActive(s) then
      s.(live := s.live - s.subscriptions.Values,
         subscriptions := map[],
         client := Some(s.client.value.(active := false)),
         connected := false)
    else s
  }

  /** The common body of the `subscribeTo*` methods. */
  function Subscribe(s: Session, key: string, destination: string, kind: HandlerKind): Session {
    if !ClientActive(s) then s
    else
      var h := Subscription(s.nextId, destination, kind);
      s.(subscriptions := s.subscriptions[key := h], live := s.live + {h}, nextId := s.nextId + 1)
  }

  function SubscribeToQueueItems(s: Session): Session {
    Subscribe(s, D.ItemsKey, D.ItemDetails, ItemHandler)
  }

  function SubscribeToQueueSize(s: Session): Session {
    Subscribe(s, D.SizeKey, D.QuerySizeReply, SizeHandler)
  }

  function SubscribeToErrors(s: Session): Session {
    Subscribe(s, D.ErrorsKey, D.ErrorQueue, ErrorHandler)
  }

  function SubscribeToQueueBroadcast(s: Session, queueId: string): Session {
    Subscribe(s, D.BroadcastKey(queueId), D.Broadcast(queueId), BroadcastHandler)
  }

  function SubscribeToReceptionQueue(s: Session): Session {
    SubscribeToQueueBroadcast(s, D.ReceptionQueue)
  }

  /** The common body of the publishing methods. */
  function Publish(s: Session, frame: Frame): Session {
    if !ClientActive(s) then s else s.(published := s.published + [frame])
  }

  function TakeNextItem(s: Session, queueId: string): Session {
    Publish(s, Frame(D.TakeNext, D.TakeNextBody(queueId)))
  }

  function GetInProgressItem(s: Session): Session {
    Publish(s, Frame(D.InProcess, ""))
  }

  function QueryQueueSize(s: Session, queueId: string): Session {
    Publish(s, Frame(D.QueueSizeQuery, queueId))
  }

  // ---------------------------------------------------------------------------------
  // Callbacks fired by the STOMP library.

  /** `onConnect`. */
  function OnConnect(s: Session): Session {
    s.(connected := true, reconnectAttempts := 0, notices := s.notices + [ConnectedNotice])
  }

  /** `onStompError`. */
  function OnStompError(s: Session): Session {
    s.(connected := false, notices := s.notices + [ErrorNotice(StompErrorFrame)])
  }

  /** `onWebSocketError`. */
  function OnWebSocketError(s: Session): Session {
    s.(connected := false, notices := s.notices + [ErrorNotice(WebSocketErrorEvent)])
  }

  /** `handleReconnect(token, ...)`: schedule one more attempt while the budget lasts, else report. */
  function HandleReconnect(s: Session, token: string): Session {
    if s.reconnectAttempts < MaxReconnectAttempts then
      s.(reconnectAttempts := s.reconnectAttempts + 1, pendingReconnects := s.pendingReconnects + [token])
    else s.(notices := s.notices + [ErrorNotice(MaxAttemptsReached)])
  }

  /** `onDisconnect` of the client created by `connect(token, ...)`. */
  function OnDisconnect(s: Session, token: string): Session {
    HandleReconnect(s.(connected := false), token)
  }

  /** The oldest scheduled reconnect timer fires and calls `connect` again. */
  function ReconnectTimerFired(s: Session): Session
    requires s.pendingReconnects != []
  {
    Connect(s.(pendingReconnects := s.pendingReconnects[1..]), s.pendingReconnects[0])
  }

  // ---------------------------------------------------------------------------------
  // Runs of events.

  datatype Event =
    | CallConnect(token: string)
    | CallDisconnect
    | CallSubscribeToQueueItems
    | CallSubscribeToQueueSize
    | CallSubscribeToErrors
    | CallSubscribeToQueueBroadcast(queueId: string)
    | CallSubscribeToReceptionQueue
    | CallTakeNextItem(queueId: string)
    | CallGetInProgressItem
    | CallQueryQueueSize(queueId: string)
    | LibraryConnected
    | LibraryStompError
    | LibraryWebSocketError
    | LibraryDisconnected(clientToken: string)
    | TimerFired

  /** One event; a timer fires only when one is scheduled. */
  function Step(s: Session, e: Event): Session {
    match e
    case CallConnect(t) => Connect(s, t)
    case CallDisconnect => Disconnect(s)
    case CallSubscribeToQueueItems => SubscribeToQueueItems(s)
    case CallSubscribeToQueueSize => SubscribeToQueueSize(s)
    case CallSubscribeToErrors => SubscribeToErrors(s)
    case CallSubscribeToQueueBroadcast(q) => SubscribeToQueueBroadcast(s, q)
    case CallSubscribeToReceptionQueue => SubscribeToReceptionQueue(s)
    case CallTakeNextItem(q) => TakeNextItem(s, q)
    case CallGetInProgressItem => GetInProgressItem(s)
    case CallQueryQueueSize(q) => QueryQueueSize(s, q)
    case LibraryConnected => OnConnect(s)
    case LibraryStompError => OnStompError(s)
    case LibraryWebSocketError => OnWebSocketError(s)
    case LibraryDisconnected(t) => OnDisconnect(s, t)
    case TimerFired => if s.pendingReconnects == [] then s else ReconnectTimerFired(s)
  }

  function Run(s: Session, events: seq<Event>): Session
    decreases |events|
  {
    if events == [] then s else Run(Step(s, events[0]), events[1..])
  }

  /** The events that are calls of the service's public methods other than `connect`. */
  predicate IsGatedCall(e: Event) {
    !e.CallConnect? && !e.LibraryConnected? && !e.LibraryStompError? && !e.LibraryWebSocketError?
    && !e.LibraryDisconnected? && !e.TimerFired?
  }

  // ---------------------------------------------------------------------------------
  // Invariant and reconnection budget.

  lemma StepPreservesValid(s: Session, e: Event)
    requires Valid(s)
    ensures Valid(Step(s, e))
  {
    if e.CallDisconnect? && ClientActive(s) {
      var t := Disconnect(s);
      assert t.subscriptions.Values == {};
    }
  }

  lemma {:induction false} RunPreservesValid(s: Session, events: seq<Event>)
    requires Valid(s)
    ensures Valid(Run(s, events))
    decreases |events|
  {
    if events != [] {
      StepPreservesValid(s, events[0]);
      RunPreservesValid(Step(s, events[0]), events[1..]);
    }
  }

  /** Whatever happens, `reconnectAttempts` never exceeds `maxReconnectAttempts`. */
  lemma ReconnectAttemptsBounded(events: seq<Event>)
    ensures Run(Initial(), events).reconnectAttempts <= MaxReconnectAttempts
  {
    RunPreservesValid(Initial(), events);
  }

  /** Only a successful STOMP connection resets the attempt counter. */
  lemma OnlyOnConnectResetsAttempts(s: Session, e: Event)
    ensures Step(s, e).reconnectAttempts < s.reconnectAttempts ==> e == LibraryConnected
    ensures e != LibraryConnected ==> Step(s, e).reconnectAttempts >= s.reconnectAttempts
  {
  }

  /** Whether event `e` in state `s` schedules a reconnect timer. */
  predicate SchedulesReconnect(s: Session, e: Event) {
    e.LibraryDisconnected? && s.reconnectAttempts < MaxReconnectAttempts
  }

  /** How many reconnect timers a run schedules. */
  function ScheduledReconnects(s: Session, events: seq<Event>): nat
    decreases |events|
  {
    if events == [] then 0
    else (if SchedulesReconnect(s, events[0]) then 1 else 0) + ScheduledReconnects(Step(s, events[0]), events[1..])
  }

  /**
   * Between two successful connections, every scheduled reconnect is paid for by one
   * attempt, so at most `maxReconnectAttempts` reconnects are ever scheduled.
   */
  lemma {:induction false} ReconnectBudget(s: Session, events: seq<Event>)
    requires Valid(s)
    requires forall i :: 0 <= i < |events| ==> events[i] != LibraryConnected
    ensures s.reconnectAttempts + ScheduledReconnects(s, events) == Run(s, events).reconnectAttempts
    ensures ScheduledReconnects(s, events) <= MaxReconnectAttempts - s.reconnectAttempts
    decreases |events|
  {
    if events != [] {
      StepPreservesValid(s, events[0]);
      ReconnectBudget(Step(s, events[0]), events[1..]);
    }
    RunPreservesValid(s, events);
  }

  function Repeat<T>(x: T, n: nat): (r: seq<T>)
    ensures |r| == n && forall i :: 0 <= i < n ==> r[i] == x
  {
    if n == 0 then [] else [x] + Repeat(x, n - 1)
  }

  /** `n` consecutive disconnects of the client of `connect(token, ...)` with no successful connection in between. */
  function Disconnects(s: Session, token: string, n: nat): Session
    decreases n
  {
    if n == 0 then s else Disconnects(OnDisconnect(s, token), token, n - 1)
  }

  /**
   * After `n` consecutive disconnects from a fresh counter, exactly `min(n, 5)` reconnects
   * are scheduled and every further disconnect reports "Max reconnection attempts reached".
   */
  lemma {:induction false} ConsecutiveDisconnects(s: Session, token: string, n: nat)
    requires s.reconnectAttempts <= MaxReconnectAttempts
    ensures var k := if n <= MaxReconnectAttempts - s.reconnectAttempts then n else MaxReconnectAttempts - s.reconnectAttempts;
      && Disconnects(s, token, n).reconnectAttempts == s.reconnectAttempts + k
      && Disconnects(s, token, n).pendingReconnects == s.pendingReconnects + Repeat(token, k)
      && Disconnects(s, token, n).notices == s.notices + Repeat(ErrorNotice(MaxAttemptsReached), n - k)
      && Disconnects(s, token, n).client == s.client
      && Disconnects(s, token, n).subscriptions == s.subscriptions
    decreases n
  {
    if n > 0 {
      var t := OnDisconnect(s, token);
      ConsecutiveDisconnects(t, token, n - 1);
      if s.reconnectAttempts < MaxReconnectAttempts {
        assert [token] + Repeat(token, if n - 1 <= MaxReconnectAttempts - t.reconnectAttempts then n - 1 else MaxReconnectAttempts - t.reconnectAttempts)
          == Repeat(token, if n <= MaxReconnectAttempts - s.reconnectAttempts then n else MaxReconnectAttempts - s.reconnectAttempts);
        assert t.pendingReconnects == s.pendingReconnects + [token];
      } else {
        assert [ErrorNotice(MaxAttemptsReached)] + Repeat(ErrorNotice(MaxAttemptsReached), n - 1) == Repeat(ErrorNotice(MaxAttemptsReached), n);
        assert t.notices == s.notices + [ErrorNotice(MaxAttemptsReached)];
      }
    }
  }

  // ---------------------------------------------------------------------------------
  // Idempotent connect.

  /** Connecting twice while connected creates no client and calls `onConnected` both times. */
  lemma ConnectIdempotent(s: Session, token1: string, token2: string)
    requires IsConnected(s)
    ensures Connect(Connect(s, token1), token2) == s.(notices := s.notices + [ConnectedNotice, ConnectedNotice])
  {
  }

  /** Otherwise `connect` installs a brand-new active client and touches neither the map nor the counter. */
  lemma ConnectReplacesClient(s: Session, token: string)
    requires Valid(s) && !IsConnected(s)
    ensures var t := Connect(s, token);
      && IsConnected(t) == s.connected
      && t.client.Some? && t.client.value.active && t.client.value.token == token
      && (s.client.Some? ==> t.client.value.id != s.client.value.id)
      && (forall h :: h in s.live ==> h.id != t.client.value.id)
      && t.subscriptions == s.subscriptions && t.reconnectAttempts == s.reconnectAttempts
      && t.notices == s.notices
  {
  }

  // ---------------------------------------------------------------------------------
  // Gating on `client.active`.

  /** While the client is not active, no call other than `connect` subscribes or publishes anything. */
  lemma {:induction false} InactiveClientIgnoresCalls(s: Session, events: seq<Event>)
    requires !ClientActive(s)
    requires forall i :: 0 <= i < |events| ==> IsGatedCall(events[i])
    ensures Run(s, events) == s
    decreases |events|
  {
    if events != [] {
      assert IsGatedCall(events[0]);
      assert Step(s, events[0]) == s;
      InactiveClientIgnoresCalls(s, events[1..]);
    }
  }

  /** On an active client every subscribe call tracks a fresh subscription under its key and makes it live. */
  lemma SubscribeTracksFreshHandle(s: Session, key: string, destination: string, kind: HandlerKind)
    requires Valid(s) && ClientActive(s)
    ensures var t := Subscribe(s, key, destination, kind);
      && key in t.subscriptions
      && t.subscriptions[key] == Subscription(s.nextId, destination, kind)
      && t.subscriptions[key] !in s.live
      && t.live == s.live + {t.subscriptions[key]}
      && (forall k :: k in s.subscriptions && k != key ==> k in t.subscriptions && t.subscriptions[k] == s.subscriptions[k])
  {
  }

  // ---------------------------------------------------------------------------------
  // Disconnect.

  /** `disconnect` on an inactive or absent client changes nothing. */
  lemma DisconnectInactiveIsNoop(s: Session)
    requires !ClientActive(s)
    ensures Disconnect(s) == s
  {
  }

  /**
   * `disconnect` on an active client leaves nothing tracked and nothing connected; every
   * tracked subscription is gone from the broker and every untracked live one stays.
   */
  lemma DisconnectTearsDown(s: Session)
    requires Valid(s) && ClientActive(s)
    ensures var t := Disconnect(s);
      && t.subscriptions == map[] && !IsConnected(t) && !ClientActive(t)
      && (forall k :: k in s.subscriptions ==> s.subscriptions[k] !in t.live)
      && (forall h :: h in s.live ==> (h in t.live <==> h !in s.subscriptions.Values))
      && t.reconnectAttempts == s.reconnectAttempts && t.published == s.published
  {
  }

  /** A second subscription under a key drops the first from the map while it stays live, even past `disconnect`. */
  lemma ResubscribeLeavesStaleSubscription(s: Session, queueId: string)
    requires Valid(s) && ClientActive(s)
    ensures var s1 := SubscribeToQueueBroadcast(s, queueId);
      var s2 := SubscribeToQueueBroadcast(s1, queueId);
      var first := s1.subscriptions[D.BroadcastKey(queueId)];
      var second := s2.subscriptions[D.BroadcastKey(queueId)];
      && first != second
      && first in s2.live && second in s2.live
      && first !in s2.subscriptions.Values
      && first in Disconnect(s2).live
      && second !in Disconnect(s2).live
  {
    var s1 := SubscribeToQueueBroadcast(s, queueId);
    var s2 := SubscribeToQueueBroadcast(s1, queueId);
    var key := D.BroadcastKey(queueId);
    var first := s1.subscriptions[key];
    var second := s2.subscriptions[key];
    assert first.id == s.nextId && second.id == s.nextId + 1;
    forall k | k in s2.subscriptions
      ensures s2.subscriptions[k] != first
    {
      if k != key {
        assert s2.subscriptions[k] == s.subscriptions[k];
        assert s.subscriptions[k] in s.live;
      }
    }
  }

  // ---------------------------------------------------------------------------------
  // Delivery of inbound messages.

  datatype JsonValue =
    | JNull | JBool(b: bool) | JNumber(n: int) | JString(str: string)
    | JArray(items: seq<JsonValue>) | JObject(members: seq<(string, JsonValue)>)

  /** An inbound message; `parsed` is what `JSON.parse(body)` yields, `None` when it throws. */
  datatype Message = Message(destination: string, body: string, parsed: Option<JsonValue>)

  /** What a consumer callback receives. */
  datatype Payload = Json(value: JsonValue) | Text(text: string)

  datatype Invocation = Invocation(subscription: Subscription, payload: Payload)

  /** A handler's try/catch: the errors handler passes the raw body on; the others parse it and drop it when parsing throws. */
  function Decode(kind: HandlerKind, m: Message): Option<Payload> {
    if kind == ErrorHandler then Some(Text(m.body))
    else match m.parsed
      case Some(v) => Some(Json(v))
      case None => None
  }

  /** The consumer callbacks one inbound message reaches: those of the live subscriptions to its destination. */
  function Deliveries(live: set<Subscription>, m: Message): set<Invocation> {
    set h | h in live && h.destination == m.destination && Decode(h.kind, m).Some? :: Invocation(h, Decode(h.kind, m).value)
  }

  /** A body that fails to parse reaches no JSON consumer, and every other live subscription is unaffected. */
  lemma MalformedBodyReachesOnlyErrorHandlers(live: set<Subscription>, m: Message)
    requires m.parsed.None?
    ensures forall inv :: inv in Deliveries(live, m) ==> inv.subscription.kind == ErrorHandler && inv.payload == Text(m.body)
    ensures forall h :: h in live && h.destination == m.destination && h.kind == ErrorHandler ==> Invocation(h, Text(m.body)) in Deliveries(live, m)
  {
    forall h | h in live && h.destination == m.destination && h.kind == ErrorHandler
      ensures Invocation(h, Text(m.body)) in Deliveries(live, m)
    {
      assert Decode(h.kind, m) == Some(Text(m.body));
    }
  }

  /** A broadcast for one queue never reaches the broadcast subscription of another. */
  lemma BroadcastIsolation(live: set<Subscription>, m: Message, q1: string, q2: string)
    requires m.destination == D.Broadcast(q1) && q1 != q2
    ensures forall inv :: inv in Deliveries(live, m) ==> inv.subscription.destination != D.Broadcast(q2)
  {
    D.BroadcastInjective(q1, q2);
  }

  /** After `disconnect` on an active client, no subscription it tracked receives anything. */
  lemma NoDeliveryToTrackedAfterDisconnect(s: Session, m: Message)
    requires Valid(s) && ClientActive(s)
    ensures forall inv :: inv in Deliveries(Disconnect(s).live, m) ==> inv.subscription !in s.subscriptions.Values
  {
  }

  /**
   * Connect with staff id "staff-42", the broker acknowledges, subscribe to queue items,
   * take next from "cardiology": the item pushed on the item destination reaches the
   * callback exactly once, and the command published is the take-next frame.
   */
  lemma EndToEndTakeNext(item: JsonValue, body: string)
    ensures var s := TakeNextItem(SubscribeToQueueItems(OnConnect(Connect(Initial(), "staff-42"))), "cardiology");
      && s.published == [Frame(D.TakeNext, D.TakeNextBody("cardiology"))]
      && Deliveries(s.live, Message(D.ItemDetails, body, Some(item)))
         == {Invocation(Subscription(1, D.ItemDetails, ItemHandler), Json(item))}
  {
    var s := TakeNextItem(SubscribeToQueueItems(OnConnect(Connect(Initial(), "staff-42"))), "cardiology");
    var h := Subscription(1, D.ItemDetails, ItemHandler);
    assert s.live == {h};
    var m := Message(D.ItemDetails, body, Some(item));
    assert Invocation(h, Json(item)) in Deliveries(s.live, m);
  }
}
