/**
 * The `ExaminationFlowService` singleton as a class whose fields the methods update in
 * place. Each method is specified by the transition of module QueueSession it performs;
 * the properties of those transitions are proved there.
 */
module QueueService {
  import opened Wrappers
  import D = StompDestinations
  import QS = QueueSession

  class ExaminationFlowService {
    var client: Option<QS.StompClient>
    var connected: bool
    var reconnectAttempts: nat
    var subscriptions: map<string, QS.Subscription>
    var live: set<QS.Subscription>
    var nextId: nat
    var pendingReconnects: seq<string>
    var published: seq<QS.Frame>
    var notices: seq<QS.Notice>

    /** The abstract state of the service. */
    function Snapshot(): QS.Session
      reads this
    {
      QS.Session(client, connected, reconnectAttempts, subscriptions, live, nextId,
                 pendingReconnects, published, notices)
    }

    ghost predicate Valid()
      reads this
    {
      QS.Valid(Snapshot())
    }

    constructor ()
      ensures Snapshot() == QS.Initial() && Valid()
    {
      client, connected, reconnectAttempts := None, false, 0;
      subscriptions, live, nextId := map[], {}, 0;
      pendingReconnects, published, notices := [], [], [];
    }

    method Connect(token: string)
      requires Valid()
      modifies this
      ensures Valid() && Snapshot() == QS.Connect(old(Snapshot()), token)
    {
      if connected && client.Some? && client.value.active {
        notices := notices + [QS.ConnectedNotice];
        return;
      }
      client := Some(QS.StompClient(nextId, token, true));
      nextId := nextId + 1;
    }

    method OnConnect()
      requires Valid()
      modifies this
      ensures Valid() && Snapshot() == QS.OnConnect(old(Snapshot()))
    {
      connected := true;
      reconnectAttempts := 0;
      notices := notices + [QS.ConnectedNotice];
    }

    method OnStompError()
      requires Valid()
      modifies this
      ensures Valid() && Snapshot() == QS.OnStompError(old(Snapshot()))
    {
      connected := false;
      notices := notices + [QS.ErrorNotice(QS.StompErrorFrame)];
    }

    method OnWebSocketError()
      requires Valid()
      modifies this
      ensures Valid() && Snapshot() == QS.OnWebSocketError(old(Snapshot()))
    {
      connected := false;
      notices := notices + [QS.ErrorNotice(QS.WebSocketErrorEvent)];
    }

    method OnDisconnect(token: string)
      requires Valid()
      modifies this
      ensures Valid() && Snapshot() == QS.OnDisconnect(old(Snapshot()), token)
    {
      connected := false;
      HandleReconnect(token);
    }

    method HandleReconnect(token: string)
      requires Valid()
      modifies this
      ensures Valid() && Snapshot() == QS.HandleReconnect(old(Snapshot()), token)
      ensures reconnectAttempts <= QS.MaxReconnectAttempts
    {
      if reconnectAttempts < QS.MaxReconnectAttempts {
        reconnectAttempts := reconnectAttempts + 1;
        pendingReconnects := pendingReconnects + [token];
      } else {
        notices := notices + [QS.ErrorNotice(QS.MaxAttemptsReached)];
      }
    }

    method ReconnectTimerFired()
      requires Valid() && pendingReconnects != []
      modifies this
      ensures Valid() && Snapshot() == QS.ReconnectTimerFired(old(Snapshot()))
    {
      var token := pendingReconnects[0];
      pendingReconnects := pendingReconnects[1..];
      Connect(token);
    }

    /** Unsubscribes the tracked subscriptions one by one, then clears the map and deactivates. */
    method Disconnect()
      requires Valid()
      modifies this
      ensures Valid() && Snapshot() == QS.Disconnect(old(Snapshot()))
    {
      if client.Some? && client.value.active {
        var remaining := subscriptions.Keys;
        while remaining != {}
          invariant remaining <= subscriptions.Keys
          invariant subscriptions == old(subscriptions) && client == old(client)
          invariant live == old(live) - (set k | k in subscriptions.Keys - remaining :: subscriptions[k])
          invariant connected == old(connected) && nextId == old(nextId) && reconnectAttempts == old(reconnectAttempts)
          invariant pendingReconnects == old(pendingReconnects) && published == old(published) && notices == old(notices)
          decreases remaining
        {
          var key :| key in remaining;
          live := live - {subscriptions[key]};
          remaining := remaining - {key};
        }
        assert (set k | k in subscriptions.Keys :: subscriptions[k]) == subscriptions.Values;
        subscriptions := map[];
        client := Some(client.value.(active := false));
        connected := false;
      }
    }

    method IsConnected() returns (r: bool)
      ensures r == QS.IsConnected(Snapshot())
    {
      r := connected && client.Some? && client.value.active;
    }

    method Subscribe(key: string, destination: string, kind: QS.HandlerKind)
      requires Valid()
      modifies this
      ensures Valid() && Snapshot() == QS.Subscribe(old(Snapshot()), key, destination, kind)
    {
      if !(client.Some? && client.value.active) {
        return;
      }
      var subscription := QS.Subscription(nextId, destination, kind);
      nextId := nextId + 1;
      live := live + {subscription};
      subscriptions := subscriptions[key := subscription];
    }

    method SubscribeToQueueItems()
      requires Valid()
      modifies this
      ensures Valid() && Snapshot() == QS.SubscribeToQueueItems(old(Snapshot()))
    {
      Subscribe(D.ItemsKey, D.ItemDetails, QS.ItemHandler);
    }

    method SubscribeToQueueSize()
      requires Valid()
      modifies this
      ensures Valid() && Snapshot() == QS.SubscribeToQueueSize(old(Snapshot()))
    {
      Subscribe(D.SizeKey, D.QuerySizeReply, QS.SizeHandler);
    }

    method SubscribeToErrors()
      requires Valid()
      modifies this
      ensures Valid() && Snapshot() == QS.SubscribeToErrors(old(Snapshot()))
    {
      Subscribe(D.ErrorsKey, D.ErrorQueue, QS.ErrorHandler);
    }

    method SubscribeToQueueBroadcast(queueId: string)
      requires Valid()
      modifies this
      ensures Valid() && Snapshot() == QS.SubscribeToQueueBroadcast(old(Snapshot()), queueId)
    {
      Subscribe(D.BroadcastKey(queueId), D.Broadcast(queueId), QS.BroadcastHandler);
    }

    method SubscribeToReceptionQueue()
      requires Valid()
      modifies this
      ensures Valid() && Snapshot() == QS.SubscribeToReceptionQueue(old(Snapshot()))
    {
      SubscribeToQueueBroadcast(D.ReceptionQueue);
    }

    method Publish(frame: QS.Frame)
      requires Valid()
      modifies this
      ensures Valid() && Snapshot() == QS.Publish(old(Snapshot()), frame)
    {
      if !(client.Some? && client.value.active) {
        return;
      }
      published := published + [frame];
    }

    method TakeNextItem(queueId: string)
      requires Valid()
      modifies this
      ensures Valid() && Snapshot() == QS.TakeNextItem(old(Snapshot()), queueId)
    {
      Publish(QS.Frame(D.TakeNext, D.TakeNextBody(queueId)));
    }

    method GetInProgressItem()
      requires Valid()
      modifies this
      ensures Valid() && Snapshot() == QS.GetInProgressItem(old(Snapshot()))
    {
      Publish(QS.Frame(D.InProcess, ""));
    }

    method QueryQueueSize(queueId: string)
      requires Valid()
      modifies this
      ensures Valid() && Snapshot() == QS.QueryQueueSize(old(Snapshot()), queueId)
    {
      Publish(QS.Frame(D.QueueSizeQuery, queueId));
    }
  }

  /**
   * Five consecutive transport failures after a successful connection schedule exactly
   * five reconnects; the sixth reports "Max reconnection attempts reached" and schedules nothing.
   */
  method ReconnectBudgetScenario() returns (scheduled: seq<string>, reports: seq<QS.Notice>)
    ensures scheduled == QS.Repeat("staff-42", QS.MaxReconnectAttempts)
    ensures reports == [QS.ConnectedNotice, QS.ErrorNotice(QS.MaxAttemptsReached)]
  {
    var service := new ExaminationFlowService();
    service.Connect("staff-42");
    service.OnConnect();
    var failures := 0;
    while failures < 6
      invariant 0 <= failures <= 6 && service.Valid()
      invariant service.reconnectAttempts == if failures <= 5 then failures else 5
      invariant service.pendingReconnects == QS.Repeat("staff-42", if failures <= 5 then failures else 5)
      invariant service.notices == [QS.ConnectedNotice] + QS.Repeat(QS.ErrorNotice(QS.MaxAttemptsReached), if failures <= 5 then 0 else failures - 5)
    {
      service.OnDisconnect("staff-42");
      failures := failures + 1;
    }
    scheduled := service.pendingReconnects;
    reports := service.notices;
  }
}
