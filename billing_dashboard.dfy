/**
 * The receptionist's billing dashboard (pages/receptionist/billing/BillingDashboard.tsx)
 * as a view model: the reception queue connection, taking the next patient, creating a
 * payment transaction, and the payment-status overlay.
 */
module BillingDashboard {
  import opened Wrappers
  import opened QueueItems
  import D = StompDestinations
  import QS = QueueSession
  import QueueService
  import DoctorDashboard
  import PaymentPolling

  datatype Toast =
    | ConnectedToQueue | ConnectFailed | PatientReceived | QueueError(text: string)
    | NotConnected | FetchingNext
    | NoInvoice | PaymentSucceeded | PaymentFailed | PaymentFinished

  datatype PaymentMethod = Cash | Vnpay

  /** The `createTransaction` request: invoice, method and the staff member creating it. */
  datatype TransactionRequest = TransactionRequest(invoiceId: string, paymentMethod: PaymentMethod, staffId: string)

  /** The settled `createTransaction` call: the transaction created, or a rejected promise. */
  datatype TransactionReply = Created(transactionId: string, paymentUrl: Option<string>) | Rejected

  /** What the overlay shows for the last fetched transaction status. */
  datatype OverlayPanel = SucceededPanel | FailedPanel | WaitingPanel(caption: string)

  /** The overlay body for the last fetched status, `None` before the first fetch. */
  function Overlay(status: Option<string>): (p: OverlayPanel)
    ensures p == SucceededPanel <==> status == Some("SUCCEEDED")
    ensures p == FailedPanel <==> status == Some("FAILED")
    ensures p.WaitingPanel? ==> p.caption == (if status == Some("PENDING") then "Đang chờ..."
                                            else if Truthy(status) then status.value else "Đang xử lý...")
  {
    if status == Some("SUCCEEDED") then SucceededPanel
    else if status == Some("FAILED") then FailedPanel
    else if status == Some("PENDING") then WaitingPanel("Đang chờ...")
    else if Truthy(status) then WaitingPanel(status.value)
    else WaitingPanel("Đang xử lý...")
  }

  /**
   * The success panel never stops the status polling as written: it keeps refetching
   * every 2000 ms until the overlay is closed; and a "SUCCESS" status stops the polling
   * while the overlay still waits.
   */
  lemma SucceededPanelKeepsPolling(status: Option<string>)
    ensures Overlay(status) == SucceededPanel ==> PaymentPolling.RefetchInterval(status) == PaymentPolling.PollEvery(2000)
    ensures status == Some("SUCCESS") ==>
      Overlay(status) == WaitingPanel("SUCCESS") && PaymentPolling.RefetchInterval(status) == PaymentPolling.StopPolling
  {
  }

  /** With the corrected rule, polling has stopped whenever the overlay shows a final panel. */
  lemma FinalPanelStopsSettledPolling(status: Option<string>)
    ensures !Overlay(status).WaitingPanel? ==> PaymentPolling.SettledRefetchInterval(status) == PaymentPolling.StopPolling
    ensures status == None || status == Some("PENDING") ==>
      PaymentPolling.SettledRefetchInterval(status) == PaymentPolling.PollEvery(2000)
  {
  }

  /** The reception `onConnected` callback makes the doctor's calls for queue "reception". */
  function OnConnectedCalls(s: QS.Session): QS.Session {
    DoctorDashboard.OnConnectedCalls(s, Some(D.ReceptionQueue))
  }

  /** The reception broadcast is subscribed twice too, so its first subscription outlives `disconnect`. */
  lemma ReceptionConnectLeavesUntrackedBroadcast(s: QS.Session)
    requires QS.Valid(s) && QS.ClientActive(s)
    ensures var t := OnConnectedCalls(s);
      var first := QS.Subscription(s.nextId + 3, D.Broadcast(D.ReceptionQueue), QS.BroadcastHandler);
      && t.published == s.published + [QS.Frame(D.InProcess, ""), QS.Frame(D.QueueSizeQuery, D.ReceptionQueue)]
      && first in t.live && first in QS.Disconnect(t).live
  {
    DoctorDashboard.OnConnectedLeavesUntrackedBroadcast(s, D.ReceptionQueue);
  }

  /** The dashboard's React state. */
  datatype BillingState = BillingState(
    paymentMethod: PaymentMethod,
    isProcessing: bool,
    currentTransactionId: Option<string>,
    wsConnected: bool,
    queueSize: int,
    currentQueueItem: Option<QueueItem>,
    toasts: seq<Toast>,
    requests: seq<TransactionRequest>,
    openedUrls: seq<string>)

  class BillingView {
    const service: QueueService.ExaminationFlowService
    const staffId: Option<string>               // `account.data?.staffId`
    var paymentMethod: PaymentMethod
    var isProcessing: bool
    var currentTransactionId: Option<string>
    var wsConnected: bool
    var queueSize: int
    var currentQueueItem: Option<QueueItem>
    var toasts: seq<Toast>
    var requests: seq<TransactionRequest>      // `createTransaction` calls made
    var openedUrls: seq<string>                // `window.open` calls made

    ghost predicate Valid()
      reads this, service
    {
      service.Valid()
    }

    /** The React state as one value, so that each handler can state its whole effect on it. */
    function State(): BillingState
      reads this
    {
      BillingState(paymentMethod, isProcessing, currentTransactionId, wsConnected, queueSize,
                   currentQueueItem, toasts, requests, openedUrls)
    }

    constructor (service: QueueService.ExaminationFlowService, staffId: Option<string>)
      requires service.Valid()
      ensures Valid() && this.service == service && this.staffId == staffId
      ensures State() == BillingState(Cash, false, None, false, 0, None, [], [], [])
    {
      this.service := service;
      this.staffId := staffId;
      paymentMethod, isProcessing, currentTransactionId := Cash, false, None;
      wsConnected, queueSize, currentQueueItem := false, 0, None;
      toasts, requests, openedUrls := [], [], [];
    }

    /** `!wsConnected || !!currentQueueItem`: the take-next button's `disabled`. */
    predicate TakeNextDisabled()
      reads this
    {
      !wsConnected || currentQueueItem.Some?
    }

    /** The payment overlay is shown exactly when the transaction-status query is enabled. */
    predicate OverlayShown()
      reads this
      ensures OverlayShown() == PaymentPolling.QueryEnabled(currentTransactionId)
    {
      Truthy(currentTransactionId)
    }

    /** The connect effect: only with a staff id, only when not yet connected and a "tokens" entry exists. */
    method ConnectEffect(hasTokens: bool)
      requires Valid()
      modifies service
      ensures Valid()
      ensures service.Snapshot() ==
        if Truthy(staffId) && !QS.IsConnected(old(service.Snapshot())) && hasTokens
        then QS.Connect(old(service.Snapshot()), staffId.value)
        else old(service.Snapshot())
    {
      if Truthy(staffId) {
        var already := service.IsConnected();
        if already {
          return;
        }
        if !hasTokens {
          return;
        }
        service.Connect(staffId.value);
      }
    }

    /** The `onConnected` callback given to `connect`. */
    method OnConnected()
      requires Valid()
      modifies this, service
      ensures Valid()
      ensures State() == old(State()).(wsConnected := true, toasts := old(toasts) + [ConnectedToQueue])
      ensures service.Snapshot() == OnConnectedCalls(old(service.Snapshot()))
    {
      wsConnected := true;
      toasts := toasts + [ConnectedToQueue];
      service.SubscribeToQueueItems();
      service.SubscribeToQueueSize();
      service.SubscribeToErrors();
      service.GetInProgressItem();
      var queueId := D.ReceptionQueue;
      service.SubscribeToQueueBroadcast(queueId);
      service.QueryQueueSize(queueId);
      service.SubscribeToQueueBroadcast(queueId);
    }

    /** The `onError` callback given to `connect`. */
    method OnConnectError()
      modifies this
      ensures State() == old(State()).(wsConnected := false, toasts := old(toasts) + [ConnectFailed])
    {
      wsConnected := false;
      toasts := toasts + [ConnectFailed];
    }

    /** The queue-item callback: every received item replaces the one held. */
    method OnQueueItem(item: QueueItem)
      modifies this
      ensures State() == old(State()).(currentQueueItem := Some(item), toasts := old(toasts) + [PatientReceived])
    {
      currentQueueItem := Some(item);
      toasts := toasts + [PatientReceived];
    }

    /** The queue-size callback and the first broadcast callback. */
    method OnQueueSize(size: int)
      modifies this
      ensures State() == old(State()).(queueSize := size)
    {
      queueSize := size;
    }

    /** The error-queue callback. */
    method OnQueueError(text: string)
      modifies this
      ensures State() == old(State()).(toasts := old(toasts) + [QueueError(text)])
    {
      toasts := toasts + [QueueError(text)];
    }

    /** `handleTakeNextPatient`: take the next patient of queue "reception" when the session is connected. */
    method HandleTakeNextPatient()
      requires Valid()
      modifies this, service
      ensures Valid()
      ensures var connected := QS.IsConnected(old(service.Snapshot()));
        && service.Snapshot() == (if connected then QS.TakeNextItem(old(service.Snapshot()), D.ReceptionQueue) else old(service.Snapshot()))
        && State() == old(State()).(toasts := old(toasts) + [if connected then FetchingNext else NotConnected])
    {
      var connected := service.IsConnected();
      if !connected {
        toasts := toasts + [NotConnected];
        return;
      }
      service.TakeNextItem(D.ReceptionQueue);
      toasts := toasts + [FetchingNext];
    }

    /**
     * A click on the take-next button: while the button is enabled the click runs
     * `handleTakeNextPatient`, and while it is disabled nothing happens.
     */
    method PressTakeNext()
      requires Valid()
      modifies this, service
      ensures Valid()
      ensures old(TakeNextDisabled()) ==> service.Snapshot() == old(service.Snapshot()) && State() == old(State())
      ensures old(!TakeNextDisabled()) ==>
        var connected := QS.IsConnected(old(service.Snapshot()));
        && service.Snapshot() == (if connected then QS.TakeNextItem(old(service.Snapshot()), D.ReceptionQueue) else old(service.Snapshot()))
        && State() == old(State()).(toasts := old(toasts) + [if connected then FetchingNext else NotConnected])
      ensures |service.published| > |old(service.published)| ==> old(!TakeNextDisabled())
      ensures TakeNextDisabled() == old(TakeNextDisabled())
    {
      if !TakeNextDisabled() {
        HandleTakeNextPatient();
      }
    }

    /** A click on one of the two payment-method buttons. */
    method ChooseMethod(m: PaymentMethod)
      modifies this
      ensures State() == old(State()).(paymentMethod := m)
    {
      paymentMethod := m;
    }

    /** The request `handlePayment` sends for the held item, when it sends one. */
    function PaymentRequest(): (r: Option<TransactionRequest>)
      reads this
      ensures r.Some? <==> currentQueueItem.Some? && Truthy(staffId) && Truthy(InvoiceId(currentQueueItem.value))
      ensures r.Some? ==> r.value.invoiceId == InvoiceId(currentQueueItem.value).value
                          && r.value.paymentMethod == paymentMethod && r.value.staffId == staffId.value
    {
      if currentQueueItem.Some? && Truthy(staffId) && Truthy(InvoiceId(currentQueueItem.value))
      then Some(TransactionRequest(InvoiceId(currentQueueItem.value).value, paymentMethod, staffId.value))
      else None
    }

    /**
     * `handlePayment` up to the `createTransaction` call: it needs an item and a staff id,
     * and an invoice id on the item; only then is a request sent and processing begins.
     */
    method BeginPayment() returns (request: Option<TransactionRequest>)
      modifies this
      ensures request == old(PaymentRequest())
      ensures State() == old(State()).(
        isProcessing := request.Some? || old(isProcessing),
        toasts := old(toasts) + (if old(currentQueueItem).Some? && Truthy(staffId) && request.None?
                                 then [NoInvoice] else []),
        requests := old(requests) + (if request.Some? then [request.value] else []))
    {
      if currentQueueItem.None? || !Truthy(staffId) {
        return None;
      }
      var invoiceId := InvoiceId(currentQueueItem.value);
      if !Truthy(invoiceId) {
        toasts := toasts + [NoInvoice];
        return None;
      }
      isProcessing := true;
      request := Some(TransactionRequest(invoiceId.value, paymentMethod, staffId.value));
      requests := requests + [request.value];
    }

    /**
     * `handlePayment` after the call settles. A VNPAY transaction with a payment URL opens
     * the URL and starts tracking; any other created transaction counts as paid and clears
     * the item; a rejection only reports. Processing ends in every case.
     */
    method FinishPayment(request: TransactionRequest, reply: TransactionReply)
      modifies this
      ensures reply.Created? && request.paymentMethod == Vnpay && Truthy(reply.paymentUrl) ==>
        State() == old(State()).(isProcessing := false, openedUrls := old(openedUrls) + [reply.paymentUrl.value],
                                 currentTransactionId := Some(reply.transactionId))
      ensures reply.Created? && !(request.paymentMethod == Vnpay && Truthy(reply.paymentUrl)) ==>
        State() == old(State()).(isProcessing := false, currentQueueItem := None, toasts := old(toasts) + [PaymentSucceeded])
      ensures reply.Rejected? ==>
        State() == old(State()).(isProcessing := false, toasts := old(toasts) + [PaymentFailed])
    {
      match reply {
        case Created(transactionId, paymentUrl) =>
          if request.paymentMethod == Vnpay && Truthy(paymentUrl) {
            openedUrls := openedUrls + [paymentUrl.value];
            currentTransactionId := Some(transactionId);
          } else {
            toasts := toasts + [PaymentSucceeded];
            currentQueueItem := None;
          }
        case Rejected =>
          toasts := toasts + [PaymentFailed];
      }
      isProcessing := false;
    }

    /**
     * A click on the pay button, which is shown only with an item and disabled while
     * processing: an enabled click runs `handlePayment`, a disabled one does nothing.
     */
    method PressPay() returns (request: Option<TransactionRequest>)
      requires currentQueueItem.Some?
      modifies this
      ensures old(isProcessing) ==> request == None && State() == old(State())
      ensures !old(isProcessing) ==>
        && request == old(PaymentRequest())
        && State() == old(State()).(
             isProcessing := request.Some?,
             toasts := old(toasts) + (if Truthy(staffId) && request.None? then [NoInvoice] else []),
             requests := old(requests) + (if request.Some? then [request.value] else []))
    {
      request := None;
      if !isProcessing {
        request := BeginPayment();
      }
    }

    /**
     * A click on the overlay's button for the panel of the last fetched `status`: "finish"
     * on success clears the item, "close" on failure and a confirmed "cancel tracking"
     * while waiting only stop tracking the transaction.
     */
    method PressOverlayButton(status: Option<string>, confirmed: bool)
      requires OverlayShown()
      modifies this
      ensures Overlay(status) == SucceededPanel ==>
        State() == old(State()).(currentTransactionId := None, currentQueueItem := None,
                                 toasts := old(toasts) + [PaymentFinished])
      ensures Overlay(status) == FailedPanel ==> State() == old(State()).(currentTransactionId := None)
      ensures Overlay(status).WaitingPanel? ==>
        State() == old(State()).(currentTransactionId := if confirmed then None else old(currentTransactionId))
      ensures PaymentPolling.QueryEnabled(currentTransactionId) <==> Overlay(status).WaitingPanel? && !confirmed
    {
      match Overlay(status)
      case SucceededPanel =>
        currentTransactionId := None;
        currentQueueItem := None;
        toasts := toasts + [PaymentFinished];
      case FailedPanel =>
        currentTransactionId := None;
      case WaitingPanel(_) =>
        if confirmed {
          currentTransactionId := None;
        }
    }

    /** The effect cleanup: disconnect only when the service reports connected. */
    method Unmount()
      requires Valid()
      modifies this, service
      ensures Valid()
      ensures QS.IsConnected(old(service.Snapshot())) ==>
        service.Snapshot() == QS.Disconnect(old(service.Snapshot())) && State() == old(State()).(wsConnected := false)
      ensures !QS.IsConnected(old(service.Snapshot())) ==>
        service.Snapshot() == old(service.Snapshot()) && State() == old(State())
    {
      var connected := service.IsConnected();
      if connected {
        service.Disconnect();
        wsConnected := false;
      }
    }
  }
}
