/**
 * The doctor's dashboard (pages/doctor/Doctor.tsx) as a view model: the React state it
 * keeps, the handlers that update it, and the calls it makes on the shared session
 * service. Toasts are recorded as a log of kinds, not as text.
 */
module DoctorDashboard {
  import opened Wrappers
  import opened QueueItems
  import D = StompDestinations
  import QS = QueueSession
  import QueueService

  datatype Toast =
    | ConnectedToQueue | ConnectFailed | PatientReceived | QueueError(text: string)
    | NoDepartment | NotConnected | FetchingNext
    | NoCurrentPatient | NoDoctor | ExaminationCompleted | CompletionFailed | MissingCompletionInfo

  /** The data of the embedded medical form. */
  datatype FormData = FormData(fields: map<string, string>)

  /** A `createResult` request: examination id, requested service id, form data and staff id. */
  datatype ResultSubmission = ResultSubmission(examId: string, serviceId: string, data: FormData, staffId: string)

  /** The calls `onConnected` makes whatever the department: items, size and errors subscriptions, then the in-progress query. */
  function CommonConnectedCalls(s: QS.Session): QS.Session {
    QS.GetInProgressItem(QS.SubscribeToErrors(QS.SubscribeToQueueSize(QS.SubscribeToQueueItems(s))))
  }

  /** The calls `onConnected` makes for a department: subscribe to its broadcast, query its size, subscribe again. */
  function DepartmentCalls(s: QS.Session, departmentId: string): QS.Session {
    QS.SubscribeToQueueBroadcast(QS.QueryQueueSize(QS.SubscribeToQueueBroadcast(s, departmentId), departmentId), departmentId)
  }

  /** The calls the `onConnected` callback makes on the service, in order. */
  function OnConnectedCalls(s: QS.Session, departmentId: Option<string>): QS.Session {
    var s1 := CommonConnectedCalls(s);
    if Truthy(departmentId) then DepartmentCalls(s1, departmentId.value) else s1
  }

  /** On an active client the common calls take three fresh ids, add the three fixed keys and ask for the in-progress item. */
  lemma CommonConnectedCallsEffect(s: QS.Session)
    requires QS.Valid(s) && QS.ClientActive(s)
    ensures var s1 := CommonConnectedCalls(s);
      && QS.Valid(s1) && QS.ClientActive(s1) && s1.nextId == s.nextId + 3
      && s1.published == s.published + [QS.Frame(D.InProcess, "")]
      && s1.subscriptions.Keys == s.subscriptions.Keys + {D.ItemsKey, D.SizeKey, D.ErrorsKey}
  {
    var a := QS.SubscribeToQueueItems(s);
    var b := QS.SubscribeToQueueSize(a);
    var c := QS.SubscribeToErrors(b);
    QS.StepPreservesValid(s, QS.CallSubscribeToQueueItems);
    QS.StepPreservesValid(a, QS.CallSubscribeToQueueSize);
    QS.StepPreservesValid(b, QS.CallSubscribeToErrors);
    QS.StepPreservesValid(c, QS.CallGetInProgressItem);
  }

  /** The department calls leave their first broadcast subscription live but untracked, past `disconnect`. */
  lemma DepartmentCallsEffect(s: QS.Session, departmentId: string)
    requires QS.Valid(s) && QS.ClientActive(s)
    ensures var t := DepartmentCalls(s, departmentId);
      var first := QS.Subscription(s.nextId, D.Broadcast(departmentId), QS.BroadcastHandler);
      && t.published == s.published + [QS.Frame(D.QueueSizeQuery, departmentId)]
      && first in t.live && first !in t.subscriptions.Values
      && first in QS.Disconnect(t).live
      && t.subscriptions.Keys == s.subscriptions.Keys + {D.BroadcastKey(departmentId)}
  {
    var q := QS.QueryQueueSize(s, departmentId);
    QS.StepPreservesValid(s, QS.CallQueryQueueSize(departmentId));
    assert QS.QueryQueueSize(QS.SubscribeToQueueBroadcast(s, departmentId), departmentId)
      == QS.SubscribeToQueueBroadcast(q, departmentId);
    QS.ResubscribeLeavesStaleSubscription(q, departmentId);
  }

  /**
   * With a department, `onConnected` subscribes to the department's broadcast twice under
   * one key: the first subscription (the one that updates the queue size) is then live on
   * the broker but no longer tracked, so `disconnect` does not unsubscribe it. It also asks
   * for the in-progress item and the queue size.
   */
  lemma OnConnectedLeavesUntrackedBroadcast(s: QS.Session, departmentId: string)
    requires QS.Valid(s) && QS.ClientActive(s) && departmentId != ""
    ensures var t := OnConnectedCalls(s, Some(departmentId));
      var first := QS.Subscription(s.nextId + 3, D.Broadcast(departmentId), QS.BroadcastHandler);
      && t.published == s.published + [QS.Frame(D.InProcess, ""), QS.Frame(D.QueueSizeQuery, departmentId)]
      && first in t.live && first !in t.subscriptions.Values
      && first in QS.Disconnect(t).live
      && t.subscriptions.Keys == s.subscriptions.Keys + {D.ItemsKey, D.SizeKey, D.ErrorsKey, D.BroadcastKey(departmentId)}
  {
    CommonConnectedCallsEffect(s);
    DepartmentCallsEffect(CommonConnectedCalls(s), departmentId);
  }

  /** The dashboard's React state. */
  datatype DoctorState = DoctorState(
    wsConnected: bool,
    queueSize: int,
    currentQueueItem: Option<QueueItem>,
    formData: Option<FormData>,
    toasts: seq<Toast>,
    submissions: seq<ResultSubmission>)

  class DoctorView {
    const service: QueueService.ExaminationFlowService
    const staffId: Option<string>        // `account.data?.staffId`
    const departmentId: Option<string>   // `staff.data?.departmentId || null`
    var wsConnected: bool
    var queueSize: int
    var currentQueueItem: Option<QueueItem>
    var formData: Option<FormData>
    var toasts: seq<Toast>
    var submissions: seq<ResultSubmission>

    ghost predicate Valid()
      reads this, service
    {
      service.Valid()
    }

    /** The React state as one value, so that each handler can state its whole effect on it. */
    function State(): DoctorState
      reads this
    {
      DoctorState(wsConnected, queueSize, currentQueueItem, formData, toasts, submissions)
    }

    constructor (service: QueueService.ExaminationFlowService, staffId: Option<string>, departmentId: Option<string>)
      requires service.Valid()
      ensures Valid() && this.service == service
      ensures this.staffId == staffId && this.departmentId == departmentId
      ensures State() == DoctorState(false, 0, None, None, [], [])
    {
      this.service := service;
      this.staffId := staffId;
      this.departmentId := departmentId;
      wsConnected, queueSize, currentQueueItem, formData := false, 0, None, None;
      toasts, submissions := [], [];
    }

    /** `!wsConnected || !!currentQueueItem`: the take-next button's `disabled`. */
    predicate TakeNextDisabled()
      reads this
    {
      !wsConnected || currentQueueItem.Some?
    }

    /** The connect effect: only with both ids, only when not yet connected and a "tokens" entry exists. */
    method ConnectEffect(hasTokens: bool)
      requires Valid()
      modifies service
      ensures Valid()
      ensures service.Snapshot() ==
        if Truthy(staffId) && Truthy(departmentId) && !QS.IsConnected(old(service.Snapshot())) && hasTokens
        then QS.Connect(old(service.Snapshot()), staffId.value)
        else old(service.Snapshot())
    {
      if Truthy(staffId) && Truthy(departmentId) {
        var already := service.IsConnected();
        if already {
          return;
        }
        if !hasTokens {
          return;
        }
        service.Connect(staffId.value);
      }
    }

    /** The `onConnected` callback given to `connect`. */
    method OnConnected()
      requires Valid()
      modifies this, service
      ensures Valid()
      ensures State() == old(State()).(wsConnected := true, toasts := old(toasts) + [ConnectedToQueue])
      ensures service.Snapshot() == OnConnectedCalls(old(service.Snapshot()), departmentId)
    {
      wsConnected := true;
      toasts := toasts + [ConnectedToQueue];
      service.SubscribeToQueueItems();
      service.SubscribeToQueueSize();
      service.SubscribeToErrors();
      service.GetInProgressItem();
      if Truthy(departmentId) {
        service.SubscribeToQueueBroadcast(departmentId.value);
        service.QueryQueueSize(departmentId.value);
        service.SubscribeToQueueBroadcast(departmentId.value);
      }
    }

    /** The `onError` callback given to `connect`. */
    method OnConnectError()
      modifies this
      ensures State() == old(State()).(wsConnected := false, toasts := old(toasts) + [ConnectFailed])
    {
      wsConnected := false;
      toasts := toasts + [ConnectFailed];
    }

    /** The queue-item callback: every received item replaces the one held. */
    method OnQueueItem(item: QueueItem)
      modifies this
      ensures State() == old(State()).(currentQueueItem := Some(item), toasts := old(toasts) + [PatientReceived])
    {
      currentQueueItem := Some(item);
      toasts := toasts + [PatientReceived];
    }

    /** The queue-size and broadcast callbacks. */
    method OnQueueSize(size: int)
      modifies this
      ensures State() == old(State()).(queueSize := size)
    {
      queueSize := size;
    }

    /** The error-queue callback. */
    method OnQueueError(text: string)
      modifies this
      ensures State() == old(State()).(toasts := old(toasts) + [QueueError(text)])
    {
      toasts := toasts + [QueueError(text)];
    }

    /** A "formChange" message from the embedded form. */
    method OnFormChange(data: FormData)
      modifies this
      ensures State() == old(State()).(formData := Some(data))
    {
      formData := Some(data);
    }

    /** `handleTakeNextPatient`: publish take-next for the department only when it is known and the session is connected. */
    method HandleTakeNextPatient()
      requires Valid()
      modifies this, service
      ensures Valid()
      ensures var published := Truthy(departmentId) && QS.IsConnected(old(service.Snapshot()));
        && service.Snapshot() == (if published then QS.TakeNextItem(old(service.Snapshot()), departmentId.value) else old(service.Snapshot()))
        && State() == old(State()).(toasts := old(toasts) +
             [if !Truthy(departmentId) then NoDepartment else if !published then NotConnected else FetchingNext])
    {
      if !Truthy(departmentId) {
        toasts := toasts + [NoDepartment];
        return;
      }
      var connected := service.IsConnected();
      if !connected {
        toasts := toasts + [NotConnected];
        return;
      }
      service.TakeNextItem(departmentId.value);
      toasts := toasts + [FetchingNext];
    }

    /**
     * A click on the take-next button. While the dashboard shows "connected" and holds no
     * item the click runs `handleTakeNextPatient`; the click itself does not close the gate,
     * so a second click before the item arrives sends a second command.
     */
    method PressTakeNext()
      requires Valid()
      modifies this, service
      ensures Valid()
      ensures old(TakeNextDisabled()) ==> service.Snapshot() == old(service.Snapshot()) && State() == old(State())
      ensures old(!TakeNextDisabled()) ==>
        var published := Truthy(departmentId) && QS.IsConnected(old(service.Snapshot()));
        && service.Snapshot() == (if published then QS.TakeNextItem(old(service.Snapshot()), departmentId.value) else old(service.Snapshot()))
        && State() == old(State()).(toasts := old(toasts) +
             [if !Truthy(departmentId) then NoDepartment else if !published then NotConnected else FetchingNext])
      ensures |service.published| > |old(service.published)| ==> old(!TakeNextDisabled())
      ensures TakeNextDisabled() == old(TakeNextDisabled())
    {
      if !TakeNextDisabled() {
        HandleTakeNextPatient();
      }
    }

    /**
     * `handleCompletePatient` up to its `await`: the guards and the result submission sent.
     * Nothing marks a submission as in flight, so the handler can start again before the
     * first one settles.
     */
    method BeginComplete(examId: string, serviceId: string, data: FormData) returns (submission: Option<ResultSubmission>)
      modifies this
      ensures submission.Some? <==> old(currentQueueItem).Some? && Truthy(staffId)
      ensures submission.Some? ==> submission.value == ResultSubmission(examId, serviceId, data, staffId.value)
      ensures State() == old(State()).(
        toasts := old(toasts) + (if old(currentQueueItem).None? then [NoCurrentPatient]
                                 else if !Truthy(staffId) then [NoDoctor] else []),
        submissions := old(submissions) + (if submission.Some? then [submission.value] else []))
    {
      if currentQueueItem.None? {
        toasts := toasts + [NoCurrentPatient];
        return None;
      }
      if !Truthy(staffId) {
        toasts := toasts + [NoDoctor];
        return None;
      }
      submission := Some(ResultSubmission(examId, serviceId, data, staffId.value));
      submissions := submissions + [submission.value];
    }

    /**
     * `handleCompletePatient` after the submission settles. Success clears whatever item and
     * form data are held at that moment, which need not be the ones submitted.
     */
    method FinishComplete(accepted: bool)
      modifies this
      ensures accepted ==>
        State() == old(State()).(currentQueueItem := None, formData := None, toasts := old(toasts) + [ExaminationCompleted])
      ensures !accepted ==> State() == old(State()).(toasts := old(toasts) + [CompletionFailed])
    {
      if accepted {
        toasts := toasts + [ExaminationCompleted];
        currentQueueItem := None;
        formData := None;
      } else {
        toasts := toasts + [CompletionFailed];
      }
    }

    /**
     * A click on the complete button, which is shown only while an item is held and is never
     * disabled: every click with complete information sends the held item's result.
     */
    method PressComplete() returns (submission: Option<ResultSubmission>)
      requires currentQueueItem.Some?
      modifies this
      ensures var item := old(currentQueueItem.value);
        var complete := Truthy(ExaminationId(item)) && Truthy(RequestedServiceId(item));
        && (submission.Some? <==> complete && Truthy(staffId))
        && (submission.Some? ==> submission.value == ResultSubmission(ExaminationId(item).value,
              RequestedServiceId(item).value, old(formData).GetOr(FormData(map[])), staffId.value))
        && State() == old(State()).(
             toasts := old(toasts) + (if !complete then [MissingCompletionInfo]
                                      else if !Truthy(staffId) then [NoDoctor] else []),
             submissions := old(submissions) + (if submission.Some? then [submission.value] else []))
    {
      var item := currentQueueItem.value;
      var examId := ExaminationId(item);
      var serviceId := RequestedServiceId(item);
      if Truthy(examId) && Truthy(serviceId) {
        submission := BeginComplete(examId.value, serviceId.value, formData.GetOr(FormData(map[])));
      } else {
        submission := None;
        toasts := toasts + [MissingCompletionInfo];
      }
    }

    /** The effect cleanup: disconnect only when the service reports connected. */
    method Unmount()
      requires Valid()
      modifies this, service
      ensures Valid()
      ensures QS.IsConnected(old(service.Snapshot())) ==>
        service.Snapshot() == QS.Disconnect(old(service.Snapshot())) && State() == old(State()).(wsConnected := false)
      ensures !QS.IsConnected(old(service.Snapshot())) ==>
        service.Snapshot() == old(service.Snapshot()) && State() == old(State())
    {
      var connected := service.IsConnected();
      if connected {
        service.Disconnect();
        wsConnected := false;
      }
    }
  }

  /**
   * Two clicks on the complete button before the first submission settles, with a new item
   * pushed in between: the same result is sent twice, and the first success clears the new
   * item, whose result was never sent.
   */
  method CompletionDuringAwait(staffId: string, first: QueueItem, second: QueueItem)
    returns (submissions: seq<ResultSubmission>, heldAtSettle: Option<QueueItem>, held: Option<QueueItem>)
    requires staffId != "" && Truthy(ExaminationId(first)) && Truthy(RequestedServiceId(first))
    ensures |submissions| == 2 && submissions[0] == submissions[1]
    ensures submissions[0] == ResultSubmission(ExaminationId(first).value, RequestedServiceId(first).value,
      FormData(map[]), staffId)
    ensures heldAtSettle == Some(second) && held == None
  {
    var service := new QueueService.ExaminationFlowService();
    var view := new DoctorView(service, Some(staffId), None);
    view.OnQueueItem(first);
    var one := view.PressComplete();
    var two := view.PressComplete();
    view.OnQueueItem(second);
    heldAtSettle := view.currentQueueItem;
    view.FinishComplete(true);
    submissions, held := view.submissions, view.currentQueueItem;
  }
}
