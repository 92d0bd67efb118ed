/**
 * The checkout's payment-result state machine: how a payment processor's
 * outcome is turned into a stored PaymentResult (or into the ESC-error
 * recovery path), and how the flow is advanced.
 *
 * The flow model is a record of optional fields held by a PaymentFlowModel
 * object; the PaymentFlow object owns it, the navigation stack and the
 * calls made to the external collaborators, recorded as a log of events.
 */
module PaymentProcessorNavigation {
  import opened Optional
  import opened PaymentModel
  import opened NavigationStack

  // Raw values of the payment-status, rejected-status-detail and payment-type enums.
  const STATUS_APPROVED := "approved"
  const STATUS_REJECTED := "rejected"
  const DETAIL_INVALID_ESC := "invalid_esc"
  const DETAIL_REJECTED_PLUGIN_PM := "rejected_plugin_pm"
  const PAYMENT_METHOD_PLUGIN := "payment_method_plugin"

  /** The status a remote payment processor reports; every case but APPROVED is a non-approval. */
  datatype RemotePaymentStatus = APPROVED | OtherStatus(caseName: string)

  /** The fields of the flow model that the handler reads or writes. */
  datatype ModelState = ModelState(
    paymentData: Option<PaymentData>,
    paymentResult: Option<PaymentResult>,
    businessResult: Option<BusinessResult>)

  /** A call into an external collaborator. */
  datatype FlowEvent =
    | NextStepExecuted(seen: ModelState)  // executeNextStep, with the model state it was called in
    | EscErrorRaised                     // paymentErrorHandler.escError

  /** What an outcome report does to the flow. */
  datatype Outcome =
    | NoPaymentData               // nothing to attach a result to: the report is dropped
    | EscRecovery                 // the stored security code is invalid: the error handler takes over
    | Completed(result: PaymentResult)

  /** The payment belongs to a payment-method plugin. */
  predicate IsPluginPayment(paymentData: PaymentData)
  {
    paymentData.paymentMethod.Some? && paymentData.paymentMethod.value.paymentTypeId == PAYMENT_METHOD_PLUGIN
  }

  /** The stored status of a remote outcome: only approved and rejected are supported. */
  function StatusString(paymentStatus: RemotePaymentStatus): (s: string)
    ensures s == STATUS_APPROVED <==> paymentStatus == APPROVED
    ensures s == STATUS_APPROVED || s == STATUS_REJECTED
  {
    if paymentStatus == APPROVED then STATUS_APPROVED else STATUS_REJECTED
  }

  /** The stored status detail of a remote outcome: plugin payments get fixed details. */
  function StatusDetailString(paymentStatus: RemotePaymentStatus, statusDetails: string, paymentData: PaymentData): (d: string)
    ensures IsPluginPayment(paymentData) ==> d == (if paymentStatus == APPROVED then "" else DETAIL_REJECTED_PLUGIN_PM)
    ensures !IsPluginPayment(paymentData) ==> d == statusDetails
  {
    if !IsPluginPayment(paymentData) then statusDetails
    else if paymentStatus == APPROVED then ""
    else DETAIL_REJECTED_PLUGIN_PM
  }

  /** Specification of `didFinishPayment(paymentStatus:statusDetails:paymentId:)`. */
  function RemoteOutcome(paymentData: Option<PaymentData>, paymentStatus: RemotePaymentStatus,
                         statusDetails: string, paymentId: Option<string>): (o: Outcome)
    ensures o.NoPaymentData? <==> paymentData.None?
    ensures o.EscRecovery? <==> paymentData.Some? && statusDetails == DETAIL_INVALID_ESC
    ensures o.Completed? ==>
      && o.result.status == StatusString(paymentStatus)
      && o.result.statusDetail == StatusDetailString(paymentStatus, statusDetails, paymentData.value)
      && o.result.paymentData == paymentData.value
      && o.result.paymentId == paymentId
      && o.result.payerEmail.None? && o.result.statementDescription.None?
  {
    match paymentData
    case None => NoPaymentData
    case Some(data) =>
      if statusDetails == DETAIL_INVALID_ESC then EscRecovery
      else Completed(PaymentResult(StatusString(paymentStatus), StatusDetailString(paymentStatus, statusDetails, data),
                                   data, None, paymentId, None))
  }

  /** Specification of `didFinishPayment(status:statusDetail:paymentId:)`: status and detail are kept verbatim. */
  function StringOutcome(paymentData: Option<PaymentData>, status: string, statusDetail: string,
                         paymentId: Option<string>): (o: Outcome)
    ensures o.NoPaymentData? <==> paymentData.None?
    ensures o.EscRecovery? <==> paymentData.Some? && statusDetail == DETAIL_INVALID_ESC
    ensures o.Completed? ==>
      o.result == PaymentResult(status, statusDetail, paymentData.value, None, paymentId, None)
  {
    match paymentData
    case None => NoPaymentData
    case Some(data) =>
      if statusDetail == DETAIL_INVALID_ESC then EscRecovery
      else Completed(PaymentResult(status, statusDetail, data, None, paymentId, None))
  }

  /** For a payment that is not a plugin's, the remote overload is the string overload fed with the collapsed status. */
  lemma RemoteIsCollapsedStringOutcome(paymentData: PaymentData, paymentStatus: RemotePaymentStatus,
                                       statusDetails: string, paymentId: Option<string>)
    requires !IsPluginPayment(paymentData)
    ensures RemoteOutcome(Some(paymentData), paymentStatus, statusDetails, paymentId)
         == StringOutcome(Some(paymentData), StatusString(paymentStatus), statusDetails, paymentId)
  {
  }

  /** For a plugin payment the detail the processor supplied makes no difference (barring the ESC signal). */
  lemma PluginDiscardsSuppliedDetail(paymentData: PaymentData, paymentStatus: RemotePaymentStatus,
                                     detail1: string, detail2: string, paymentId: Option<string>)
    requires IsPluginPayment(paymentData)
    requires detail1 != DETAIL_INVALID_ESC && detail2 != DETAIL_INVALID_ESC
    ensures RemoteOutcome(Some(paymentData), paymentStatus, detail1, paymentId)
         == RemoteOutcome(Some(paymentData), paymentStatus, detail2, paymentId)
  {
  }

  /** The flow model: the optional fields the payment flow shares between its steps. */
  class PaymentFlowModel {
    var paymentData: Option<PaymentData>
    var paymentResult: Option<PaymentResult>
    var businessResult: Option<BusinessResult>

    constructor (paymentData: Option<PaymentData>)
      ensures State() == ModelState(paymentData, None, None)
    {
      this.paymentData := paymentData;
      paymentResult := None;
      businessResult := None;
    }

    function State(): ModelState
      reads this
    {
      ModelState(paymentData, paymentResult, businessResult)
    }
  }

  /**
   * The payment flow as the handler sees it: its model, its navigation stack
   * (bottom first) and the log of calls into the step sequencer and the
   * payment error handler.
   */
  class PaymentFlow {
    const model: PaymentFlowModel
    const hasPaymentErrorHandler: bool
    var viewControllers: seq<Screen>
    var events: seq<FlowEvent>

    constructor (model: PaymentFlowModel, hasPaymentErrorHandler: bool, viewControllers: seq<Screen>)
      ensures this.model == model && this.hasPaymentErrorHandler == hasPaymentErrorHandler
      ensures this.viewControllers == viewControllers && events == []
    {
      this.model := model;
      this.hasPaymentErrorHandler := hasPaymentErrorHandler;
      this.viewControllers := viewControllers;
      events := [];
    }

    /**
     * `executeNextStep`: the step sequencer moves on. Which screens it pushes
     * or pops is its own policy; the stack it leaves is `stackAfterStep`.
     */
    method ExecuteNextStep(stackAfterStep: seq<Screen>)
      modifies this
      ensures events == old(events) + [NextStepExecuted(model.State())]
      ensures viewControllers == stackAfterStep
    {
      events := events + [NextStepExecuted(model.State())];
      viewControllers := stackAfterStep;
    }

    /** `paymentErrorHandler.escError()` */
    method EscError()
      modifies this
      ensures events == old(events) + [EscErrorRaised]
      ensures viewControllers == old(viewControllers)
    {
      events := events + [EscErrorRaised];
    }
  }

  class PaymentProcessorNavigationHandler {
    const flow: PaymentFlow

    constructor (flow: PaymentFlow)
      ensures this.flow == flow
    {
      this.flow := flow;
    }

    /** How the flow changed when an outcome report had outcome `o`. */
    twostate predicate OutcomeApplied(o: Outcome, stackAfterStep: seq<Screen>)
      reads this, flow, flow.model
    {
      match o
      case NoPaymentData =>
        && flow.model.State() == old(flow.model.State())
        && flow.events == old(flow.events)
        && flow.viewControllers == old(flow.viewControllers)
      case EscRecovery =>
        && flow.model.State() == old(flow.model.State())
        && flow.events == old(flow.events) + (if flow.hasPaymentErrorHandler then [EscErrorRaised] else [])
        && flow.viewControllers == old(flow.viewControllers)
      case Completed(result) =>
        && flow.model.State() == old(flow.model.State()).(paymentResult := Some(result))
        && flow.events == old(flow.events) + [NextStepExecuted(flow.model.State())]
        && flow.viewControllers == stackAfterStep
    }

    /** `didFinishPayment(businessResult:)`: no payment-data guard. */
    method DidFinishPaymentWithBusinessResult(businessResult: BusinessResult, stackAfterStep: seq<Screen>)
      modifies flow, flow.model
      ensures flow.model.State() == old(flow.model.State()).(businessResult := Some(businessResult))
      ensures flow.events == old(flow.events) + [NextStepExecuted(flow.model.State())]
      ensures flow.viewControllers == stackAfterStep
    {
      flow.model.businessResult := Some(businessResult);
      flow.ExecuteNextStep(stackAfterStep);
    }

    /** `didFinishPayment(paymentStatus:statusDetails:paymentId:)` */
    method DidFinishRemotePayment(paymentStatus: RemotePaymentStatus, statusDetails: string := "",
                                  paymentId: Option<string> := None, stackAfterStep: seq<Screen>)
      modifies flow, flow.model
      ensures OutcomeApplied(RemoteOutcome(old(flow.model.paymentData), paymentStatus, statusDetails, paymentId), stackAfterStep)
    {
      if flow.model.paymentData.None? {
        return;
      }
      var paymentData := flow.model.paymentData.value;

      if statusDetails == DETAIL_INVALID_ESC {
        if flow.hasPaymentErrorHandler {
          flow.EscError();
        }
        return;
      }

      var statusDetailsStr := statusDetails;

      var paymentStatusStrDefault := STATUS_REJECTED;
      if paymentStatus == APPROVED {
        paymentStatusStrDefault := STATUS_APPROVED;
      }

      var paymentMethod := flow.model.paymentData.value.paymentMethod;
      if paymentMethod.Some? && paymentMethod.value.paymentTypeId == PAYMENT_METHOD_PLUGIN {
        if paymentStatus == APPROVED {
          statusDetailsStr := "";
        } else {
          statusDetailsStr := DETAIL_REJECTED_PLUGIN_PM;
        }
      }

      var paymentResult := PaymentResult(paymentStatusStrDefault, statusDetailsStr, paymentData, None, paymentId, None);

      flow.model.paymentResult := Some(paymentResult);
      flow.ExecuteNextStep(stackAfterStep);
    }

    /** `didFinishPayment(status:statusDetail:paymentId:)` */
    method DidFinishPayment(status: string, statusDetail: string, paymentId: Option<string> := None,
                            stackAfterStep: seq<Screen>)
      modifies flow, flow.model
      ensures OutcomeApplied(StringOutcome(old(flow.model.paymentData), status, statusDetail, paymentId), stackAfterStep)
    {
      if flow.model.paymentData.None? {
        return;
      }
      var paymentData := flow.model.paymentData.value;

      if statusDetail == DETAIL_INVALID_ESC {
        if flow.hasPaymentErrorHandler {
          flow.EscError();
        }
        return;
      }

      var paymentResult := PaymentResult(status, statusDetail, paymentData, None, paymentId, None);

      flow.model.paymentResult := Some(paymentResult);
      flow.ExecuteNextStep(stackAfterStep);
    }

    /** `next()`: only advances. */
    method Next(stackAfterStep: seq<Screen>)
      modifies flow
      ensures flow.model.State() == old(flow.model.State())
      ensures flow.events == old(flow.events) + [NextStepExecuted(flow.model.State())]
      ensures flow.viewControllers == stackAfterStep
    {
      flow.ExecuteNextStep(stackAfterStep);
    }

    /**
     * `nextAndRemoveCurrentScreenFromStack()`: advances, then takes the screen
     * that was on top before advancing out of the stack the step left.
     */
    method NextAndRemoveCurrentScreenFromStack(stackAfterStep: seq<Screen>)
      modifies flow
      ensures flow.model.State() == old(flow.model.State())
      ensures flow.events == old(flow.events) + [NextStepExecuted(flow.model.State())]
      ensures old(flow.viewControllers) == [] ==> flow.viewControllers == stackAfterStep
      ensures old(flow.viewControllers) != [] ==>
        flow.viewControllers == RemoveFirst(stackAfterStep, old(flow.viewControllers)[|old(flow.viewControllers)| - 1])
    {
      if flow.viewControllers == [] {
        flow.ExecuteNextStep(stackAfterStep);
        return;
      }
      var currentViewController := flow.viewControllers[|flow.viewControllers| - 1];

      flow.ExecuteNextStep(stackAfterStep);

      RemoveAtFirstIndex(flow.viewControllers, currentViewController);
      var indexOfLastViewController := FirstIndexOf(flow.viewControllers, currentViewController);
      if indexOfLastViewController.Some? {
        flow.viewControllers := RemoveAt(flow.viewControllers, indexOfLastViewController.value);
      }
    }
  }
}
