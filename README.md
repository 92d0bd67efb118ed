# Payment-result handling of the MercadoPago iOS checkout, in Dafny

This project models three non-UI pieces of the MercadoPago iOS checkout SDK (px-ios):

- **The payment processor navigation handler** (`PXPaymentProcessorNavigationHandler`). This is the checkout's
  result state machine. When a payment processor reports an outcome, the handler first checks that the flow model
  holds payment data. If the status detail is `invalid_esc`, it hands over to the payment error handler. Otherwise
  it collapses the status to `approved` or `rejected` and overrides the detail for payment-method plugins. It then
  stores a `PaymentResult` in the flow model and advances the flow exactly once. It can also advance and then take
  the screen that was on top out of the navigation stack.
- **The security-code view model** (`PXSecurityCodeViewModel`). It decides why the security code must be entered
  again (an eight-case `Reason` with string raw values, resolved in priority order). It also decides whether the
  card is drawn and whether the card is virtual, and it builds the screen's tracking properties.
- **`TransactionDetails`**. This is a record of seven optional fields, read from and written to a JSON dictionary.

Files:

- `optional.dfy`: `Option`, for Swift optionals.
- `payment_model.dfy`: the shared records (`PaymentMethod`, `PaymentData`, `PaymentResult`) and the screen class.
- `navigation_stack.dfy`: the navigation stack as a sequence, with `index(of:)`, `remove(at:)` and a reference definition of "remove the first occurrence".
- `payment_navigation.dfy`: specification functions for the outcome reports, and three classes:
  - `PaymentFlowModel` holds the model fields `paymentData`, `paymentResult` and `businessResult`.
  - `PaymentFlow` holds the model, the navigation stack and a log of calls made to the step sequencer (`executeNextStep`) and the error handler (`escError`).
  - `PaymentProcessorNavigationHandler` has the handler's methods.
- `security_code.dfy`: `Reason`, the ESC delete reasons, and the view-model class.
- `transaction_details.dfy`: the JSON value type, the specification of both conversions, and the `TransactionDetails` class.

External effects are modelled as follows:

- `executeNextStep` is recorded as an event. The event carries the model state at the moment of the call, which shows that the result was stored before the flow advanced.
- The step sequencer may push or pop screens. The stack it leaves is a parameter (`stackAfterStep`) of every method that advances.
- The ESC switch (`hasESCEnable()`) and the small-device test (`UIDevice.isSmallDevice()`) are boolean parameters.
- The JSON helpers (`attemptParseToDouble`, `attemptParseToString`, `FinancialInstitution.fromJSON`) are function-valued fields of a `JsonHandler` parameter. The model assumes nothing about them except where a lemma states a condition on them.

Two details of the handler:

- Only the `RemotePaymentStatus` overload collapses the status to approved or rejected. The overload that takes status strings stores status and detail verbatim (`PXPaymentProcessorNavigationHandler.swift` lines 60-75).
- `escError` is called through the optional `paymentErrorHandler` (line 31), so nothing is called when no handler is set.

## Model

| member | source | states |
|---|---|---|
| `PaymentProcessorNavigation.StatusString` | MercadoPagoSDK/MercadoPagoSDK/Flows/PaymentFlow/PXPaymentProcessorNavigationHandler.swift:37-41 | the stored status is `approved` if and only if the processor status is APPROVED; every other status is stored as `rejected` |
| `PaymentProcessorNavigation.StatusDetailString` | MercadoPagoSDK/MercadoPagoSDK/Flows/PaymentFlow/PXPaymentProcessorNavigationHandler.swift:35-52 | for a plugin payment type the detail is `""` when approved and `rejected_plugin_pm` otherwise, whatever was supplied; for any other payment (or none) the supplied detail is kept |
| `PaymentProcessorNavigation.RemoteOutcome` | MercadoPagoSDK/MercadoPagoSDK/Flows/PaymentFlow/PXPaymentProcessorNavigationHandler.swift:24-58 | no payment data means the report is dropped, even for `invalid_esc`; with payment data, `invalid_esc` (and only it) goes to ESC recovery; otherwise the result carries the collapsed status, the overridden detail, the current payment data and the given payment id, with nil payer email and statement description |
| `PaymentProcessorNavigation.StringOutcome` | MercadoPagoSDK/MercadoPagoSDK/Flows/PaymentFlow/PXPaymentProcessorNavigationHandler.swift:60-75 | same guard and ESC short-circuit; otherwise the result stores status and detail verbatim, with the current payment data and the given payment id |
| `PaymentProcessorNavigation.RemoteIsCollapsedStringOutcome` | MercadoPagoSDK/MercadoPagoSDK/Flows/PaymentFlow/PXPaymentProcessorNavigationHandler.swift:24-75 | for a payment that is not a plugin's, the remote overload behaves as the string overload given the collapsed status string |
| `PaymentProcessorNavigation.PluginDiscardsSuppliedDetail` | MercadoPagoSDK/MercadoPagoSDK/Flows/PaymentFlow/PXPaymentProcessorNavigationHandler.swift:43-52 | for a plugin payment, two reports that differ only in their supplied detail (neither `invalid_esc`) have the same outcome |
| `PaymentProcessorNavigation.PaymentFlow.ExecuteNextStep` | MercadoPagoSDK/MercadoPagoSDK/Flows/PaymentFlow/PXPaymentProcessorNavigationHandler.swift:78 | a call to the step sequencer is logged once, with the model state it saw, and leaves the stack the sequencer chose |
| `PaymentProcessorNavigation.PaymentFlow.EscError` | MercadoPagoSDK/MercadoPagoSDK/Flows/PaymentFlow/PXPaymentProcessorNavigationHandler.swift:31 | a call to the payment error handler is logged once and leaves the stack alone |
| `PaymentProcessorNavigation.PaymentProcessorNavigationHandler.constructor` | MercadoPagoSDK/MercadoPagoSDK/Flows/PaymentFlow/PXPaymentProcessorNavigationHandler.swift:15-17 | the handler works on the flow it was created with |
| `PaymentProcessorNavigation.PaymentProcessorNavigationHandler.DidFinishPaymentWithBusinessResult` | MercadoPagoSDK/MercadoPagoSDK/Flows/PaymentFlow/PXPaymentProcessorNavigationHandler.swift:19-22 | without any payment-data guard: only `businessResult` changes, then the flow advances exactly once, seeing the new business result |
| `PaymentProcessorNavigation.PaymentProcessorNavigationHandler.DidFinishRemotePayment` | MercadoPagoSDK/MercadoPagoSDK/Flows/PaymentFlow/PXPaymentProcessorNavigationHandler.swift:24-58 | the flow changes as `RemoteOutcome` says: when dropped, nothing changes and nothing is called; on ESC recovery, the model and stack stay, and `escError` is called once when an error handler exists while no step is executed; on completion, only `paymentResult` changes, then the flow advances exactly once, after the store |
| `PaymentProcessorNavigation.PaymentProcessorNavigationHandler.DidFinishPayment` | MercadoPagoSDK/MercadoPagoSDK/Flows/PaymentFlow/PXPaymentProcessorNavigationHandler.swift:60-75 | the same three cases, following `StringOutcome` |
| `PaymentProcessorNavigation.PaymentProcessorNavigationHandler.Next` | MercadoPagoSDK/MercadoPagoSDK/Flows/PaymentFlow/PXPaymentProcessorNavigationHandler.swift:77-79 | advances exactly once and changes no model field |
| `PaymentProcessorNavigation.PaymentProcessorNavigationHandler.NextAndRemoveCurrentScreenFromStack` | MercadoPagoSDK/MercadoPagoSDK/Flows/PaymentFlow/PXPaymentProcessorNavigationHandler.swift:81-92 | advances exactly once, changing no model field; with an empty stack it only advances; otherwise the final stack is the stack after the step with the first occurrence of the former top screen removed, if it is still there |
| `NavigationStack.FirstIndexOf` | MercadoPagoSDK/MercadoPagoSDK/Flows/PaymentFlow/PXPaymentProcessorNavigationHandler.swift:89 | `index(of:)` finds nothing exactly when the screen is absent, and otherwise the position of its first occurrence |
| `NavigationStack.RemoveAt` | MercadoPagoSDK/MercadoPagoSDK/Flows/PaymentFlow/PXPaymentProcessorNavigationHandler.swift:90 | `remove(at:)` shortens the stack by one, keeps the entries below the index and shifts those above it down by one |
| `NavigationStack.RemoveAtFirstIndex` | MercadoPagoSDK/MercadoPagoSDK/Flows/PaymentFlow/PXPaymentProcessorNavigationHandler.swift:89-91 | looking the screen up and removing it at that index is removing its first occurrence; when it is absent the stack is unchanged |
| `NavigationStack.RemoveFirstMultiset` | MercadoPagoSDK/MercadoPagoSDK/Flows/PaymentFlow/PXPaymentProcessorNavigationHandler.swift:81-92 | the removal takes out exactly one copy of the former top screen when present and no other entry |
| `NavigationStack.RemoveFirstKeepsOthers` | MercadoPagoSDK/MercadoPagoSDK/Flows/PaymentFlow/PXPaymentProcessorNavigationHandler.swift:81-92 | all entries other than the removed screen keep their relative order |
| `SecurityCode.RawValue` | MercadoPagoSDK/MercadoPagoSDK/UI/SecurityCode/PXSecurityCodeViewModel.swift:13-22 | the raw value of each of the eight reasons, as declared; it is also the `reason` tracking value of line 98 |
| `SecurityCode.ReasonFromRawValue` | MercadoPagoSDK/MercadoPagoSDK/UI/SecurityCode/PXSecurityCodeViewModel.swift:13-22 | decoding a raw value gives back a reason whose raw value it is, and decoding the raw value of any reason recovers that reason |
| `SecurityCode.RawValueInjective` | MercadoPagoSDK/MercadoPagoSDK/UI/SecurityCode/PXSecurityCodeViewModel.swift:13-22 | the eight raw values are pairwise distinct |
| `SecurityCode.SecurityCodeViewModel.constructor` | MercadoPagoSDK/MercadoPagoSDK/UI/SecurityCode/PXSecurityCodeViewModel.swift:33-40 | the view model holds the payment method, card information and reason it was given |
| `SecurityCode.SecurityCodeViewModel.IsVirtualCard` | MercadoPagoSDK/MercadoPagoSDK/UI/SecurityCode/PXSecurityCodeViewModel.swift:49-51 | the card is virtual exactly when the payment method has credits display info with a `cvvInfo` |
| `SecurityCode.SecurityCodeViewModel.ShouldShowCard` | MercadoPagoSDK/MercadoPagoSDK/UI/SecurityCode/PXSecurityCodeViewModel.swift:45-47 | the card is shown exactly when the device is not small and the card is not virtual; when it is shown there are no virtual-card texts |
| `SecurityCode.SecurityCodeViewModel.GetVirtualCardTitle` | MercadoPagoSDK/MercadoPagoSDK/UI/SecurityCode/PXSecurityCodeViewModel.swift:53-55 | nil exactly when the card is not virtual, otherwise the `cvvInfo` title |
| `SecurityCode.SecurityCodeViewModel.GetVirtualCardSubtitle` | MercadoPagoSDK/MercadoPagoSDK/UI/SecurityCode/PXSecurityCodeViewModel.swift:57-59 | nil exactly when the card is not virtual, otherwise the `cvvInfo` message |
| `SecurityCode.SecurityCodeViewModel.GetSecurityCodeReason` | MercadoPagoSDK/MercadoPagoSDK/UI/SecurityCode/PXSecurityCodeViewModel.swift:64-87 | for each of the eight reasons, the exact inputs that produce it: CALL_FOR_AUTH exactly when it is a call for authorisation; ESC_DISABLED exactly when not, and ESC is off, whatever the delete reason; SAVED_CARD exactly when ESC is on and there is no delete reason; the four named delete reasons map to the same-named reason and every other delete reason to NO_REASON |
| `SecurityCode.SecurityCodeViewModel.GetScreenProperties` | MercadoPagoSDK/MercadoPagoSDK/UI/SecurityCode/PXSecurityCodeViewModel.swift:92-100 | the keys are `payment_method_id` and `reason` always, and `card_id` exactly when the card information is a full saved card; `reason` holds the reason's raw value, `payment_method_id` the tracking id and `card_id` the card id |
| `SecurityCode.SecurityCodeViewModel.GetInvalidUserInputErrorProperties` | MercadoPagoSDK/MercadoPagoSDK/UI/SecurityCode/PXSecurityCodeViewModel.swift:102-114 | the keys are exactly `path`, `style`, `id`, `message`, `attributable_to` and `extra_info`; `message` holds the given message, and `extra_info` holds exactly the payment type and payment id used for tracking |
| `TransactionDetailsJson.Encode` | MercadoPagoSDK/MercadoPagoSDK/TransactionDetails.swift:53-83 | the keys are a subset of the seven field names; each amount or URL key is present exactly when its field is non-nil and holds that value; `financial_institution` is present exactly when an institution with an id whose text is non-empty is present, and holds that text |
| `TransactionDetailsJson.Decode` | MercadoPagoSDK/MercadoPagoSDK/TransactionDetails.swift:24-48 | the specification of fromJSON: each scalar field is what its parsing helper gives for the lookup of its own key alone (nil for a missing key); the institution is set only when its key holds a dictionary, and is then what `FinancialInstitution.fromJSON` gives for it |
| `TransactionDetailsJson.EmptyEncodesToEmptyObject` | MercadoPagoSDK/MercadoPagoSDK/TransactionDetails.swift:53-83 | a record with every field nil (as `init()` makes it) serialises to the empty dictionary |
| `TransactionDetailsJson.DecodeSetsOnlyParsedFields` | MercadoPagoSDK/MercadoPagoSDK/TransactionDetails.swift:24-48 | when the helpers find nothing for a missing key, a field is set exactly when its key is present and its value parses; the institution is set exactly when its key holds a dictionary |
| `TransactionDetailsJson.DecodeIgnoresUnknownKeys` | MercadoPagoSDK/MercadoPagoSDK/TransactionDetails.swift:24-48 | keys other than the seven field names have no effect on fromJSON |
| `TransactionDetailsJson.DecodeEmptyObject` | MercadoPagoSDK/MercadoPagoSDK/TransactionDetails.swift:24-48 | fromJSON of the empty dictionary leaves every field nil |
| `TransactionDetailsJson.FinancialInstitutionIsNotRoundTripped` | MercadoPagoSDK/MercadoPagoSDK/TransactionDetails.swift:32-67 | after fromJSON(toJSON(t)) the institution is nil whatever the helpers do: toJSON writes it as a string and fromJSON reads only a dictionary |
| `TransactionDetailsJson.RoundTrip` | MercadoPagoSDK/MercadoPagoSDK/TransactionDetails.swift:24-83 | when the helpers return a value of their own type unchanged (and nothing for a missing key), fromJSON(toJSON(t)) restores all six scalar fields and drops the institution |
| `TransactionDetailsJson.TransactionDetails.constructor` | MercadoPagoSDK/MercadoPagoSDK/TransactionDetails.swift:20-22 | `init()` leaves all seven fields nil |
| `TransactionDetailsJson.TransactionDetails.WithFinancialInstitution` | MercadoPagoSDK/MercadoPagoSDK/TransactionDetails.swift:49-51 | `init(financialInstitution:)` sets only the institution and leaves the six other fields nil |
| `TransactionDetailsJson.TransactionDetails.FromJson` | MercadoPagoSDK/MercadoPagoSDK/TransactionDetails.swift:24-48 | never fails, returns a new object, and fills it field by field as the decoding specification says |
| `TransactionDetailsJson.TransactionDetails.ToJson` | MercadoPagoSDK/MercadoPagoSDK/TransactionDetails.swift:53-83 | the dictionary built by successive insertions is exactly the encoding of the object's fields |

## Left out

- `showLoading` and `hideLoading` are left out. They only delegate to the presenter of the navigation handler.
- The handler's `flow` is optional in the source, but it is set only once, to a non-nil value by the initialiser, and it is private. The model therefore treats it as always present.
- The navigation stack is `flow.pxNavigationHandler.navigationController.viewControllers` in the source. Here it is a field `viewControllers` of the flow.
- The step sequencer's policy (which screen comes next) is not modelled. Its effect on the stack is an arbitrary stack passed in as `stackAfterStep`.
- `PaymentFlow.ExecuteNextStep` and `PaymentFlow.EscError` stand for collaborators whose bodies are not part of this model. Both are assumed not to change the flow model's `paymentData`, `paymentResult` and `businessResult`; `escError` is also assumed to leave the navigation stack alone. The handler contracts that say "no model field changes" (`Next`, `NextAndRemoveCurrentScreenFromStack`), "only `paymentResult` changes" (`DidFinishRemotePayment`, `DidFinishPayment` on completion) and "the model and stack stay" (the ESC case) rest on that assumption. What the handler itself writes is stated independently by the model state recorded in each `NextStepExecuted` event.
- The cases of `RemotePaymentStatus` and `PXESCDeleteReason` are not part of this model. The model keeps APPROVED and any other case for the first. For the second it keeps the four delete reasons the switch names, plus any other case.
- The raw values `approved`, `rejected`, `invalid_esc`, `rejected_plugin_pm` and `payment_method_plugin` come from enums that are not part of this model. They are written as constants.
- `cardUI`, `cardData` and the weak `internetProtocol` of the security-code view model are left out. No modelled logic reads them.
- The card information protocols become a tagged union: a full saved card (the `PXCardInformation` cast succeeds) or form-only data.
- `getPaymentIdForTracking()` and `getPaymentTypeForTracking()` are not part of this model. Their results are fields of the payment method.
- The tracking constants (`TrackingPaths`, `Tracking.Style`, `Tracking.Error`) are not part of this model. They are passed in as an `ErrorTracking` record.
- Tracking values are typed: a string, or a dictionary of strings.
- Amounts (`Double`) are an opaque type. They are never computed on or formatted.
- The financial institution's identifier is kept only as the text `String(describing:)` gives for it. Its other fields are opaque.
- `HeaderCongratsTableViewCell`, `PXOneTapViewController` and the `CardInformation` protocol declarations are left out. They are rendering code or declarations without behaviour.
