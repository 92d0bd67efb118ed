/**
 * The security-code screen's view model: why the security code must be
 * entered again, whether the card is drawn, and what is tracked.
 */
module SecurityCode {
  import opened Optional
  import opened PaymentModel

  /** Why the security code is asked for; each case has a string raw value. */
  datatype Reason =
    | SAVED_CARD
    | INVALID_ESC
    | INVALID_FINGERPRINT
    | UNEXPECTED_TOKENIZATION_ERROR
    | ESC_DISABLED
    | ESC_CAP
    | CALL_FOR_AUTH
    | NO_REASON

  function RawValue(reason: Reason): string
  {
    match reason
    case SAVED_CARD => "saved_card"
    case INVALID_ESC => "invalid_esc"
    case INVALID_FINGERPRINT => "invalid_fingerprint"
    case UNEXPECTED_TOKENIZATION_ERROR => "unexpected_tokenization_error"
    case ESC_DISABLED => "esc_disabled"
    case ESC_CAP => "esc_cap"
    case CALL_FOR_AUTH => "call_for_auth"
    case NO_REASON => "no_reason"
  }

  /** `Reason(rawValue:)`: decoding a raw value recovers the one case that has it. */
  function ReasonFromRawValue(rawValue: string): (r: Option<Reason>)
    ensures r.Some? ==> RawValue(r.value) == rawValue
    ensures forall reason :: RawValue(reason) == rawValue ==> r == Some(reason)
  {
    if rawValue == "saved_card" then Some(SAVED_CARD)
    else if rawValue == "invalid_esc" then Some(INVALID_ESC)
    else if rawValue == "invalid_fingerprint" then Some(INVALID_FINGERPRINT)
    else if rawValue == "unexpected_tokenization_error" then Some(UNEXPECTED_TOKENIZATION_ERROR)
    else if rawValue == "esc_disabled" then Some(ESC_DISABLED)
    else if rawValue == "esc_cap" then Some(ESC_CAP)
    else if rawValue == "call_for_auth" then Some(CALL_FOR_AUTH)
    else if rawValue == "no_reason" then Some(NO_REASON)
    else None
  }

  /** The eight raw values are pairwise distinct. */
  lemma RawValueInjective(a: Reason, b: Reason)
    ensures RawValue(a) == RawValue(b) ==> a == b
  {
  }

  /** Why the stored security code (ESC) of a card was deleted. */
  datatype EscDeleteReason =
    | DeletedInvalidEsc
    | DeletedInvalidFingerprint
    | DeletedUnexpectedTokenizationError
    | DeletedEscCap
    | DeletedOther(caseName: string)  // any other delete reason

  /** The card information a screen was opened with: a full saved card, or only what a form collects. */
  datatype CardInformationForm =
    | SavedCardInformation(cardId: string)
    | FormInformation(cardBin: Option<string>, cardLastFourDigits: Option<string>)

  /** A value of a tracking property dictionary. */
  datatype TrackingValue = Text(text: string) | Group(entries: map<string, string>)

  /** The tracking constants the error event uses (paths, styles, identifiers). */
  datatype ErrorTracking = ErrorTracking(
    securityCodePath: string -> string,
    customComponentStyle: string,
    invalidCvvId: string,
    attributableToUser: string)

  class SecurityCodeViewModel {
    var paymentMethod: PaymentMethod
    var cardInfo: CardInformationForm
    var reason: Reason

    constructor (paymentMethod: PaymentMethod, cardInfo: CardInformationForm, reason: Reason)
      ensures this.paymentMethod == paymentMethod && this.cardInfo == cardInfo && this.reason == reason
    {
      this.paymentMethod := paymentMethod;
      this.cardInfo := cardInfo;
      this.reason := reason;
    }

    /** A virtual card is a credits payment method with security-code texts of its own. */
    function IsVirtualCard(): (b: bool)
      reads this
      ensures b <==> paymentMethod.creditsDisplayInfo.Some? && paymentMethod.creditsDisplayInfo.value.cvvInfo.Some?
    {
      CvvInfoOf(paymentMethod).Some?
    }

    /** The card is drawn only on a device that is not small, and never for a virtual card. */
    function ShouldShowCard(isSmallDevice: bool): (b: bool)
      reads this
      ensures b <==> !isSmallDevice && !IsVirtualCard()
      ensures b ==> GetVirtualCardTitle().None? && GetVirtualCardSubtitle().None?
    {
      !isSmallDevice && !IsVirtualCard()
    }

    function GetVirtualCardTitle(): (title: Option<string>)
      reads this
      ensures title.None? <==> !IsVirtualCard()
      ensures title.Some? ==> title.value == paymentMethod.creditsDisplayInfo.value.cvvInfo.value.title
    {
      match CvvInfoOf(paymentMethod)
      case None => None
      case Some(info) => Some(info.title)
    }

    function GetVirtualCardSubtitle(): (subtitle: Option<string>)
      reads this
      ensures subtitle.None? <==> !IsVirtualCard()
      ensures subtitle.Some? ==> subtitle.value == paymentMethod.creditsDisplayInfo.value.cvvInfo.value.message
    {
      match CvvInfoOf(paymentMethod)
      case None => None
      case Some(info) => Some(info.message)
    }

    /**
     * `getSecurityCodeReason(invalidESCReason:isCallForAuth:)`; `escEnabled` is what the
     * ESC protocol's `hasESCEnable()` answers. First match wins: call for auth, ESC
     * disabled, no delete reason, then the delete reason itself.
     */
    static function GetSecurityCodeReason(invalidESCReason: Option<EscDeleteReason>, isCallForAuth: bool := false,
                                          escEnabled: bool): (r: Reason)
      ensures r == CALL_FOR_AUTH <==> isCallForAuth
      ensures r == ESC_DISABLED <==> !isCallForAuth && !escEnabled
      ensures r == SAVED_CARD <==> !isCallForAuth && escEnabled && invalidESCReason.None?
      ensures r == INVALID_ESC <==> !isCallForAuth && escEnabled && invalidESCReason == Some(DeletedInvalidEsc)
      ensures r == INVALID_FINGERPRINT <==> !isCallForAuth && escEnabled && invalidESCReason == Some(DeletedInvalidFingerprint)
      ensures r == UNEXPECTED_TOKENIZATION_ERROR <==>
        !isCallForAuth && escEnabled && invalidESCReason == Some(DeletedUnexpectedTokenizationError)
      ensures r == ESC_CAP <==> !isCallForAuth && escEnabled && invalidESCReason == Some(DeletedEscCap)
      ensures r == NO_REASON <==> !isCallForAuth && escEnabled && invalidESCReason.Some? && invalidESCReason.value.DeletedOther?
    {
      if isCallForAuth then CALL_FOR_AUTH
      else if !escEnabled then ESC_DISABLED
      else
        match invalidESCReason
        case None => SAVED_CARD
        case Some(DeletedInvalidEsc) => INVALID_ESC
        case Some(DeletedInvalidFingerprint) => INVALID_FINGERPRINT
        case Some(DeletedUnexpectedTokenizationError) => UNEXPECTED_TOKENIZATION_ERROR
        case Some(DeletedEscCap) => ESC_CAP
        case Some(DeletedOther(_)) => NO_REASON
    }

    /** `getScreenProperties()`: the tracking properties of the screen view. */
    method GetScreenProperties() returns (properties: map<string, TrackingValue>)
      ensures properties.Keys == {"payment_method_id", "reason"} + (if cardInfo.SavedCardInformation? then {"card_id"} else {})
      ensures properties["payment_method_id"] == Text(paymentMethod.paymentIdForTracking)
      ensures properties["reason"] == Text(RawValue(reason))
      ensures "card_id" in properties <==> cardInfo.SavedCardInformation?
      ensures "card_id" in properties ==> properties["card_id"] == Text(cardInfo.cardId)
    {
      properties := map[];
      properties := properties["payment_method_id" := Text(paymentMethod.paymentIdForTracking)];
      if cardInfo.SavedCardInformation? {
        properties := properties["card_id" := Text(cardInfo.cardId)];
      }
      properties := properties["reason" := Text(RawValue(reason))];
    }

    /** `getInvalidUserInputErrorProperties(message:)`: the tracking properties of an invalid-code error. */
    method GetInvalidUserInputErrorProperties(message: string, tracking: ErrorTracking)
      returns (properties: map<string, TrackingValue>)
      ensures properties.Keys == {"path", "style", "id", "message", "attributable_to", "extra_info"}
      ensures properties["path"] == Text(tracking.securityCodePath(paymentMethod.paymentTypeId))
      ensures properties["style"] == Text(tracking.customComponentStyle)
      ensures properties["id"] == Text(tracking.invalidCvvId)
      ensures properties["message"] == Text(message)
      ensures properties["attributable_to"] == Text(tracking.attributableToUser)
      ensures properties["extra_info"] == Group(map[
        "payment_method_type" := paymentMethod.paymentTypeForTracking,
        "payment_method_id" := paymentMethod.paymentIdForTracking])
    {
      properties := map[];
      properties := properties["path" := Text(tracking.securityCodePath(paymentMethod.paymentTypeId))];
      properties := properties["style" := Text(tracking.customComponentStyle)];
      properties := properties["id" := Text(tracking.invalidCvvId)];
      properties := properties["message" := Text(message)];
      properties := properties["attributable_to" := Text(tracking.attributableToUser)];
      var extraDic: map<string, string> := map[];
      extraDic := extraDic["payment_method_type" := paymentMethod.paymentTypeForTracking];
      extraDic := extraDic["payment_method_id" := paymentMethod.paymentIdForTracking];
      properties := properties["extra_info" := Group(extraDic)];
    }
  }
}
