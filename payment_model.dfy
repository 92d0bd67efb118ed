/**
 * Records of the checkout domain that the navigation handler and the
 * security-code view model share. Only the parts the modelled logic looks at
 * are spelled out; the rest of each record is an opaque value.
 */
module PaymentModel {
  import opened Optional

  /** What a payment-data record holds besides its payment method (amount, payer, issuer, ...). */
  type PaymentDetails(==)

  /** The business result a custom payment processor may hand back. */
  type BusinessResult(==)

  /** A view controller on the navigation stack; stack entries are compared by identity. */
  class Screen {}

  /** The `cvvInfo` of a credits payment method: the texts of the virtual card. */
  datatype CvvInfo = CvvInfo(title: string, message: string)

  datatype CreditsDisplayInfo = CreditsDisplayInfo(cvvInfo: Option<CvvInfo>)

  /**
   * A payment method. `paymentIdForTracking` and `paymentTypeForTracking` stand for
   * what its tracking getters return.
   */
  datatype PaymentMethod = PaymentMethod(
    id: string,
    paymentTypeId: string,
    creditsDisplayInfo: Option<CreditsDisplayInfo>,
    paymentIdForTracking: string,
    paymentTypeForTracking: string)

  datatype PaymentData = PaymentData(paymentMethod: Option<PaymentMethod>, details: PaymentDetails)

  /** The result of one payment attempt, built once by the navigation handler. */
  datatype PaymentResult = PaymentResult(
    status: string,
    statusDetail: string,
    paymentData: PaymentData,
    payerEmail: Option<string>,
    paymentId: Option<string>,
    statementDescription: Option<string>)

  /** `paymentMethod.creditsDisplayInfo?.cvvInfo` */
  function CvvInfoOf(paymentMethod: PaymentMethod): Option<CvvInfo>
  {
    match paymentMethod.creditsDisplayInfo
    case None => None
    case Some(info) => info.cvvInfo
  }
}
