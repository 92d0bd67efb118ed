/**
 * TransactionDetails: a record of seven optional fields and its conversion
 * from and to a JSON dictionary. Amounts are carried through and never
 * computed on; the JSON parsing helpers are supplied as functions.
 */
module TransactionDetailsJson {
  import opened Optional

  /** A monetary amount (a Double in the source); opaque here. */
  type Amount(==, !new)

  /** What a financial institution holds besides its identifier. */
  type InstitutionDetails(==)

  datatype Json =
    | JNull
    | JBool(boolean: bool)
    | JNumber(number: Amount)
    | JString(text: string)
    | JArray(items: seq<Json>)
    | JObject(members: map<string, Json>)

  type JsonObject = map<string, Json>

  /** The institution's identifier is kept in the textual form `String(describing:)` gives it. */
  datatype FinancialInstitution = FinancialInstitution(financialInstitutionId: Option<string>, details: InstitutionDetails)

  /**
   * The parsing helpers fromJSON relies on: `JSONHandler.attemptParseToDouble`,
   * `JSONHandler.attemptParseToString` (both given the result of a dictionary
   * lookup, nil for a missing key) and `FinancialInstitution.fromJSON`.
   */
  datatype JsonHandler = JsonHandler(
    attemptParseToDouble: Option<Json> -> Option<Amount>,
    attemptParseToString: Option<Json> -> Option<string>,
    institutionFromJson: JsonObject -> FinancialInstitution)

  const COUPON_AMOUNT := "coupon_amount"
  const EXTERNAL_RESOURCE_URL := "external_resource_url"
  const FINANCIAL_INSTITUTION := "financial_institution"
  const INSTALLMENT_AMOUNT := "installment_amount"
  const NET_RECEIVED_AMOUNT := "net_received_amount"
  const OVERPAID_AMOUNT := "overpaid_amount"
  const TOTAL_PAID_AMOUNT := "total_paid_amount"

  const FieldKeys: set<string> :=
    {COUPON_AMOUNT, EXTERNAL_RESOURCE_URL, FINANCIAL_INSTITUTION, INSTALLMENT_AMOUNT,
     NET_RECEIVED_AMOUNT, OVERPAID_AMOUNT, TOTAL_PAID_AMOUNT}

  /** The seven fields of a TransactionDetails object, as a value. */
  datatype Fields = Fields(
    couponAmount: Option<Amount>,
    externalResourceUrl: Option<string>,
    financialInstitution: Option<FinancialInstitution>,
    installmentAmount: Option<Amount>,
    netReceivedAmount: Option<Amount>,
    overpaidAmount: Option<Amount>,
    totalPaidAmount: Option<Amount>)

  const NoFields := Fields(None, None, None, None, None, None, None)

  /** `json[key]`: nil when the key is missing. */
  function Lookup(json: JsonObject, key: string): Option<Json>
  {
    if key in json then Some(json[key]) else None
  }

  /** `String(describing: financialInstitution?.financialInstitutionId)`, when there is an identifier. */
  function InstitutionIdText(institution: Option<FinancialInstitution>): Option<string>
  {
    match institution
    case None => None
    case Some(fi) => fi.financialInstitutionId
  }

  function AmountEntry(amount: Option<Amount>): Option<Json>
  {
    match amount
    case None => None
    case Some(a) => Some(JNumber(a))
  }

  function TextEntry(text: Option<string>): Option<Json>
  {
    match text
    case None => None
    case Some(s) => Some(JString(s))
  }

  function InstitutionEntry(institution: Option<FinancialInstitution>): Option<Json>
  {
    match InstitutionIdText(institution)
    case Some(id) => if |id| >= 1 then Some(JString(id)) else None
    case None => None
  }

  /** The entry toJSON writes under `key` for fields `f`, if any. */
  function EntryFor(f: Fields, key: string): Option<Json>
  {
    if key == COUPON_AMOUNT then AmountEntry(f.couponAmount)
    else if key == EXTERNAL_RESOURCE_URL then TextEntry(f.externalResourceUrl)
    else if key == FINANCIAL_INSTITUTION then InstitutionEntry(f.financialInstitution)
    else if key == INSTALLMENT_AMOUNT then AmountEntry(f.installmentAmount)
    else if key == NET_RECEIVED_AMOUNT then AmountEntry(f.netReceivedAmount)
    else if key == OVERPAID_AMOUNT then AmountEntry(f.overpaidAmount)
    else if key == TOTAL_PAID_AMOUNT then AmountEntry(f.totalPaidAmount)
    else None
  }

  /** Specification of `toJSON()`: one entry per present field, and nothing else. */
  function Encode(f: Fields): (obj: JsonObject)
    ensures obj.Keys <= FieldKeys
    ensures COUPON_AMOUNT in obj <==> f.couponAmount.Some?
    ensures COUPON_AMOUNT in obj ==> obj[COUPON_AMOUNT] == JNumber(f.couponAmount.value)
    ensures EXTERNAL_RESOURCE_URL in obj <==> f.externalResourceUrl.Some?
    ensures EXTERNAL_RESOURCE_URL in obj ==> obj[EXTERNAL_RESOURCE_URL] == JString(f.externalResourceUrl.value)
    ensures FINANCIAL_INSTITUTION in obj <==>
      f.financialInstitution.Some? && f.financialInstitution.value.financialInstitutionId.Some?
      && |f.financialInstitution.value.financialInstitutionId.value| >= 1
    ensures FINANCIAL_INSTITUTION in obj ==>
      obj[FINANCIAL_INSTITUTION] == JString(f.financialInstitution.value.financialInstitutionId.value)
    ensures INSTALLMENT_AMOUNT in obj <==> f.installmentAmount.Some?
    ensures INSTALLMENT_AMOUNT in obj ==> obj[INSTALLMENT_AMOUNT] == JNumber(f.installmentAmount.value)
    ensures NET_RECEIVED_AMOUNT in obj <==> f.netReceivedAmount.Some?
    ensures NET_RECEIVED_AMOUNT in obj ==> obj[NET_RECEIVED_AMOUNT] == JNumber(f.netReceivedAmount.value)
    ensures OVERPAID_AMOUNT in obj <==> f.overpaidAmount.Some?
    ensures OVERPAID_AMOUNT in obj ==> obj[OVERPAID_AMOUNT] == JNumber(f.overpaidAmount.value)
    ensures TOTAL_PAID_AMOUNT in obj <==> f.totalPaidAmount.Some?
    ensures TOTAL_PAID_AMOUNT in obj ==> obj[TOTAL_PAID_AMOUNT] == JNumber(f.totalPaidAmount.value)
  {
    EncodeKeys(f, FieldKeys)
  }

  /** Specification of `fromJSON(_:)`: each field comes from its own key alone. */
  function Decode(json: JsonObject, handler: JsonHandler): (f: Fields)
    ensures f.couponAmount == handler.attemptParseToDouble(Lookup(json, COUPON_AMOUNT))
    ensures f.externalResourceUrl == handler.attemptParseToString(Lookup(json, EXTERNAL_RESOURCE_URL))
    ensures f.installmentAmount == handler.attemptParseToDouble(Lookup(json, INSTALLMENT_AMOUNT))
    ensures f.netReceivedAmount == handler.attemptParseToDouble(Lookup(json, NET_RECEIVED_AMOUNT))
    ensures f.overpaidAmount == handler.attemptParseToDouble(Lookup(json, OVERPAID_AMOUNT))
    ensures f.totalPaidAmount == handler.attemptParseToDouble(Lookup(json, TOTAL_PAID_AMOUNT))
    ensures f.financialInstitution.Some? <==> FINANCIAL_INSTITUTION in json && json[FINANCIAL_INSTITUTION].JObject?
    ensures f.financialInstitution.Some? ==>
      f.financialInstitution.value == handler.institutionFromJson(json[FINANCIAL_INSTITUTION].members)
  {
    Fields(
      handler.attemptParseToDouble(Lookup(json, COUPON_AMOUNT)),
      handler.attemptParseToString(Lookup(json, EXTERNAL_RESOURCE_URL)),
      match Lookup(json, FINANCIAL_INSTITUTION)
      case Some(JObject(members)) => Some(handler.institutionFromJson(members))
      case _ => None,
      handler.attemptParseToDouble(Lookup(json, INSTALLMENT_AMOUNT)),
      handler.attemptParseToDouble(Lookup(json, NET_RECEIVED_AMOUNT)),
      handler.attemptParseToDouble(Lookup(json, OVERPAID_AMOUNT)),
      handler.attemptParseToDouble(Lookup(json, TOTAL_PAID_AMOUNT)))
  }

  /** The helpers find nothing in a missing key. */
  predicate NilInNilOut(handler: JsonHandler)
  {
    handler.attemptParseToDouble(None).None? && handler.attemptParseToString(None).None?
  }

  /** The helpers give back a JSON value of their own type unchanged, and nothing for a missing key. */
  ghost predicate ParsesOwnType(handler: JsonHandler)
  {
    && NilInNilOut(handler)
    && (forall a :: handler.attemptParseToDouble(Some(JNumber(a))) == Some(a))
    && (forall s :: handler.attemptParseToString(Some(JString(s))) == Some(s))
  }

  /** The part of the encoding that lies under `keys`. */
  function EncodeKeys(f: Fields, keys: set<string>): JsonObject
  {
    map key | key in keys && EntryFor(f, key).Some? :: EntryFor(f, key).value
  }

  /** `obj` with `entry` stored under `key` when there is one. */
  function Put(obj: JsonObject, key: string, entry: Option<Json>): JsonObject
  {
    match entry
    case None => obj
    case Some(value) => obj[key := value]
  }

  /** Encoding one more key is one more conditional insertion. */
  lemma EncodeKeysStep(f: Fields, keys: set<string>, key: string)
    ensures EncodeKeys(f, keys + {key}) == Put(EncodeKeys(f, keys), key, EntryFor(f, key))
  {
  }

  /** An object built with `init()` serialises to the empty dictionary. */
  lemma EmptyEncodesToEmptyObject()
    ensures Encode(NoFields) == map[]
  {
  }

  /** fromJSON reads only the seven keys: any other key is ignored. */
  lemma DecodeIgnoresUnknownKeys(json: JsonObject, handler: JsonHandler)
    ensures Decode(json, handler) == Decode(map key | key in json && key in FieldKeys :: json[key], handler)
  {
  }

  /** A field is set exactly when its key is present and its value parses; the institution only from a dictionary. */
  lemma DecodeSetsOnlyParsedFields(json: JsonObject, handler: JsonHandler)
    requires NilInNilOut(handler)
    ensures var f := Decode(json, handler);
      && (f.couponAmount.Some? <==>
            COUPON_AMOUNT in json && handler.attemptParseToDouble(Some(json[COUPON_AMOUNT])).Some?)
      && (f.externalResourceUrl.Some? <==>
            EXTERNAL_RESOURCE_URL in json && handler.attemptParseToString(Some(json[EXTERNAL_RESOURCE_URL])).Some?)
      && (f.financialInstitution.Some? <==>
            FINANCIAL_INSTITUTION in json && json[FINANCIAL_INSTITUTION].JObject?)
      && (f.installmentAmount.Some? <==>
            INSTALLMENT_AMOUNT in json && handler.attemptParseToDouble(Some(json[INSTALLMENT_AMOUNT])).Some?)
      && (f.netReceivedAmount.Some? <==>
            NET_RECEIVED_AMOUNT in json && handler.attemptParseToDouble(Some(json[NET_RECEIVED_AMOUNT])).Some?)
      && (f.overpaidAmount.Some? <==>
            OVERPAID_AMOUNT in json && handler.attemptParseToDouble(Some(json[OVERPAID_AMOUNT])).Some?)
      && (f.totalPaidAmount.Some? <==>
            TOTAL_PAID_AMOUNT in json && handler.attemptParseToDouble(Some(json[TOTAL_PAID_AMOUNT])).Some?)
  {
  }

  /** Decoding the empty dictionary leaves every field nil. */
  lemma DecodeEmptyObject(handler: JsonHandler)
    requires NilInNilOut(handler)
    ensures Decode(map[], handler) == NoFields
  {
  }

  /** toJSON writes the institution as a string, which fromJSON does not read back. */
  lemma FinancialInstitutionIsNotRoundTripped(f: Fields, handler: JsonHandler)
    ensures Decode(Encode(f), handler).financialInstitution == None
  {
  }

  /** The six scalar fields survive toJSON followed by fromJSON; the institution is lost. */
  lemma RoundTrip(f: Fields, handler: JsonHandler)
    requires ParsesOwnType(handler)
    ensures Decode(Encode(f), handler) == f.(financialInstitution := None)
  {
  }

  class TransactionDetails {
    var couponAmount: Option<Amount>
    var externalResourceUrl: Option<string>
    var financialInstitution: Option<FinancialInstitution>
    var installmentAmount: Option<Amount>
    var netReceivedAmount: Option<Amount>
    var overpaidAmount: Option<Amount>
    var totalPaidAmount: Option<Amount>

    /** `init()` */
    constructor ()
      ensures State() == NoFields
    {
      couponAmount := None;
      externalResourceUrl := None;
      financialInstitution := None;
      installmentAmount := None;
      netReceivedAmount := None;
      overpaidAmount := None;
      totalPaidAmount := None;
    }

    /** `init(financialInstitution:)` */
    constructor WithFinancialInstitution(financialInstitution: Option<FinancialInstitution> := None)
      ensures State() == NoFields.(financialInstitution := financialInstitution)
    {
      couponAmount := None;
      externalResourceUrl := None;
      this.financialInstitution := financialInstitution;
      installmentAmount := None;
      netReceivedAmount := None;
      overpaidAmount := None;
      totalPaidAmount := None;
    }

    function State(): Fields
      reads this
    {
      Fields(couponAmount, externalResourceUrl, financialInstitution, installmentAmount,
             netReceivedAmount, overpaidAmount, totalPaidAmount)
    }

    /** `fromJSON(_:)`: never fails; sets a field only when its key parses. */
    static method FromJson(json: JsonObject, handler: JsonHandler) returns (transactionDetails: TransactionDetails)
      ensures fresh(transactionDetails)
      ensures transactionDetails.State() == Decode(json, handler)
    {
      transactionDetails := new TransactionDetails();
      var couponAmount := handler.attemptParseToDouble(Lookup(json, COUPON_AMOUNT));
      if couponAmount.Some? {
        transactionDetails.couponAmount := couponAmount;
      }
      var externalResourceUrl := handler.attemptParseToString(Lookup(json, EXTERNAL_RESOURCE_URL));
      if externalResourceUrl.Some? {
        transactionDetails.externalResourceUrl := externalResourceUrl;
      }
      if FINANCIAL_INSTITUTION in json && json[FINANCIAL_INSTITUTION].JObject? {
        transactionDetails.financialInstitution := Some(handler.institutionFromJson(json[FINANCIAL_INSTITUTION].members));
      }
      var installmentAmount := handler.attemptParseToDouble(Lookup(json, INSTALLMENT_AMOUNT));
      if installmentAmount.Some? {
        transactionDetails.installmentAmount := installmentAmount;
      }
      var netReceivedAmount := handler.attemptParseToDouble(Lookup(json, NET_RECEIVED_AMOUNT));
      if netReceivedAmount.Some? {
        transactionDetails.netReceivedAmount := netReceivedAmount;
      }
      var overpaidAmount := handler.attemptParseToDouble(Lookup(json, OVERPAID_AMOUNT));
      if overpaidAmount.Some? {
        transactionDetails.overpaidAmount := overpaidAmount;
      }
      var totalPaidAmount := handler.attemptParseToDouble(Lookup(json, TOTAL_PAID_AMOUNT));
      if totalPaidAmount.Some? {
        transactionDetails.totalPaidAmount := totalPaidAmount;
      }
    }

    /** `toJSON()` */
    method ToJson() returns (obj: JsonObject)
      ensures obj == Encode(State())
    {
      ghost var done: set<string> := {};
      obj := map[];
      if couponAmount.Some? {
        obj := obj[COUPON_AMOUNT := JNumber(couponAmount.value)];
      }
      EncodeKeysStep(State(), done, COUPON_AMOUNT);
      done := done + {COUPON_AMOUNT};
      assert obj == EncodeKeys(State(), done);
      if externalResourceUrl.Some? {
        obj := obj[EXTERNAL_RESOURCE_URL := JString(externalResourceUrl.value)];
      }
      EncodeKeysStep(State(), done, EXTERNAL_RESOURCE_URL);
      done := done + {EXTERNAL_RESOURCE_URL};
      assert obj == EncodeKeys(State(), done);
      if financialInstitution.Some? && financialInstitution.value.financialInstitutionId.Some? {
        var id := financialInstitution.value.financialInstitutionId.value;
        if |id| >= 1 {
          obj := obj[FINANCIAL_INSTITUTION := JString(id)];
        }
      }
      EncodeKeysStep(State(), done, FINANCIAL_INSTITUTION);
      done := done + {FINANCIAL_INSTITUTION};
      assert obj == EncodeKeys(State(), done);
      if installmentAmount.Some? {
        obj := obj[INSTALLMENT_AMOUNT := JNumber(installmentAmount.value)];
      }
      EncodeKeysStep(State(), done, INSTALLMENT_AMOUNT);
      done := done + {INSTALLMENT_AMOUNT};
      assert obj == EncodeKeys(State(), done);
      if netReceivedAmount.Some? {
        obj := obj[NET_RECEIVED_AMOUNT := JNumber(netReceivedAmount.value)];
      }
      EncodeKeysStep(State(), done, NET_RECEIVED_AMOUNT);
      done := done + {NET_RECEIVED_AMOUNT};
      assert obj == EncodeKeys(State(), done);
      if overpaidAmount.Some? {
        obj := obj[OVERPAID_AMOUNT := JNumber(overpaidAmount.value)];
      }
      EncodeKeysStep(State(), done, OVERPAID_AMOUNT);
      done := done + {OVERPAID_AMOUNT};
      assert obj == EncodeKeys(State(), done);
      if totalPaidAmount.Some? {
        obj := obj[TOTAL_PAID_AMOUNT := JNumber(totalPaidAmount.value)];
      }
      EncodeKeysStep(State(), done, TOTAL_PAID_AMOUNT);
      done := done + {TOTAL_PAID_AMOUNT};
      assert done == FieldKeys;
    }
  }
}
