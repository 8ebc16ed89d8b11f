/** The parameter arrays each public operation of the Fidelis client builds,
    and the request makeRequest sends for it once the identity is in.
    Dates arrive already converted to Pacific/Auckland civil time and
    formatted; that conversion is not part of this model. */
module Requests {
  import opened Wire

  const TransactionsOperation := "ReturnTransactionsGeneral_PHP"
  const PurchaseOperation := "LoadCardholderExpiryByDays_PHP"
  const RedemptionOperation := "CreateTransactionWeb_PHP"
  const CardBalanceOperation := "CheckCardholderBalance_Email_PHP"
  const CardBalancesOperation := "ReturnAllCardholderBalancesFromDate_PHP"
  /** One remote operation serves both cardholder lookups. */
  const CardholderOperation := "ReturnCardholderDetailsFromEmail_PHP"
  const GetVipOperation := "GETVIPStatus_PHP"
  const SetVipOperation := "SETVIPStatus_PHP"
  const PointsExpiringOperation := "CheckCardholderNextExpired"

  /** The identity key of the redemption call, the one operation that does
      not use "WCF". */
  const RedemptionKey := "ClientCode"

  /** The processing code every redemption carries. */
  const RedemptionProcessingCode := "13000"

  /** An optional date range, each end already formatted as `Y-m-d H:i:s`. */
  datatype DateRange = DateRange(from: Option<string>, to: Option<string>)

  /** A possibly missing argument as PHP passes it on: null when absent. */
  function OrNull(v: Option<string>): (r: Value)
    ensures v.None? <==> r == Null
    ensures v.Some? ==> r == Str(v.value)
  {
    if v.Some? then Str(v.value) else Null
  }

  /** getTransactionsByPage: one page of the transaction listing; both ends of
      the range are always sent, as null when not given. */
  function TransactionsPageRequest(id: Identity, range: DateRange, page: int): (r: Request)
    ensures r.operation == TransactionsOperation
    ensures r.params.Keys == {"topTen", "pg", "dateRangeFrom", "dateRangeTo", WcfKey}
    ensures r.params["topTen"] == Int(0) && r.params["pg"] == Int(page)
    ensures r.params["dateRangeFrom"] == OrNull(range.from)
    ensures r.params["dateRangeTo"] == OrNull(range.to)
    ensures r.params[WcfKey] == Str(id.wcf)
  {
    var params := map["topTen" := Int(0), "pg" := Int(page),
                      "dateRangeFrom" := OrNull(range.from), "dateRangeTo" := OrNull(range.to)];
    Outbound(id, TransactionsOperation, params, WcfKey)
  }

  /** Requests for different pages differ exactly in their page number. */
  lemma PageRequestsDistinct(id: Identity, range: DateRange, p: int, q: int)
    ensures TransactionsPageRequest(id, range, p) == TransactionsPageRequest(id, range, q) <==> p == q
  {
    if TransactionsPageRequest(id, range, p) == TransactionsPageRequest(id, range, q) {
      assert TransactionsPageRequest(id, range, p).params["pg"] == Int(p);
    }
  }

  /** createPurchaseTransaction: a missing expiry is sent as null; the
      virtual terminal id goes with every purchase. */
  function PurchaseRequest(id: Identity, cardNumber: string, amount: Value, expiresInDays: Option<int>): (r: Request)
    ensures r.operation == PurchaseOperation
    ensures r.params.Keys == {"cardNumber", "Amount", "CardExpiresIn", "TerminalID", WcfKey}
    ensures r.params["cardNumber"] == Str(cardNumber) && r.params["Amount"] == amount
    ensures r.params["CardExpiresIn"] == (if expiresInDays.Some? then Int(expiresInDays.value) else Null)
    ensures r.params["TerminalID"] == Str(id.virtualTerminalId)
    ensures r.params[WcfKey] == Str(id.wcf)
  {
    var expiry := if expiresInDays.Some? then Int(expiresInDays.value) else Null;
    var params := map["cardNumber" := Str(cardNumber), "Amount" := amount,
                      "CardExpiresIn" := expiry, "TerminalID" := Str(id.virtualTerminalId)];
    Outbound(id, PurchaseOperation, params, WcfKey)
  }

  /** createRedemptionTransaction: the identity travels as "ClientCode" and
      no "WCF" entry is sent; the processing code is fixed and the force flag
      is the integer 0 or 1. */
  function RedemptionRequest(id: Identity, cardNumber: string, amount: Value, force: bool): (r: Request)
    ensures r.operation == RedemptionOperation
    ensures r.params.Keys == {"cardNumber", "Amount", "ProcessingCode", "TerminalID", "ForceTransaction", RedemptionKey}
    ensures WcfKey !in r.params
    ensures r.params[RedemptionKey] == Str(id.wcf)
    ensures r.params["cardNumber"] == Str(cardNumber) && r.params["Amount"] == amount
    ensures r.params["ProcessingCode"] == Str(RedemptionProcessingCode)
    ensures r.params["TerminalID"] == Str(id.virtualTerminalId)
    ensures r.params["ForceTransaction"].Int? && r.params["ForceTransaction"].i in {0, 1}
    ensures r.params["ForceTransaction"].i == 1 <==> force
  {
    var params := map["cardNumber" := Str(cardNumber), "Amount" := amount,
                      "ProcessingCode" := Str(RedemptionProcessingCode),
                      "TerminalID" := Str(id.virtualTerminalId),
                      "ForceTransaction" := Int(if force then 1 else 0)];
    Outbound(id, RedemptionOperation, params, RedemptionKey)
  }

  /** getCardBalance. */
  function CardBalanceRequest(id: Identity, cardNumber: string): (r: Request)
    ensures r.operation == CardBalanceOperation
    ensures r.params == map["cardNumber" := Str(cardNumber), WcfKey := Str(id.wcf)]
  {
    Outbound(id, CardBalanceOperation, map["cardNumber" := Str(cardNumber)], WcfKey)
  }

  /** getCardBalances: the "FromDate" key is present only when a date is
      given (already in W3C form). */
  function CardBalancesRequest(id: Identity, since: Option<string>): (r: Request)
    ensures r.operation == CardBalancesOperation
    ensures r.params.Keys == if since.Some? then {"FromDate", WcfKey} else {WcfKey}
    ensures since.Some? ==> r.params["FromDate"] == Str(since.value)
    ensures r.params[WcfKey] == Str(id.wcf)
  {
    var params: Params := if since.Some? then map["FromDate" := Str(since.value)] else map[];
    Outbound(id, CardBalancesOperation, params, WcfKey)
  }

  /** getCardholderByCardNumber. */
  function CardholderByCardNumberRequest(id: Identity, cardNumber: string): (r: Request)
    ensures r.operation == CardholderOperation
    ensures r.params == map["cardNumber" := Str(cardNumber), WcfKey := Str(id.wcf)]
  {
    Outbound(id, CardholderOperation, map["cardNumber" := Str(cardNumber)], WcfKey)
  }

  /** getCardholderByEmail: the same remote operation keyed by e-mail. */
  function CardholderByEmailRequest(id: Identity, email: string): (r: Request)
    ensures r.operation == CardholderOperation
    ensures r.params == map["Cardholderemail" := Str(email), WcfKey := Str(id.wcf)]
  {
    Outbound(id, CardholderOperation, map["Cardholderemail" := Str(email)], WcfKey)
  }

  /** getVipStatus. */
  function GetVipRequest(id: Identity, cardNumber: string): (r: Request)
    ensures r.operation == GetVipOperation
    ensures r.params == map["CardNumber" := Str(cardNumber), WcfKey := Str(id.wcf)]
  {
    Outbound(id, GetVipOperation, map["CardNumber" := Str(cardNumber)], WcfKey)
  }

  /** setVipStatus. */
  function SetVipRequest(id: Identity, cardNumber: string, vipStatus: Value): (r: Request)
    ensures r.operation == SetVipOperation
    ensures r.params == map["CardNumber" := Str(cardNumber), "NewVIPStatus" := vipStatus, WcfKey := Str(id.wcf)]
  {
    Outbound(id, SetVipOperation, map["CardNumber" := Str(cardNumber), "NewVIPStatus" := vipStatus], WcfKey)
  }

  /** getPointsExpiringByEmail: `lastDay` is the last day of the requested
      month, already formatted as `Y-m-d`. */
  function PointsExpiringRequest(id: Identity, email: string, lastDay: string): (r: Request)
    ensures r.operation == PointsExpiringOperation
    ensures r.params == map["Email" := Str(email), "DateToExpireTo" := Str(lastDay), WcfKey := Str(id.wcf)]
  {
    Outbound(id, PointsExpiringOperation, map["Email" := Str(email), "DateToExpireTo" := Str(lastDay)], WcfKey)
  }
}
