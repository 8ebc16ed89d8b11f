/** The public operations of the Fidelis client: each builds its request,
    makes exactly one remote call through `invoke`, and reads the reply.
    A transport fault always surfaces as a failure with code 400 carrying
    the fault's message. The transaction listing, which makes several calls,
    is in module Pagination. */
module Client {
  import opened Wire
  import opened Requests
  import opened Codes
  import Pagination

  /** The outcome of one call: the fault as a failure, or `read` applied to
      the decoded envelope. */
  function Call<T>(invoke: Request -> Reply, request: Request, read: Envelope -> Outcome<T>): (r: Outcome<T>)
    ensures invoke(request).Fault? ==> r == Err(Raised(invoke(request).message, FaultCode))
    ensures invoke(request).Response? ==> r == read(invoke(request).envelope)
  {
    match Exchange(invoke, request)
    case Err(f) => Err(f)
    case Ok(e) => read(e)
  }

  /** `$response->Table->ReturnCode`: absent when the summary record or
      its ReturnCode column is missing. */
  function ReturnCode(e: Envelope): (code: Option<string>)
    ensures code.Some? <==> e.table.Some? && "ReturnCode" in e.table.value
    ensures code.Some? ==> code.value == e.table.value["ReturnCode"]
  {
    Column(e, "ReturnCode")
  }

  /** createPurchaseTransaction: true exactly when the call went through and
      the vendor answered "000". */
  function CreatePurchaseTransaction(invoke: Request -> Reply, id: Identity, cardNumber: string,
                                     amount: Value, expiresInDays: Option<int>): (r: Outcome<bool>)
    ensures var reply := invoke(PurchaseRequest(id, cardNumber, amount, expiresInDays));
      && (r.Ok? <==> reply.Response? && Matches(ReturnCode(reply.envelope), PurchaseSuccess))
      && (r.Ok? ==> r.value)
      && (reply.Fault? ==> r == Err(Raised(reply.message, FaultCode)))
  {
    Call(invoke, PurchaseRequest(id, cardNumber, amount, expiresInDays), e => PurchaseOutcome(ReturnCode(e)))
  }

  /** createRedemptionTransaction: true exactly when the call went through
      and the vendor answered "000"; the "060" failure names the card. */
  function CreateRedemptionTransaction(invoke: Request -> Reply, id: Identity, cardNumber: string,
                                       amount: Value, force: bool): (r: Outcome<bool>)
    ensures var reply := invoke(RedemptionRequest(id, cardNumber, amount, force));
      && (r.Ok? <==> reply.Response? && Matches(ReturnCode(reply.envelope), RedemptionSuccess))
      && (r.Ok? ==> r.value)
      && (reply.Fault? ==> r == Err(Raised(reply.message, FaultCode)))
      && (reply.Response? && Matches(ReturnCode(reply.envelope), "060") ==>
            r.Err? && r.failure.Raised? && Contains(r.failure.message, cardNumber))
  {
    Call(invoke, RedemptionRequest(id, cardNumber, amount, force), e => RedemptionOutcome(ReturnCode(e), cardNumber))
  }

  /** getCardBalance: the text of `Column2` of the summary record (the
      response code in `Column1` is read and ignored). */
  function GetCardBalance(invoke: Request -> Reply, id: Identity, cardNumber: string): (r: Outcome<Option<string>>)
    ensures var reply := invoke(CardBalanceRequest(id, cardNumber));
      && (r.Ok? <==> reply.Response?)
      && (r.Ok? ==> r.value == Column(reply.envelope, "Column2"))
      && (reply.Fault? ==> r == Err(Raised(reply.message, FaultCode)))
  {
    Call(invoke, CardBalanceRequest(id, cardNumber), (e: Envelope) => Ok(Column(e, "Column2")))
  }

  /** getCardBalances: the summary record, or nothing when it is absent. */
  function GetCardBalances(invoke: Request -> Reply, id: Identity, since: Option<string>): (r: Outcome<Option<Record>>)
    ensures var reply := invoke(CardBalancesRequest(id, since));
      && (r.Ok? <==> reply.Response?)
      && (r.Ok? ==> r.value == reply.envelope.table)
      && (reply.Fault? ==> r == Err(Raised(reply.message, FaultCode)))
  {
    Call(invoke, CardBalancesRequest(id, since), (e: Envelope) => Ok(e.table))
  }

  /** getCardholderByCardNumber: the summary record, or null. */
  function GetCardholderByCardNumber(invoke: Request -> Reply, id: Identity, cardNumber: string): (r: Outcome<Option<Record>>)
    ensures var reply := invoke(CardholderByCardNumberRequest(id, cardNumber));
      && (r.Ok? <==> reply.Response?)
      && (r.Ok? ==> r.value == reply.envelope.table)
      && (reply.Fault? ==> r == Err(Raised(reply.message, FaultCode)))
  {
    Call(invoke, CardholderByCardNumberRequest(id, cardNumber), (e: Envelope) => Ok(e.table))
  }

  /** getCardholderByEmail: the summary record, or null. */
  function GetCardholderByEmail(invoke: Request -> Reply, id: Identity, email: string): (r: Outcome<Option<Record>>)
    ensures var reply := invoke(CardholderByEmailRequest(id, email));
      && (r.Ok? <==> reply.Response?)
      && (r.Ok? ==> r.value == reply.envelope.table)
      && (reply.Fault? ==> r == Err(Raised(reply.message, FaultCode)))
  {
    Call(invoke, CardholderByEmailRequest(id, email), (e: Envelope) => Ok(e.table))
  }

  /** getVipStatus: the cast return code is the status unless it is 9 or 99. */
  function GetVipStatus(invoke: Request -> Reply, id: Identity, cardNumber: string): (r: Outcome<int>)
    ensures var reply := invoke(GetVipRequest(id, cardNumber));
      && (r.Ok? <==> reply.Response? && CastColumn(ReturnCode(reply.envelope)) !in VipFailures)
      && (r.Ok? ==> r.value == CastColumn(ReturnCode(reply.envelope)))
      && (reply.Fault? ==> r == Err(Raised(reply.message, FaultCode)))
  {
    Call(invoke, GetVipRequest(id, cardNumber), e => GetVipOutcome(ReturnCode(e)))
  }

  /** setVipStatus: true exactly when the call went through and the cast
      return code is 1. */
  function SetVipStatus(invoke: Request -> Reply, id: Identity, cardNumber: string, vipStatus: Value): (r: Outcome<bool>)
    ensures var reply := invoke(SetVipRequest(id, cardNumber, vipStatus));
      && (r.Ok? <==> reply.Response? && CastColumn(ReturnCode(reply.envelope)) == 1)
      && (r.Ok? ==> r.value)
      && (reply.Fault? ==> r == Err(Raised(reply.message, FaultCode)))
  {
    Call(invoke, SetVipRequest(id, cardNumber, vipStatus), e => SetVipOutcome(ReturnCode(e)))
  }

  /** getPointsExpiringByEmail: the summary record when the cast return
      code is 0. */
  function GetPointsExpiringByEmail(invoke: Request -> Reply, id: Identity, email: string, lastDay: string): (r: Outcome<Option<Record>>)
    ensures var reply := invoke(PointsExpiringRequest(id, email, lastDay));
      && (r.Ok? <==> reply.Response? && CastColumn(ReturnCode(reply.envelope)) == 0)
      && (r.Ok? ==> r.value == reply.envelope.table)
      && (reply.Fault? ==> r == Err(Raised(reply.message, FaultCode)))
  {
    Call(invoke, PointsExpiringRequest(id, email, lastDay), PointsExpiringOutcome)
  }

  // ---------------------------------------------------------------------
  // Round trip: a vendor that echoes an operation's documented success code
  // gets the documented success outcome back.

  /** A reply carrying only a summary record with the given return code and
      no `Table1` rows. */
  function Echo(code: string): Envelope {
    Envelope(Some(map["ReturnCode" := code]), Some([]))
  }

  lemma PurchaseEchoSucceeds(invoke: Request -> Reply, id: Identity, cardNumber: string,
                             amount: Value, expiresInDays: Option<int>)
    requires invoke(PurchaseRequest(id, cardNumber, amount, expiresInDays)) == Response(Echo(PurchaseSuccess))
    ensures CreatePurchaseTransaction(invoke, id, cardNumber, amount, expiresInDays) == Ok(true)
  {
    assert ReturnCode(Echo(PurchaseSuccess)) == Some(PurchaseSuccess);
  }

  lemma RedemptionEchoSucceeds(invoke: Request -> Reply, id: Identity, cardNumber: string, amount: Value, force: bool)
    requires invoke(RedemptionRequest(id, cardNumber, amount, force)) == Response(Echo(RedemptionSuccess))
    ensures CreateRedemptionTransaction(invoke, id, cardNumber, amount, force) == Ok(true)
  {
    assert ReturnCode(Echo(RedemptionSuccess)) == Some(RedemptionSuccess);
  }

  lemma SetVipEchoSucceeds(invoke: Request -> Reply, id: Identity, cardNumber: string, vipStatus: Value)
    requires invoke(SetVipRequest(id, cardNumber, vipStatus)) == Response(Echo("1"))
    ensures SetVipStatus(invoke, id, cardNumber, vipStatus) == Ok(true)
  {
    OneDigitCast("1", 1);
  }

  /** Getting returns whatever status the vendor sends, here 3. */
  lemma GetVipEchoReturnsStatus(invoke: Request -> Reply, id: Identity, cardNumber: string)
    requires invoke(GetVipRequest(id, cardNumber)) == Response(Echo("3"))
    ensures GetVipStatus(invoke, id, cardNumber) == Ok(3)
  {
    OneDigitCast("3", 3);
    assert 3 !in VipFailures;
    assert GetVipOutcome(ReturnCode(Echo("3"))) == Ok(3);
  }

  lemma OneDigitCast(code: string, n: int)
    requires |code| == 1 && '0' <= code[0] <= '9' && n == code[0] as int - '0' as int
    ensures CastColumn(ReturnCode(Echo(code))) == n
  {
    assert Php.IsDigits(code);
    assert code[..0] == [];
    assert Php.DigitsValue(code) == n;
  }

  lemma PointsExpiringEchoSucceeds(invoke: Request -> Reply, id: Identity, email: string, lastDay: string)
    requires invoke(PointsExpiringRequest(id, email, lastDay)) == Response(Echo("0"))
    ensures GetPointsExpiringByEmail(invoke, id, email, lastDay) == Ok(Echo("0").table)
  {
    OneDigitCast("0", 0);
  }

  /** getTransactions as the client runs it: a page service over
      getTransactionsByPage with the date range fixed, walked by the listing
      loop. A fault on page 1 is the failure with code 400. */
  method GetTransactions(invoke: Request -> Reply, id: Identity, range: DateRange)
    returns (r: Outcome<seq<Record>>)
    ensures r == Pagination.Transactions(Pagination.PageSource(invoke, id, range))
    ensures var reply := invoke(TransactionsPageRequest(id, range, 1));
      reply.Fault? ==> r == Err(Raised(reply.message, FaultCode))
  {
    var service := new Pagination.PageService(Pagination.PageSource(invoke, id, range));
    r := Pagination.GetTransactions(service);
  }

  /** A first page with no page count and no rows is the whole, empty,
      listing. */
  lemma ListingEchoSucceeds(invoke: Request -> Reply, id: Identity, range: DateRange)
    requires invoke(TransactionsPageRequest(id, range, 1)) == Response(Echo("0"))
    ensures Pagination.Transactions(Pagination.PageSource(invoke, id, range)) == Ok([])
  {
    var fetch := Pagination.PageSource(invoke, id, range);
    assert fetch(1) == Ok(Echo("0"));
    assert Column(Echo("0"), "PgCount") == None;
  }
}
