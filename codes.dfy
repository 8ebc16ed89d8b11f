/** The return-code interpreters: each operation's `switch` on the vendor's
    `ReturnCode`, written as the client writes it, beside the same decision
    as static data (a success code and a table of failure codes), with the
    lemmas that the two agree. */
module Codes {
  import opened Php
  import opened Wire

  /** Failure codes of one operation, in the order of the `case`s. */
  type CodeTable = seq<(string, Failure)>

  const WebServiceError := Raised("Web service error", 500)
  const InvalidCardNumber := Raised("Invalid Card Number", 400)
  const UnknownError := Raised("Unknown error", 500)

  /** The failure of the first case whose code matches `code`, if any. */
  function Lookup(code: Option<string>, table: CodeTable): (r: Option<Failure>)
    ensures r.None? <==> forall i :: 0 <= i < |table| ==> !Matches(code, table[i].0)
    ensures r.Some? ==> exists i :: 0 <= i < |table| && Matches(code, table[i].0) && r.value == table[i].1
  {
    if table == [] then None
    else if Matches(code, table[0].0) then Some(table[0].1)
    else Lookup(code, table[1..])
  }

  /** A string-code switch given as data: the success code yields `value`,
      a listed failure code its failure, and anything else `fallback`. */
  function Decide<T>(code: Option<string>, success: string, value: T, table: CodeTable, fallback: Failure): Outcome<T> {
    if Matches(code, success) then Ok(value)
    else match Lookup(code, table)
      case Some(f) => Err(f)
      case None => Err(fallback)
  }

  /** No two codes of an operation can match the same returned code, so
      the order of the `case`s does not matter. */
  predicate Unambiguous(success: string, table: CodeTable) {
    && (forall i :: 0 <= i < |table| ==> !LooseEquals(table[i].0, success))
    && (forall i, j :: 0 <= i < j < |table| ==> !LooseEquals(table[i].0, table[j].0))
  }

  lemma LooseEqualsSymmetric(a: string, b: string)
    ensures LooseEquals(a, b) == LooseEquals(b, a)
  {
  }

  /** In an unambiguous table every listed code yields its own failure. */
  lemma {:induction false} ListedCodeFound(table: CodeTable, i: int)
    requires 0 <= i < |table|
    requires forall k, j :: 0 <= k < j < |table| ==> !LooseEquals(table[k].0, table[j].0)
    ensures Lookup(Some(table[i].0), table) == Some(table[i].1)
  {
    if i > 0 {
      LooseEqualsSymmetric(table[0].0, table[i].0);
      assert !Matches(Some(table[i].0), table[0].0);
      var tail := table[1..];
      assert tail[i - 1] == table[i];
      forall k, j | 0 <= k < j < |tail| ensures !LooseEquals(tail[k].0, tail[j].0) {
        assert tail[k] == table[k + 1] && tail[j] == table[j + 1];
      }
      ListedCodeFound(tail, i - 1);
    }
  }

  /** Every documented code of an unambiguous switch decides as documented:
      the success code succeeds and each failure code gives its failure. */
  lemma DocumentedCodesDecide<T>(success: string, value: T, table: CodeTable, fallback: Failure)
    requires Unambiguous(success, table)
    ensures Decide(Some(success), success, value, table, fallback) == Ok(value)
    ensures forall i :: 0 <= i < |table| ==> Decide(Some(table[i].0), success, value, table, fallback) == Err(table[i].1)
  {
    forall i | 0 <= i < |table|
      ensures Decide(Some(table[i].0), success, value, table, fallback) == Err(table[i].1)
    {
      ListedCodeFound(table, i);
    }
  }

  // ---------------------------------------------------------------------
  // createPurchaseTransaction

  const PurchaseSuccess := "000"

  const PurchaseFailures: CodeTable := [
    ("001", Raised("Invalid WCF", 400)),
    ("002", InvalidCardNumber),
    ("009", WebServiceError)
  ]

  /** The text the default branches start their message with. */
  const UnknownPrefix := "Unknown error. Fidelis responded with: "

  /** The default branch of the purchase and redemption switches as the
      source writes it: the message appends the decoded reply, an object,
      so PHP raises an Error before any exception with code 500 exists. */
  function DefaultBranchAsWritten(): (f: Failure)
    ensures f == ConversionError
  {
    match Concat(UnknownPrefix, DecodedObject)
    case Some(message) => Raised(message, 500)
    case None => ConversionError
  }

  /** The purchase switch, with `fallback` as its default branch. */
  function PurchaseSwitch(code: Option<string>, fallback: Failure): Outcome<bool> {
    if Matches(code, "000") then Ok(true)
    else if Matches(code, "001") then Err(Raised("Invalid WCF", 400))
    else if Matches(code, "002") then Err(Raised("Invalid Card Number", 400))
    else if Matches(code, "009") then Err(Raised("Web service error", 500))
    else Err(fallback)
  }

  /** The purchase switch as intended: "000" is success (true), "001",
      "002" and "009" have fixed failures, anything else is the
      unknown-response failure with code 500; it never crashes. */
  function PurchaseOutcome(code: Option<string>): (r: Outcome<bool>)
    ensures r.Ok? <==> Matches(code, PurchaseSuccess)
    ensures r.Ok? ==> r.value
    ensures r == Err(UnknownResponse(500)) <==>
      !Matches(code, "000") && !Matches(code, "001") && !Matches(code, "002") && !Matches(code, "009")
    ensures r.Err? ==> r.failure.Raised? || r.failure == UnknownResponse(500)
  {
    PurchaseSwitch(code, UnknownResponse(500))
  }

  /** The purchase switch as written: an unlisted code crashes. */
  function PurchaseOutcomeAsWritten(code: Option<string>): (r: Outcome<bool>)
    ensures r != PurchaseOutcome(code) <==> PurchaseOutcome(code) == Err(UnknownResponse(500))
    ensures r != PurchaseOutcome(code) ==> r == Err(ConversionError)
  {
    PurchaseSwitch(code, DefaultBranchAsWritten())
  }

  /** Loose `==` at work: an unpadded code "0" takes the "000" case and
      "1" the "001" case, as a vendor sending integer codes would get. */
  lemma UnpaddedCodesMatch()
    ensures PurchaseOutcome(Some("0")) == Ok(true)
    ensures PurchaseOutcome(Some("1")) == Err(Raised("Invalid WCF", 400))
  {
    LeadingZeroIgnored("0");
    LeadingZeroIgnored("00");
    LeadingZeroIgnored("1");
    LeadingZeroIgnored("01");
    assert ['0'] + "1" == "01" && ['0'] + "01" == "001";
    assert ['0'] + "0" == "00" && ['0'] + "00" == "000";
  }

  lemma PurchaseFollowsTable(code: Option<string>)
    ensures PurchaseOutcome(code) == Decide(code, PurchaseSuccess, true, PurchaseFailures, UnknownResponse(500))
  {
    var t := PurchaseFailures;
    assert t[0..] == t && t[3..] == [];
    LookupStep(code, t, 0);
    LookupStep(code, t, 1);
    LookupStep(code, t, 2);
  }

  /** Each documented purchase code maps to exactly one outcome. */
  lemma PurchaseCodesDocumented()
    ensures PurchaseOutcome(Some(PurchaseSuccess)) == Ok(true)
    ensures forall i :: 0 <= i < |PurchaseFailures| ==> PurchaseOutcome(Some(PurchaseFailures[i].0)) == Err(PurchaseFailures[i].1)
  {
    DocumentedCodesDecide(PurchaseSuccess, true, PurchaseFailures, UnknownResponse(500));
    PurchaseFollowsTable(Some(PurchaseSuccess));
    forall i | 0 <= i < |PurchaseFailures|
      ensures PurchaseOutcome(Some(PurchaseFailures[i].0)) == Err(PurchaseFailures[i].1)
    {
      PurchaseFollowsTable(Some(PurchaseFailures[i].0));
    }
  }

  // ---------------------------------------------------------------------
  // createRedemptionTransaction

  const RedemptionSuccess := "000"

  /** `t` occurs in `s` at position `i`. */
  predicate OccursAt(s: string, t: string, i: int) {
    0 <= i <= |s| - |t| && s[i..i + |t|] == t
  }

  /** `t` occurs somewhere in `s`. */
  ghost predicate Contains(s: string, t: string) {
    exists i :: OccursAt(s, t, i)
  }

  /** The message for code "060", which names the card. */
  function NotAllowedMessage(cardNumber: string): (m: string)
    ensures Contains(m, cardNumber)
  {
    var prefix := "Transaction type \"13000\" not allowed for card number \"";
    var m := prefix + cardNumber + "\"";
    assert OccursAt(m, cardNumber, |prefix|);
    m
  }

  /** The redemption failure codes; none carries an exception code. */
  function RedemptionFailures(cardNumber: string): CodeTable {
    [ ("012", Raised("Invalid transaction.", NoCode)),
      ("054", Raised("Card Expired", NoCode)),
      ("031", Raised("Wrong merchant", NoCode)),
      ("041", Raised("Already loaded", NoCode)),
      ("039", Raised("Incorrect card type", NoCode)),
      ("060", Raised(NotAllowedMessage(cardNumber), NoCode)),
      ("056", Raised("Card not yet activated for redemption", NoCode)),
      ("051", Raised("Insufficient points", NoCode)),
      ("094", Raised("Duplicate transaction", NoCode)),
      ("RV", Raised("Reversal", NoCode)) ]
  }

  /** The redemption switch, with `fallback` as its default branch. */
  function RedemptionSwitch(code: Option<string>, cardNumber: string, fallback: Failure): (r: Outcome<bool>)
    ensures r.Ok? <==> Matches(code, RedemptionSuccess)
    ensures r.Err? ==> r.failure.Raised? || r.failure == fallback
  {
    if Matches(code, "000") then Ok(true)
    else if Matches(code, "012") then Err(Raised("Invalid transaction.", NoCode))
    else if Matches(code, "054") then Err(Raised("Card Expired", NoCode))
    else if Matches(code, "031") then Err(Raised("Wrong merchant", NoCode))
    else if Matches(code, "041") then Err(Raised("Already loaded", NoCode))
    else if Matches(code, "039") then Err(Raised("Incorrect card type", NoCode))
    else if Matches(code, "060") then Err(Raised(NotAllowedMessage(cardNumber), NoCode))
    else if Matches(code, "056") then Err(Raised("Card not yet activated for redemption", NoCode))
    else if Matches(code, "051") then Err(Raised("Insufficient points", NoCode))
    else if Matches(code, "094") then Err(Raised("Duplicate transaction", NoCode))
    else if Matches(code, "RV") then Err(Raised("Reversal", NoCode))
    else Err(fallback)
  }

  /** The redemption switch as intended; it never crashes. */
  function RedemptionOutcome(code: Option<string>, cardNumber: string): (r: Outcome<bool>)
    ensures r.Ok? <==> Matches(code, RedemptionSuccess)
    ensures r.Ok? ==> r.value
    ensures Matches(code, "060") ==> r.Err? && r.failure.Raised? && Contains(r.failure.message, cardNumber)
    ensures r.Err? ==> r.failure.Raised? || r.failure == UnknownResponse(500)
  {
    RedemptionSwitch(code, cardNumber, UnknownResponse(500))
  }

  /** The redemption switch as written: an unlisted code crashes. */
  function RedemptionOutcomeAsWritten(code: Option<string>, cardNumber: string): (r: Outcome<bool>)
    ensures r != RedemptionOutcome(code, cardNumber) <==> RedemptionOutcome(code, cardNumber) == Err(UnknownResponse(500))
    ensures r != RedemptionOutcome(code, cardNumber) ==> r == Err(ConversionError)
  {
    RedemptionSwitch(code, cardNumber, DefaultBranchAsWritten())
  }

  /** Code "999" is in neither table: as written both switches crash on it,
      where the intended outcome is the failure with code 500. */
  lemma UnlistedCodeCrashes(cardNumber: string)
    ensures PurchaseOutcomeAsWritten(Some("999")) == Err(ConversionError)
    ensures PurchaseOutcome(Some("999")) == Err(UnknownResponse(500))
    ensures RedemptionOutcomeAsWritten(Some("999"), cardNumber) == Err(ConversionError)
    ensures RedemptionOutcome(Some("999"), cardNumber) == Err(UnknownResponse(500))
  {
    var c := Some("999");
    assert !Matches(c, "000") && !Matches(c, "001") && !Matches(c, "002") && !Matches(c, "009");
    assert !Matches(c, "012") && !Matches(c, "054") && !Matches(c, "031") && !Matches(c, "041");
    assert !Matches(c, "039") && !Matches(c, "060") && !Matches(c, "056") && !Matches(c, "051");
    assert !Matches(c, "094") && !Matches(c, "RV");
  }

  /** One step of Lookup down a table. */
  lemma LookupStep(code: Option<string>, t: CodeTable, k: int)
    requires 0 <= k < |t|
    ensures Lookup(code, t[k..]) == if Matches(code, t[k].0) then Some(t[k].1) else Lookup(code, t[k + 1..])
  {
    assert t[k..][0] == t[k];
    assert t[k..][1..] == t[k + 1..];
  }

  lemma RedemptionFollowsTable(code: Option<string>, cardNumber: string)
    ensures RedemptionOutcome(code, cardNumber)
         == Decide(code, RedemptionSuccess, true, RedemptionFailures(cardNumber), UnknownResponse(500))
  {
    var t := RedemptionFailures(cardNumber);
    assert t[0..] == t && t[10..] == [];
    LookupStep(code, t, 0);
    LookupStep(code, t, 1);
    LookupStep(code, t, 2);
    LookupStep(code, t, 3);
    LookupStep(code, t, 4);
    LookupStep(code, t, 5);
    LookupStep(code, t, 6);
    LookupStep(code, t, 7);
    LookupStep(code, t, 8);
    LookupStep(code, t, 9);
  }

  /** Each documented redemption code maps to exactly one outcome, whatever
      the card number. */
  lemma RedemptionCodesDocumented(cardNumber: string)
    ensures RedemptionOutcome(Some(RedemptionSuccess), cardNumber) == Ok(true)
    ensures forall i :: 0 <= i < |RedemptionFailures(cardNumber)| ==>
      RedemptionOutcome(Some(RedemptionFailures(cardNumber)[i].0), cardNumber) == Err(RedemptionFailures(cardNumber)[i].1)
  {
    var t := RedemptionFailures(cardNumber);
    RedemptionTableUnambiguous(cardNumber);
    DocumentedCodesDecide(RedemptionSuccess, true, t, UnknownResponse(500));
    RedemptionFollowsTable(Some(RedemptionSuccess), cardNumber);
    forall i | 0 <= i < |t|
      ensures RedemptionOutcome(Some(t[i].0), cardNumber) == Err(t[i].1)
    {
      RedemptionFollowsTable(Some(t[i].0), cardNumber);
    }
  }

  /** No two redemption codes match each other or the success code. */
  lemma RedemptionTableUnambiguous(cardNumber: string)
    ensures Unambiguous(RedemptionSuccess, RedemptionFailures(cardNumber))
  {
    var t := RedemptionFailures(cardNumber);
    forall i | 0 <= i < |t| ensures !LooseEquals(t[i].0, RedemptionSuccess) {
      CodeDistinct(t[i].0, RedemptionSuccess);
    }
    forall i, j | 0 <= i < j < |t| ensures !LooseEquals(t[i].0, t[j].0) {
      RedemptionRowDistinct(cardNumber, i, j);
    }
  }

  /** Two different codes of the same length, or of which one starts with a
      letter, never match. */
  lemma CodeDistinct(a: string, b: string)
    requires a != b
    requires |a| == |b| || (a != [] && !IsDigit(a[0])) || (b != [] && !IsDigit(b[0]))
    ensures !LooseEquals(a, b)
  {
  }

  lemma RedemptionRowDistinct(cardNumber: string, i: int, j: int)
    requires 0 <= i < j < |RedemptionFailures(cardNumber)|
    ensures !LooseEquals(RedemptionFailures(cardNumber)[i].0, RedemptionFailures(cardNumber)[j].0)
  {
    var t := RedemptionFailures(cardNumber);
    var a, b := t[i].0, t[j].0;
    assert |b| == 3 || b == "RV";
    if i < 3 {
      assert a == "012" || a == "054" || a == "031";
    } else if i < 6 {
      assert a == "041" || a == "039" || a == "060";
    } else {
      assert a == "056" || a == "051" || a == "094";
    }
    CodeDistinct(a, b);
  }

  /** A code outside the redemption table is the unknown-response failure. */
  lemma RedemptionUnknownCode(code: Option<string>, cardNumber: string)
    requires !Matches(code, RedemptionSuccess)
    requires forall i :: 0 <= i < |RedemptionFailures(cardNumber)| ==> !Matches(code, RedemptionFailures(cardNumber)[i].0)
    ensures RedemptionOutcome(code, cardNumber) == Err(UnknownResponse(500))
  {
    RedemptionFollowsTable(code, cardNumber);
  }

  // ---------------------------------------------------------------------
  // getVipStatus and setVipStatus: the code is cast to an integer first

  /** The integer codes both VIP operations reject. */
  const VipFailures: map<int, Failure> := map[9 := WebServiceError, 99 := InvalidCardNumber]

  /** The get switch: 9 and 99 are failures, any other integer is the
      cardholder's VIP status itself. */
  function GetVipOutcome(code: Option<string>): (r: Outcome<int>)
    ensures var n := CastColumn(code);
      r == if n in VipFailures then Err(VipFailures[n]) else Ok(n)
  {
    var returnCode := CastColumn(code);
    if returnCode == 9 then Err(Raised("Web service error", 500))
    else if returnCode == 99 then Err(Raised("Invalid Card Number", 400))
    else Ok(returnCode)
  }

  /** The set switch: only 1 is success, 9 and 99 fail as for get, every
      other integer is "Unknown error" with code 500. */
  function SetVipOutcome(code: Option<string>): (r: Outcome<bool>)
    ensures var n := CastColumn(code);
      r == if n == 1 then Ok(true) else if n in VipFailures then Err(VipFailures[n]) else Err(UnknownError)
  {
    var returnCode := CastColumn(code);
    if returnCode == 1 then Ok(true)
    else if returnCode == 9 then Err(Raised("Web service error", 500))
    else if returnCode == 99 then Err(Raised("Invalid Card Number", 400))
    else Err(Raised("Unknown error", 500))
  }

  /** Get and set reject exactly the same codes in the same way; a status
      that get reports is never one of them, and set accepts only 1. */
  lemma VipOperationsAgree(code: Option<string>)
    ensures GetVipOutcome(code).Err? ==> SetVipOutcome(code) == Err(GetVipOutcome(code).failure)
    ensures GetVipOutcome(code).Ok? ==> GetVipOutcome(code).value !in {9, 99}
    ensures SetVipOutcome(code).Ok? ==> GetVipOutcome(code) == Ok(1)
  {
  }

  // ---------------------------------------------------------------------
  // getPointsExpiringByEmail

  const PointsFailures: map<int, Failure> := map[1 := InvalidCardNumber, 2 := Raised("Invalid Scripting", 500)]

  /** The points-expiring switch: 0 is success and returns the summary
      record (null when absent), 1 and 2 have fixed failures, every other
      integer is "Unknown error" with code 500. */
  function PointsExpiringOutcome(e: Envelope): (r: Outcome<Option<Record>>)
    ensures var n := CastColumn(Column(e, "ReturnCode"));
      r == if n == 0 then Ok(e.table) else if n in PointsFailures then Err(PointsFailures[n]) else Err(UnknownError)
  {
    var returnCode := CastColumn(Column(e, "ReturnCode"));
    if returnCode == 0 then Ok(e.table)
    else if returnCode == 1 then Err(Raised("Invalid Card Number", 400))
    else if returnCode == 2 then Err(Raised("Invalid Scripting", 500))
    else Err(Raised("Unknown error", 500))
  }

  /** A response without its summary record casts the missing code to 0 and
      so reads as success with nothing to return. */
  lemma PointsExpiringWithoutSummary(e: Envelope)
    requires e.table.None?
    ensures PointsExpiringOutcome(e) == Ok(None)
  {
  }
}
