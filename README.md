# Fidelis loyalty client — request/response translation

This project models the translation layer of `Fidelis`, a PHP client for the
Fidelis loyalty web service, and proves properties of it in Dafny. It models
four things:

* **makeRequest.** This puts the programme identity (the WCF) into each
  operation's parameter array. It uses the key `WCF` for every operation
  except redemption, which uses `ClientCode`. It then sends the call. A
  transport fault comes back as a failure with code 400 that carries the
  fault's message.
* **Per-operation parameters.** Each public operation builds its own
  parameter array, with fixed operation names, fixed values (processing code
  `13000`, `topTen` 0) and the virtual terminal id.
* **Return-code interpreters.** Each interpreter turns the vendor's
  `ReturnCode` into a success value or a failure with a fixed message and
  code.
  * Purchase and redemption use a `switch` on the code string. PHP's loose
    `==` applies here: two digit strings compare as numbers, and a missing
    code compares as the empty string.
  * VIP get/set and points-expiring first cast the code with `(int)`.
* **getTransactions.** This reads the page count from page 1 of the
  transaction listing. It then requests pages 2 up to that count in order
  and concatenates the `Table1` rows of every page.

The remote service is a function `invoke: Request -> Reply`, where a reply is
either `Fault(message)` or a decoded `Envelope`. The envelope has an optional
summary record `Table` and optional result rows `Table1`. The listing talks
to a `Pagination.PageService` object. Its `Fetch` method answers a page
number from a fixed page function and appends that page number to the
object's `log`. The request order is stated on that log.
`Pagination.PageSource` is getTransactionsByPage with the date range
fixed; `Client.GetTransactions` builds a service over it and runs the
listing loop on that service.

Modules:

* `Php`: loose string equality in a `switch`, and the `(int)` cast.
* `Wire`: values, the envelope, the identity, and makeRequest.
* `Requests`: the parameter builders.
* `Codes`: the interpreters. Each is written as the `switch` is written and
  also given as a table of codes, with lemmas proving that the two agree.
* `Pagination`: the listing.
* `Client`: the public operations.

Where PHP versions differ, the model follows PHP 8.

Behaviour of the code that the model keeps:

* A missing date bound of the listing is sent as `null`; it is not omitted
  (`Fidelis.php:105-110`).
* Under PHP 8, a later page without `Table1` makes `array_merge` throw a
  TypeError. The model gives `MergeError(page)` there and stops, instead
  of treating the page as empty.
* The redemption failures carry no explicit exception code, so they carry
  the default code 0.
* The default branches of the purchase and redemption switches append the
  decoded reply object to their message. PHP cannot convert that object to
  a string, so it raises an Error there. The model records this as written
  (see Findings), and the operations use the intended failure with code 500.
* When `PgCount` is numeric, `getTransactions` always terminates: the loop
  bound is read once, from page 1, before the loop starts. A non-numeric
  `PgCount` is not covered (see the `Pagination.LastPage` line under Left
  out).

## Model

| member | source | states |
|---|---|---|
| Php.LooseEquals | src/LoyaltyServices/Fidelis/Fidelis.php:164-179 | the `switch` comparison: equal strings match; a match between strings that are not both digit strings means they are equal; two digit strings match exactly when their numbers are equal, whatever their lengths; codes of equal length match exactly when they are equal |
| Php.LeadingZeroIgnored | src/LoyaltyServices/Fidelis/Fidelis.php:164-179 | a leading zero does not change a digit string's number, and the padded and unpadded digit strings match under the `switch` comparison |
| Php.DigitsValueInjective | src/LoyaltyServices/Fidelis/Fidelis.php:164-179 | two digit strings of the same length with the same number are the same string |
| Php.DigitPrefix | src/LoyaltyServices/Fidelis/Fidelis.php:333 | `(int)` reads the longest run of leading digits: the result is all digits, a prefix of the input, and is followed by a non-digit or nothing |
| Php.TrimStart | src/LoyaltyServices/Fidelis/Fidelis.php:333 | `(int)` skips exactly the leading whitespace: what remains is a suffix starting with a non-blank, and everything removed was blank |
| Php.IntCast | src/LoyaltyServices/Fidelis/Fidelis.php:333 | `(int)`: text that, after leading whitespace, starts with neither a digit nor a sign casts to 0; a negative result needs a leading minus sign; a plain digit string casts to the number it denotes |
| Php.IntCastWithoutDigits | src/LoyaltyServices/Fidelis/Fidelis.php:333 | text that starts with a character that is not a digit, blank or sign, such as "RV", casts to 0 |
| Wire.WithIdentity | src/LoyaltyServices/Fidelis/Fidelis.php:68-70 | the identity is stored under the chosen key, overwriting any entry there; the key set gains only that key and every other entry is unchanged |
| Wire.Exchange | src/LoyaltyServices/Fidelis/Fidelis.php:72-80 | a transport fault becomes exactly a failure with the fault's message and code 400; otherwise the decoded envelope is returned |
| Wire.Matches | src/LoyaltyServices/Fidelis/Fidelis.php:164-165 | a `case` test on a code that may be null: the code itself always matches; a missing code matches only the empty label; a code of the label's length matches exactly when it is the label |
| Wire.Concat | src/LoyaltyServices/Fidelis/Fidelis.php:178 | PHP's `.`: appending text keeps the prefix, appending a decoded reply object gives no string (an Error) |
| Wire.CastColumn | src/LoyaltyServices/Fidelis/Fidelis.php:333 | a missing code casts to 0 and a digit-string code casts to its number |
| Requests.TransactionsPageRequest | src/LoyaltyServices/Fidelis/Fidelis.php:104-112 | operation ReturnTransactionsGeneral_PHP with exactly topTen 0, the page number, both date bounds (null when absent) and the WCF |
| Requests.PageRequestsDistinct | src/LoyaltyServices/Fidelis/Fidelis.php:105-112 | two page requests are equal exactly when the page numbers are |
| Requests.PurchaseRequest | src/LoyaltyServices/Fidelis/Fidelis.php:154-162 | operation LoadCardholderExpiryByDays_PHP with exactly the card number, amount, expiry (null when absent), the virtual terminal id and the WCF |
| Requests.RedemptionRequest | src/LoyaltyServices/Fidelis/Fidelis.php:192-201 | operation CreateTransactionWeb_PHP; the identity goes under ClientCode and no WCF key is present; ProcessingCode is "13000"; TerminalID is the virtual terminal id; ForceTransaction is the integer 1 exactly when force is set, else 0 |
| Requests.CardBalanceRequest | src/LoyaltyServices/Fidelis/Fidelis.php:249-254 | operation CheckCardholderBalance_Email_PHP with exactly the card number and the WCF |
| Requests.CardBalancesRequest | src/LoyaltyServices/Fidelis/Fidelis.php:269-278 | operation ReturnAllCardholderBalancesFromDate_PHP; FromDate is present exactly when a date is given; the WCF is always present |
| Requests.CardholderByCardNumberRequest | src/LoyaltyServices/Fidelis/Fidelis.php:291-296 | operation ReturnCardholderDetailsFromEmail_PHP with exactly the card number and the WCF |
| Requests.CardholderByEmailRequest | src/LoyaltyServices/Fidelis/Fidelis.php:308-313 | the same operation with exactly the e-mail address and the WCF |
| Requests.GetVipRequest | src/LoyaltyServices/Fidelis/Fidelis.php:326-331 | operation GETVIPStatus_PHP with exactly the card number and the WCF |
| Requests.SetVipRequest | src/LoyaltyServices/Fidelis/Fidelis.php:356-362 | operation SETVIPStatus_PHP with exactly the card number, the new status and the WCF |
| Requests.PointsExpiringRequest | src/LoyaltyServices/Fidelis/Fidelis.php:383-390 | operation CheckCardholderNextExpired with exactly the e-mail address, the last day and the WCF |
| Codes.Lookup | src/LoyaltyServices/Fidelis/Fidelis.php:164-179 | a code table answers nothing exactly when no listed code matches, and otherwise answers the failure of a listed code that matches |
| Codes.ListedCodeFound | src/LoyaltyServices/Fidelis/Fidelis.php:203-239 | in a table whose codes never match each other, each listed code finds its own failure whatever its position |
| Codes.DocumentedCodesDecide | src/LoyaltyServices/Fidelis/Fidelis.php:203-239 | in an unambiguous switch the success code succeeds and each failure code gives its own failure |
| Codes.DefaultBranchAsWritten | src/LoyaltyServices/Fidelis/Fidelis.php:177-178 | the default branch as written ends in PHP's conversion Error, not a failure with code 500 |
| Codes.PurchaseOutcome | src/LoyaltyServices/Fidelis/Fidelis.php:164-179 | success (true) exactly when the code matches "000"; the unknown-response failure with code 500 exactly when none of 000/001/002/009 matches; every failure is an exception, never a crash |
| Codes.PurchaseOutcomeAsWritten | src/LoyaltyServices/Fidelis/Fidelis.php:164-179 | the switch as written differs from the intended one exactly on unlisted codes, where it crashes with the conversion Error |
| Codes.UnpaddedCodesMatch | src/LoyaltyServices/Fidelis/Fidelis.php:164-169 | an unpadded reply code "0" is a successful purchase and "1" is Invalid WCF/400, as loose `==` against '000' and '001' gives |
| Codes.PurchaseFollowsTable | src/LoyaltyServices/Fidelis/Fidelis.php:164-179 | for every code the purchase switch equals the table decision: "000" gives true, 001 Invalid WCF/400, 002 Invalid Card Number/400, 009 Web service error/500, otherwise unknown/500 |
| Codes.PurchaseCodesDocumented | src/LoyaltyServices/Fidelis/Fidelis.php:164-179 | each documented purchase code yields its documented outcome |
| Codes.NotAllowedMessage | src/LoyaltyServices/Fidelis/Fidelis.php:222-223 | the "060" message contains the card number |
| Codes.RedemptionOutcome | src/LoyaltyServices/Fidelis/Fidelis.php:203-239 | success exactly when the code matches "000"; "060" fails with a message that contains the card number; every failure is an exception, never a crash |
| Codes.RedemptionOutcomeAsWritten | src/LoyaltyServices/Fidelis/Fidelis.php:203-239 | the switch as written differs from the intended one exactly on unlisted codes, where it crashes with the conversion Error |
| Codes.UnlistedCodeCrashes | src/LoyaltyServices/Fidelis/Fidelis.php:177-178 | code "999": both switches as written crash, where the intended outcome is the failure with code 500 |
| Codes.RedemptionFollowsTable | src/LoyaltyServices/Fidelis/Fidelis.php:203-239 | for every code the redemption switch equals the table decision over its ten failure codes, with unknown/500 for the rest |
| Codes.RedemptionTableUnambiguous | src/LoyaltyServices/Fidelis/Fidelis.php:203-239 | no redemption code matches another or the success code under the loose comparison, so the order of the `case`s does not matter |
| Codes.CodeDistinct | src/LoyaltyServices/Fidelis/Fidelis.php:203-239 | two different codes of equal length, or one starting with a letter such as "RV", never match |
| Codes.RedemptionCodesDocumented | src/LoyaltyServices/Fidelis/Fidelis.php:203-239 | "000" succeeds and each of the ten failure codes gives its own fixed failure, whatever the card number |
| Codes.RedemptionUnknownCode | src/LoyaltyServices/Fidelis/Fidelis.php:237-238 | a code matching none of the listed codes is the unknown-response failure with code 500 |
| Codes.GetVipOutcome | src/LoyaltyServices/Fidelis/Fidelis.php:333-344 | the cast code 9 or 99 gives its failure (Web service error/500, Invalid Card Number/400); any other integer is returned as the status |
| Codes.SetVipOutcome | src/LoyaltyServices/Fidelis/Fidelis.php:364-378 | only the cast code 1 succeeds; 9 and 99 fail as for get; every other integer is Unknown error/500 |
| Codes.VipOperationsAgree | src/LoyaltyServices/Fidelis/Fidelis.php:333-378 | get and set reject the same codes with the same failure; get never reports 9 or 99; set succeeds only where get would report 1 |
| Codes.PointsExpiringOutcome | src/LoyaltyServices/Fidelis/Fidelis.php:392-406 | the cast code 0 returns the summary record (absent stays absent); 1 is Invalid Card Number/400; 2 is Invalid Scripting/500; anything else is Unknown error/500 |
| Codes.PointsExpiringWithoutSummary | src/LoyaltyServices/Fidelis/Fidelis.php:392-396 | a reply with no summary record casts its missing code to 0 and succeeds with nothing |
| Pagination.GetTransactionsByPage | src/LoyaltyServices/Fidelis/Fidelis.php:95-113 | one page: a fault on the page request is failure 400 with its message, otherwise the page's decoded envelope |
| Pagination.PageService.Fetch | src/LoyaltyServices/Fidelis/Fidelis.php:132 | one page call: answers the page's reply and appends exactly that page number to the log |
| Pagination.PageCount | src/LoyaltyServices/Fidelis/Fidelis.php:128-131 | `$meta->PgCount` read as a number; a missing summary record or column reads as 0 |
| Pagination.PageCountOfDigits | src/LoyaltyServices/Fidelis/Fidelis.php:128-131 | a page count sent as a digit string is that number |
| Pagination.FirstRows | src/LoyaltyServices/Fidelis/Fidelis.php:126 | page 1's `Table1` rows, none when `Table1` is absent |
| Pagination.RowsFrom | src/LoyaltyServices/Fidelis/Fidelis.php:131-137 | the merged rows of a range of pages; none for an empty range; every failure comes from a page of the range, as its own failure or as the merge failure naming it |
| Pagination.Transactions | src/LoyaltyServices/Fidelis/Fidelis.php:121-141 | the listing: a failed page 1 is that failure; a successful listing starts with page 1's rows; with one page it is exactly page 1's rows |
| Pagination.Span | src/LoyaltyServices/Fidelis/Fidelis.php:129-136 | the pages lo..hi, hi - lo + 1 of them, none when hi < lo |
| Pagination.SpanAscending | src/LoyaltyServices/Fidelis/Fidelis.php:129-136 | entry i of the pages lo..hi is lo + i: ascending by one, none repeated or skipped |
| Pagination.SpanCons | src/LoyaltyServices/Fidelis/Fidelis.php:123-136 | page 1 followed by pages 2..n is pages 1..n |
| Pagination.LastPage | src/LoyaltyServices/Fidelis/Fidelis.php:128-131 | the last page requested is at least 1 and at least the announced count, and is either 1 or that count |
| Pagination.GetTransactions | src/LoyaltyServices/Fidelis/Fidelis.php:121-141 | returns the listing `Transactions`; the service's log grows by exactly pages 1, 2, ..., k in that order, with k = 1 when page 1 fails, k at most max(1, count of page 1), and k equal to it on success; every later page before k answered with rows; when page 1 answered but the listing fails, page k did not answer and its failure is the result; it terminates |
| Pagination.MergeLaterPages | src/LoyaltyServices/Fidelis/Fidelis.php:128-137 | the `while` loop: its result is page 1's rows followed by the rows of pages 2..count, or the first failure; the log grows by exactly pages 2, 3, ..., k in order, at most up to the count and all of them on success; pages 2..k-1 answered with rows, the result succeeds exactly when page k did too, and otherwise it is page k's failure, so no page after a failing one is asked for |
| Pagination.PrependTwice | src/LoyaltyServices/Fidelis/Fidelis.php:131-137 | merging two pages one after the other equals merging their rows at once |
| Pagination.RowsFromSucceeds | src/LoyaltyServices/Fidelis/Fidelis.php:131-137 | the merge of a range of pages succeeds exactly when every page of the range answers with `Table1` rows |
| Pagination.RowsFromStopsAtFirstRefusal | src/LoyaltyServices/Fidelis/Fidelis.php:131-137 | when pages before p answer with rows and page p does not, the merge fails with page p's own failure (its fault, or the merge failure for a missing `Table1`), whatever later pages hold |
| Pagination.RowsFromInOrder | src/LoyaltyServices/Fidelis/Fidelis.php:131-137 | when every later page answers with rows, the merged rows are those pages' rows in request order |
| Pagination.TransactionsInPageOrder | src/LoyaltyServices/Fidelis/Fidelis.php:121-141 | the listing is page 1's rows (none if absent) followed by the rows of pages 2..count in page order |
| Pagination.RowsFromIgnoresLaterSummary | src/LoyaltyServices/Fidelis/Fidelis.php:131-134 | later pages contribute only their rows: their summary records do not affect the result |
| Pagination.PageCountReadOnlyFromFirstPage | src/LoyaltyServices/Fidelis/Fidelis.php:123-137 | the page count is read from page 1 only: services that agree on page 1 and on later pages' rows give the same listing |
| Client.ReturnCode | src/LoyaltyServices/Fidelis/Fidelis.php:164 | `$response->Table->ReturnCode`: present exactly when the summary record has that column, and then its text |
| Client.Call | src/LoyaltyServices/Fidelis/Fidelis.php:72-80 | a fault fails with its message and code 400; a reply is read by the operation's interpreter |
| Client.CreatePurchaseTransaction | src/LoyaltyServices/Fidelis/Fidelis.php:152-180 | true exactly when the call goes through and the code matches "000"; a fault is failure 400 with its message |
| Client.CreateRedemptionTransaction | src/LoyaltyServices/Fidelis/Fidelis.php:190-240 | true exactly when the call goes through and the code matches "000"; a "060" reply fails naming the card |
| Client.GetCardBalance | src/LoyaltyServices/Fidelis/Fidelis.php:247-259 | succeeds exactly when the call goes through and returns the text of Column2 (Column1 ignored) |
| Client.GetCardBalances | src/LoyaltyServices/Fidelis/Fidelis.php:267-281 | succeeds exactly when the call goes through and returns the summary record or nothing |
| Client.GetCardholderByCardNumber | src/LoyaltyServices/Fidelis/Fidelis.php:288-299 | succeeds exactly when the call goes through and returns the summary record or null |
| Client.GetCardholderByEmail | src/LoyaltyServices/Fidelis/Fidelis.php:306-316 | succeeds exactly when the call goes through and returns the summary record or null |
| Client.GetVipStatus | src/LoyaltyServices/Fidelis/Fidelis.php:324-345 | succeeds exactly when the call goes through and the cast code is not 9 or 99, and then returns that code |
| Client.SetVipStatus | src/LoyaltyServices/Fidelis/Fidelis.php:354-379 | true exactly when the call goes through and the cast code is 1 |
| Client.GetPointsExpiringByEmail | src/LoyaltyServices/Fidelis/Fidelis.php:381-407 | succeeds exactly when the call goes through and the cast code is 0, returning the summary record |
| Client.PurchaseEchoSucceeds | src/LoyaltyServices/Fidelis/Fidelis.php:162-166 | a service answering "000" to the purchase request makes the purchase return true |
| Client.RedemptionEchoSucceeds | src/LoyaltyServices/Fidelis/Fidelis.php:201-205 | a service answering "000" to the redemption request makes the redemption return true |
| Client.SetVipEchoSucceeds | src/LoyaltyServices/Fidelis/Fidelis.php:362-368 | a service answering "1" makes setVipStatus return true |
| Client.GetVipEchoReturnsStatus | src/LoyaltyServices/Fidelis/Fidelis.php:331-343 | a service answering "3" makes getVipStatus return the status 3 |
| Client.OneDigitCast | src/LoyaltyServices/Fidelis/Fidelis.php:333 | a one-digit code casts to its digit |
| Client.PointsExpiringEchoSucceeds | src/LoyaltyServices/Fidelis/Fidelis.php:390-396 | a service answering "0" makes getPointsExpiringByEmail return the summary record |
| Client.GetTransactions | src/LoyaltyServices/Fidelis/Fidelis.php:121-141 | the client's listing is the listing loop run over getTransactionsByPage with the date range fixed, so it returns `Transactions` of that page function; a fault on page 1 is failure 400 with the fault's message |
| Client.ListingEchoSucceeds | src/LoyaltyServices/Fidelis/Fidelis.php:123-140 | a first page with no page count and no rows is the whole listing, which is empty |

## Left out

- The SOAP plumbing is left out because it is transport I/O. This covers
  `SoapClient` construction, the WSDL addresses, `__soapCall`, and choosing
  the service by property name (every modelled operation uses the general
  service). The remote call is the parameter `invoke`.
- Response decoding (`simplexml_load_string`, then `json_encode` and
  `json_decode`) is a foreign parser, so it is left out. The decoded reply
  is the abstract `Envelope`. This model cannot express that a single-row
  `Table1` decodes as an object instead of a list, or that an empty element
  decodes as `{}`.
- Time-zone conversion and date formatting are civil-time library logic.
  Date bounds, the balances date and the points-expiring last day all arrive
  as already formatted strings.
- Client.GetPointsExpiringByEmail: the last day is an input because the
  source builds it with `strtotime` on a `year=month` string, and PHP's
  parser is not part of this model.
- Client.GetCardBalance: returns the text of `Column2` without the `(float)`
  conversion, because floating point is not modelled.
- Client.GetCardBalances: a missing summary record is returned as nothing,
  where the source returns an empty array. `Table` is modelled as one
  record, so a reply carrying several balance rows (decoded as a list) is
  not represented.
- Client.GetCardholderByEmail: `Table` is modelled as one record, so
  several cardholders sharing an e-mail address (decoded as a list) are not
  represented.
- Codes.PurchaseOutcome and Codes.RedemptionOutcome: the default branch
  gives the intended failure `UnknownResponse(500)`, without the reply text
  the message was meant to carry. As written the source crashes there (see
  Findings). When the XML itself fails to parse, the decoded reply is
  `false` and the message does get built; decoding is outside this model.
- Php.LooseEquals: recognises only plain digit strings as numeric. PHP's
  other numeric-string forms (surrounding whitespace, a sign, a fraction,
  an exponent) are not modelled; the vendor's codes are plain digits or
  letters.
- Php.IntCast: `(int)` is modelled without exponent notation and
  without saturation at the 64-bit limits.
- Pagination.MergeLaterPages: the PHP 5 to 7 path is not modelled. There
  `array_merge` with a missing `Table1` only raises a warning and returns
  null, so the accumulator becomes null, the remaining pages up to the
  count are still requested, and `getTransactions` returns null. The model
  follows PHP 8, where the TypeError ends the listing at that page.
- Pagination.LastPage: the page count is compared as the cast integer. A
  non-numeric `PgCount` text compares as a string under PHP 8, and that is
  not modelled. For `PgCount = "abc"` both `"abc" > 1` and every
  `$page <= "abc"` hold, so the source's loop would run until a page fails.
  The model's termination claim covers numeric counts only.
- Parameter arrays are maps, so the order of keys on the wire is not
  modelled.
- Card numbers are strings. The source also accepts integers, whose decimal
  text is what the "060" message shows.
- The FidelisException class is not part of this model. A failure is its
  message and code, and a missing code is PHP's default, 0.
- The service provider is left out: it only registers the client with the
  framework and has no logic of its own.

## Findings

| source | as written | input that shows it | evidently intended | confidence | as-written member | corrected member |
|---|---|---|---|---|---|---|
| src/LoyaltyServices/Fidelis/Fidelis.php:178 | the default branch appends `$response`, a decoded stdClass object, to the message; PHP raises "Object of class stdClass could not be converted to string" before any exception exists | a purchase reply whose ReturnCode is "999" | a FidelisException with code 500 for an unknown code | high; not executed | Codes.PurchaseOutcomeAsWritten | Codes.PurchaseOutcome |
| src/LoyaltyServices/Fidelis/Fidelis.php:238 | the same concatenation in the redemption default branch | a redemption reply whose ReturnCode is "999" | a FidelisException with code 500 for an unknown code | high; not executed | Codes.RedemptionOutcomeAsWritten | Codes.RedemptionOutcome |
