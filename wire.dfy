/** What travels between the client and the remote invoker: scalar request
    parameters, the decoded response envelope, transport faults, and the
    outcome every public operation returns. */
module Wire {
  import opened Php

  datatype Option<+T> = None | Some(value: T)

  /** A scalar request parameter: a PHP string, integer, number with a
      fraction, or null. */
  datatype Value = Str(s: string) | Int(i: int) | Dec(d: real) | Null

  /** The parameter array handed to the SOAP call, keyed by field name. */
  type Params = map<string, Value>

  /** One decoded result row: column name to the text of the cell. */
  type Record = map<string, string>

  /** The decoded `<function>Result` payload: the summary record `Table` and
      the primary result rows `Table1`, each of which may be absent. */
  datatype Envelope = Envelope(table: Option<Record>, table1: Option<seq<Record>>)

  /** One outbound remote call: the operation name and its parameters. */
  datatype Request = Request(operation: string, params: Params)

  /** What the remote invoker gives back: a transport fault with its
      message, or a decoded envelope. */
  datatype Reply = Fault(message: string) | Response(envelope: Envelope)

  /** The programme identity (the WCF) and the virtual terminal id, fixed when
      the client is constructed. */
  datatype Identity = Identity(wcf: string, virtualTerminalId: string)

  /** Why an operation did not succeed.
      Raised: a FidelisException with this message and code.
      UnknownResponse: the failure with code 500 that the default branches
        of the purchase and redemption switches are meant to raise for an
        unlisted code (the message would embed the reply).
      ConversionError: the PHP Error raised when a decoded reply, an object
        of class stdClass, is appended to a string.
      MergeError: the PHP runtime error raised when a later page of the
        transaction listing has no `Table1` to merge. */
  datatype Failure =
    | Raised(message: string, code: int)
    | UnknownResponse(code: int)
    | ConversionError
    | MergeError(page: int)

  /** An operand of PHP's `.` operator: text, or a decoded reply, which
      `json_decode` gives as an object of class stdClass. */
  datatype Operand = Text(s: string) | DecodedObject

  /** PHP's string concatenation: text is appended; an object with no
      string conversion makes PHP raise an Error instead of a string. */
  function Concat(prefix: string, v: Operand): (r: Option<string>)
    ensures r.None? <==> v.DecodedObject?
    ensures r.Some? ==> prefix <= r.value
  {
    match v
    case Text(t) => Some(prefix + t)
    case DecodedObject => None
  }

  datatype Outcome<+T> = Ok(value: T) | Err(failure: Failure)

  /** The identity key every operation uses unless it names another one. */
  const WcfKey := "WCF"

  /** The code a transport fault is rethrown with. */
  const FaultCode := 400

  /** The code of a FidelisException built without one (PHP's default). */
  const NoCode := 0

  /** makeRequest's `$params[$WCFKey] = $this->WCF`: the identity goes in
      under `key`, replacing whatever was there, and nothing else changes. */
  function WithIdentity(params: Params, key: string, id: Identity): (p: Params)
    ensures p.Keys == params.Keys + {key}
    ensures p[key] == Str(id.wcf)
    ensures forall k :: k in params && k != key ==> p[k] == params[k]
  {
    params[key := Str(id.wcf)]
  }

  /** The call makeRequest sends for `operation`, with the identity put in
      under `key`. */
  function Outbound(id: Identity, operation: string, params: Params, key: string): (r: Request)
    ensures r.operation == operation
    ensures r.params == WithIdentity(params, key, id)
  {
    Request(operation, WithIdentity(params, key, id))
  }

  /** The rest of makeRequest: perform the call; a transport fault becomes a
      failure with code 400 carrying the fault's message, and a reply is
      handed on as its decoded envelope. */
  function Exchange(invoke: Request -> Reply, request: Request): (r: Outcome<Envelope>)
    ensures r.Err? <==> invoke(request).Fault?
    ensures r.Err? ==> r.failure == Raised(invoke(request).message, FaultCode)
    ensures r.Ok? ==> r.value == invoke(request).envelope
  {
    match invoke(request)
    case Fault(message) => Err(Raised(message, FaultCode))
    case Response(envelope) => Ok(envelope)
  }

  /** `$response->Table-><name>`: absent when the summary record or the
      column is missing. */
  function Column(e: Envelope, name: string): (r: Option<string>)
    ensures r.Some? <==> e.table.Some? && name in e.table.value
    ensures r.Some? ==> r.value == e.table.value[name]
  {
    if e.table.Some? && name in e.table.value then Some(e.table.value[name]) else None
  }

  /** `(int)` of a column that may be absent: PHP casts null to 0. */
  function CastColumn(v: Option<string>): (n: int)
    ensures v.None? ==> n == 0
    ensures v.Some? && IsDigits(v.value) ==> n == DigitsValue(v.value)
  {
    match v
    case None => 0
    case Some(s) => IntCast(s)
  }

  /** A `switch` case test on a column that may be absent: PHP compares null
      with a string as the empty string. */
  predicate Matches(v: Option<string>, tag: string)
    ensures v == Some(tag) ==> Matches(v, tag)
    ensures v.None? ==> (Matches(v, tag) <==> tag == "")
    ensures v.Some? && |v.value| == |tag| ==> (Matches(v, tag) <==> v.value == tag)
  {
    if v.Some? then LooseEquals(v.value, tag) else tag == ""
  }
}
