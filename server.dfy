/**
 * The `POST /trade` handler: validate the request, price it, demand payment
 * with a 402 challenge when no proof is attached, verify the proof (against
 * an escrow deposit or as a direct payment), place the order, settle the
 * escrow (refund on failure, release on success) and record the trade.
 */
module Server {
  import opened Wrappers
  import opened Text
  import opened Chains
  import opened X402
  import opened Escrow
  import opened Prices
  import opened Orders

  // ---------------------------------------------------------------------------
  // Requests and configuration
  // ---------------------------------------------------------------------------

  /**
   * The JSON object of a request body: its keys and the three fields the
   * handler reads (None when the key is absent or its value is null).
   */
  datatype Body = Body(keys: set<string>, contract: Option<string>, quantity: Option<int>, side: Option<string>)

  /** A `POST /trade`: the body (None when there is none) and the `X-Agent-ID` and `PAYMENT-SIGNATURE` headers. */
  datatype TradeRequest = TradeRequest(body: Option<Body>, agentId: Option<string>, paymentSignature: Option<string>)

  /** The environment settings the handler reads per request. */
  datatype Env = Env(recipient: Option<string>, chain: Option<string>, escrowAddress: Option<string>)

  /** `os.getenv("X402_CHAIN", "ethereum")`. */
  function ChainSetting(env: Env): string {
    env.chain.GetOr("ethereum")
  }

  /** The collaborators, wired once at start-up; no escrow handler when escrow is not configured. */
  datatype Services = Services(x402: X402Handler, prices: PriceChecker, executor: TradeExecutor,
                               escrow: Option<EscrowHandler>, env: Env)

  /** The objects a request may change besides the server: the escrow handler's log of sent transactions. */
  function EscrowFrame(svc: Services): set<object> {
    if svc.escrow.Some? then {svc.escrow.value} else {}
  }

  /**
   * What the outside world answers during one request: the market data
   * service, the facilitator, the chain registry and endpoints, the escrow
   * chain's endpoint, the exchange, the clock (milliseconds for the order
   * signature, and the text of `time.time()`), SHA-256 of a text's UTF-8
   * bytes, Python's rendering of a float, and whether the ledger insert
   * succeeds.
   */
  datatype World = World(market: MarketService, facilitator: Facilitator, registry: Registry, nodes: Nodes,
                         escrowNode: EscrowNode, exchange: Exchange, millis: nat, now: string,
                         sha256: string -> seq<Byte>, showFloat: real -> string, ledgerAccepts: bool)

  // ---------------------------------------------------------------------------
  // Validation
  // ---------------------------------------------------------------------------

  datatype InputError = MissingBody | MissingContract | InvalidQuantity | InvalidSide

  /** A valid request: the ticker, a positive quantity, the side and the agent. */
  datatype Intent = Intent(ticker: string, quantity: nat, side: string, agentId: string)

  /** The checks in their order: a body, a contract, a positive quantity, a side of "yes" or "no". */
  function Validate(rq: TradeRequest): (r: Result<Intent, InputError>)
    ensures r == Failure(MissingBody) <==> rq.body.None? || rq.body.value.keys == {}
    ensures r == Failure(MissingContract) <==> rq.body.Some? && rq.body.value.keys != {}
                                               && !Truthy(rq.body.value.contract)
    ensures r == Failure(InvalidQuantity) <==> rq.body.Some? && rq.body.value.keys != {}
                                               && Truthy(rq.body.value.contract)
                                               && !(rq.body.value.quantity.Some? && rq.body.value.quantity.value > 0)
    ensures r.Success? <==> && rq.body.Some? && rq.body.value.keys != {} && Truthy(rq.body.value.contract)
                            && rq.body.value.quantity.Some? && rq.body.value.quantity.value > 0
                            && rq.body.value.side.Some? && rq.body.value.side.value in {"yes", "no"}
    ensures r.Success? ==> && r.value.ticker == rq.body.value.contract.value
                           && r.value.quantity == rq.body.value.quantity.value
                           && r.value.side == rq.body.value.side.value
                           && r.value.agentId == rq.agentId.GetOr("unknown")
  {
    if rq.body.None? || rq.body.value.keys == {} then Failure(MissingBody)
    else
      var b := rq.body.value;
      if !Truthy(b.contract) then Failure(MissingContract)
      else if b.quantity.None? || b.quantity.value <= 0 then Failure(InvalidQuantity)
      else if b.side.None? || b.side.value !in {"yes", "no"} then Failure(InvalidSide)
      else Success(Intent(b.contract.value, b.quantity.value, b.side.value, rq.agentId.GetOr("unknown")))
  }

  // ---------------------------------------------------------------------------
  // Responses and the record of what was done
  // ---------------------------------------------------------------------------

  /** Why a proof is refused with a 402. */
  datatype Rejection =
    | InvalidHashFormat
    | DepositNotFound
    | AmountMismatch
    | RecipientMismatch
    | EscrowCheckFailed
    | PaymentNotVerified

  /** The 200 body of a filled order. */
  datatype TradeReceipt = TradeReceipt(tradeId: string, price: real, quantity: nat, contract: string, side: string,
                                       totalCost: real, agentId: string)

  datatype Response =
    | BadRequest(error: InputError)
    | PriceUnavailable(contract: string)
    | PaymentRequired(challenge: Challenge)
    | PaymentRejected(reason: Rejection, requiredAmount: real)
    | TradeFailed(contract: string, refunded: bool)
    | Filled(receipt: TradeReceipt)
    /** An exception the handler does not catch; the framework answers 500. */
    | InternalError

  function Status(r: Response): int {
    match r
    case BadRequest(_) => 400
    case PriceUnavailable(_) => 500
    case PaymentRequired(c) => c.status
    case PaymentRejected(_, _) => 402
    case TradeFailed(_, _) => 500
    case Filled(_) => 200
    case InternalError => 500
  }

  /** The row `record_trade` inserts. */
  datatype LedgerRecord = LedgerRecord(agentId: string, contract: string, quantity: nat, side: string, tradeId: string,
                                       price: real, totalCost: real, paymentTxHash: string)

  /** A call the handler makes to a collaborator. */
  datatype Call =
    | PriceLookup(ticker: string, side: string)
    | PaymentCheck(proof: string, amount: real)
    | DepositLookup(tradeHash: seq<Byte>)
    | OrderSubmission(ticker: string, side: string, quantity: nat, price: real)
    | RefundAttempt(tradeHash: seq<Byte>)
    | ReleaseAttempt(tradeHash: seq<Byte>, tradeId: string)
    | LedgerAppend(record: LedgerRecord)

  /** What one request does: its response, its calls in order, the ledger rows and the escrow transactions it adds. */
  datatype Outcome = Outcome(response: Response, calls: seq<Call>, recorded: seq<LedgerRecord>, sent: seq<EscrowTx>)

  function After(calls: seq<Call>, out: Outcome): Outcome {
    out.(calls := calls + out.calls)
  }

  // ---------------------------------------------------------------------------
  // The 402 challenge
  // ---------------------------------------------------------------------------

  /** `f"Kalshi trade: {contract_ticker} {side} x{quantity}"`. */
  function Memo(intent: Intent): string {
    "Kalshi trade: " + intent.ticker + " " + intent.side + " x" + NatToString(intent.quantity)
  }

  /** `sha256(...).digest()[:32]`. */
  function Prefix32(d: seq<Byte>): (r: seq<Byte>)
    ensures |r| == if |d| <= 32 then |d| else 32
    ensures r <= d
  {
    if |d| <= 32 then d else d[..32]
  }

  /** The trade hash derived from the agent, the order and the clock: "0x" and the hex of the digest. */
  function TradeHash(intent: Intent, w: World): (r: string)
    ensures StartsWith(r, "0x")
    ensures |r| == 2 + 2 * |Prefix32(w.sha256(intent.agentId + ":" + intent.ticker + ":" + NatToString(intent.quantity)
                                               + ":" + intent.side + ":" + w.now))|
    ensures forall i :: 2 <= i < |r| ==> IsHexDigit(r[i]) && !('A' <= r[i] <= 'Z')
  {
    var data := intent.agentId + ":" + intent.ticker + ":" + NatToString(intent.quantity) + ":" + intent.side
                + ":" + w.now;
    "0x" + Hex(Prefix32(w.sha256(data)))
  }

  /** The arguments the no-proof branch passes to `require_payment`, by keyword. */
  datatype PaymentArgs = PaymentArgs(amount: real, currency: string, recipient: Option<string>, memo: string,
                                     chain: string, escrowAddress: Option<string>, tradeHash: Option<string>)

  function PaymentArgsFor(svc: Services, w: World, intent: Intent, required: real): PaymentArgs {
    var escrowAddress := svc.env.escrowAddress;
    PaymentArgs(required, "USDC", svc.env.recipient, Memo(intent), ChainSetting(svc.env), escrowAddress,
                if Truthy(escrowAddress) then Some(TradeHash(intent, w)) else None)
  }

  /** The keyword parameters `require_payment` declares. */
  const RequirePaymentParams: set<string> := {"amount_usd", "currency", "recipient_address", "memo", "chain"}

  /**
   * The keywords the no-proof branch passes as written: `escrow_address` and
   * `trade_hash` as well, which `require_payment` does not declare.
   */
  const NoProofKeywordsAsWritten: set<string> := RequirePaymentParams + {"escrow_address", "trade_hash"}

  /**
   * A call of `require_payment` by keyword. Python raises TypeError, None
   * here, when a keyword names no parameter or when the required
   * `amount_usd` is missing; an omitted optional parameter takes its declared
   * default: "USDC", None, "" and "ethereum".
   */
  function CallRequirePayment(h: X402Handler, keywords: set<string>, args: PaymentArgs, show: real -> string)
    : (r: Option<Challenge>)
    ensures r.Some? <==> "amount_usd" in keywords && keywords <= RequirePaymentParams
    ensures keywords == RequirePaymentParams ==>
              r == Some(RequirePayment(h, args.amount, show, args.currency, args.recipient, args.memo, args.chain))
    ensures keywords == {"amount_usd"} ==> r == Some(RequirePayment(h, args.amount, show, "USDC", None, "", "ethereum"))
  {
    if "amount_usd" in keywords && keywords <= RequirePaymentParams then
      Some(RequirePayment(h, args.amount, show,
                          if "currency" in keywords then args.currency else "USDC",
                          if "recipient_address" in keywords then args.recipient else None,
                          if "memo" in keywords then args.memo else "",
                          if "chain" in keywords then args.chain else "ethereum"))
    else None
  }

  /** The response of the no-proof branch when `require_payment` is called with `keywords`. */
  function NoProofResponse(svc: Services, w: World, intent: Intent, required: real, keywords: set<string>): Response {
    match CallRequirePayment(svc.x402, keywords, PaymentArgsFor(svc, w, intent, required), w.showFloat)
    case None => InternalError
    case Some(c) => PaymentRequired(c)
  }

  /** As written, the call raises for every request without a proof: the answer is a 500, never the challenge. */
  lemma NoProofAsWrittenRaises(svc: Services, w: World, intent: Intent, required: real)
    ensures NoProofResponse(svc, w, intent, required, NoProofKeywordsAsWritten) == InternalError
    ensures Status(NoProofResponse(svc, w, intent, required, NoProofKeywordsAsWritten)) == 500
  {
    assert "escrow_address" in NoProofKeywordsAsWritten && "escrow_address" !in RequirePaymentParams;
  }

  /**
   * Called with its declared parameters only, the branch answers 402 with the
   * header for the required amount in USDC, the resolved address, the chain
   * setting and the memo.
   */
  lemma NoProofChallenge(svc: Services, w: World, intent: Intent, required: real)
    ensures var r := NoProofResponse(svc, w, intent, required, RequirePaymentParams);
            var f := HeaderFields(w.showFloat(required), "USDC", PaymentAddress(svc.x402, svc.env.recipient),
                                  ChainSetting(svc.env), Memo(intent));
            && r.PaymentRequired? && Status(r) == 402
            && (Separable(f) ==> ParseHeader(r.challenge.headers["PAYMENT-REQUIRED"]) == Some(f))
  {
  }

  // ---------------------------------------------------------------------------
  // Proof classification and the escrow check
  // ---------------------------------------------------------------------------

  /** `payment_signature.replace('0x', '')`. */
  function HashText(proof: string): (r: string)
    ensures |r| <= |proof|
  {
    Remove(proof, "0x")
  }

  /** The escrow path: an escrow handler, and a proof that is 64 characters once every "0x" is removed. */
  predicate EscrowPath(svc: Services, proof: string) {
    svc.escrow.Some? && |HashText(proof)| == 64
  }

  /** The escrow check accepts an amount within 0.01 of the required one, the bound included. */
  predicate WithinEscrowTolerance(amount: real, required: real) {
    -0.01 <= amount - required <= 0.01
  }

  /** The bytes the escrow path reads from a proof: the 32 bytes its hex text decodes to, when it does. */
  function EscrowHashBytes(proof: string): (r: Option<seq<Byte>>)
    ensures r.Some? <==> FromHex(HashText(proof)).Some? && |FromHex(HashText(proof)).value| == 32
    ensures r.Some? ==> r == FromHex(HashText(proof))
  {
    var b := FromHex(HashText(proof));
    if b.Some? && |b.value| == 32 then b else None
  }

  /** The deposit read the escrow check makes: one, when the trade hash decodes. */
  function DepositLookups(proof: string): seq<Call> {
    if EscrowHashBytes(proof).Some? then [DepositLookup(EscrowHashBytes(proof).value)] else []
  }

  /**
   * The escrow check: the hex text must decode (a ValueError is caught and
   * answered 402) to 32 bytes; the deposit must be active, its amount within
   * the tolerance and its recipient the configured one ignoring case, where an
   * unset recipient raises on `.lower()` and is caught. The result is the
   * trade hash when everything holds.
   */
  function EscrowCheck(node: EscrowNode, proof: string, required: real, recipient: Option<string>)
    : (r: Result<seq<Byte>, Rejection>)
    ensures r.Success? ==> EscrowHashBytes(proof) == Some(r.value)
  {
    var decoded := FromHex(HashText(proof));
    if decoded.None? then Failure(EscrowCheckFailed)
    else if |decoded.value| != 32 then Failure(InvalidHashFormat)
    else
      var (active, info) := VerifyDeposit(node.trades, decoded.value);
      if !active then Failure(DepositNotFound)
      else if !WithinEscrowTolerance(info.value.amount, required) then Failure(AmountMismatch)
      else if recipient.None? then Failure(EscrowCheckFailed)
      else if Lower(info.value.recipient) != Lower(recipient.value) then Failure(RecipientMismatch)
      else Success(decoded.value)
  }

  /** The escrow check passes exactly for an active deposit of the right amount to the right recipient. */
  lemma EscrowCheckAccepts(node: EscrowNode, proof: string, required: real, recipient: Option<string>)
    ensures EscrowCheck(node, proof, required, recipient).Success? <==>
              && EscrowHashBytes(proof).Some? && EscrowHashBytes(proof).value in node.trades
              && var t := node.trades[EscrowHashBytes(proof).value];
                 && !t.released && !t.refunded && Exists(t)
                 && WithinEscrowTolerance(Interpret(t).amount, required)
                 && recipient.Some? && EqualIgnoringCase(t.recipient, recipient.value)
  {
  }

  /**
   * The two tolerances differ at the bound: a deposit or a transfer exactly
   * 0.01 USDC above the required amount passes the escrow check and fails the
   * on-chain check.
   */
  lemma ToleranceBoundary(required: nat)
    ensures WithinEscrowTolerance((required + 10000) as real / MicroUnits, required as real / MicroUnits)
    ensures !WithinTransferTolerance(required + 10000, required as real / MicroUnits)
  {
    assert (required + 10000) as real / MicroUnits - required as real / MicroUnits == 0.01;
  }

  /** A hash the challenge issues is classified as an escrow trade hash, and decodes back to its digest. */
  lemma IssuedHashTakesEscrowPath(svc: Services, w: World, intent: Intent)
    requires svc.escrow.Some?
    requires |w.sha256(intent.agentId + ":" + intent.ticker + ":" + NatToString(intent.quantity) + ":"
                       + intent.side + ":" + w.now)| >= 32
    ensures EscrowPath(svc, TradeHash(intent, w))
    ensures EscrowHashBytes(TradeHash(intent, w)).Some?
  {
    var data := intent.agentId + ":" + intent.ticker + ":" + NatToString(intent.quantity) + ":" + intent.side
                + ":" + w.now;
    var digest := Prefix32(w.sha256(data));
    var text := Hex(digest);
    RemoveLeading("0x", text);
    RemoveAbsent(text, "0x");
    FromHexOfHex(digest);
  }

  // ---------------------------------------------------------------------------
  // The pipeline
  // ---------------------------------------------------------------------------

  /** The refund attempted after a failed order: the calls and the transactions it adds. */
  function RefundStep(h: EscrowHandler, node: EscrowNode, proof: string): (seq<Call>, seq<EscrowTx>) {
    match FromHex(HashText(proof))
    case None => ([], [])
    case Some(b) => ([RefundAttempt(b)], Appended(Submission(node, h.account, h.escrowAddress, h.config, Refund(b))))
  }

  /** The release attempted after a filled order; its failure is logged and the request goes on. */
  function ReleaseStep(h: EscrowHandler, node: EscrowNode, proof: string, tradeId: string): (seq<Call>, seq<EscrowTx>) {
    match FromHex(HashText(proof))
    case None => ([], [])
    case Some(b) =>
      ([ReleaseAttempt(b, tradeId)], Appended(Submission(node, h.account, h.escrowAddress, h.config, Release(b, tradeId))))
  }

  /** The settlement after an order: a refund when it failed, a release when it was filled. */
  function SettleStep(h: EscrowHandler, node: EscrowNode, proof: string, tradeId: Option<string>)
    : (seq<Call>, seq<EscrowTx>) {
    if tradeId.None? then RefundStep(h, node, proof) else ReleaseStep(h, node, proof, tradeId.value)
  }

  /**
   * After the order: on failure the refund (escrow path only) and a 500 whose
   * `refunded` flag is whether the escrow path was taken; on success the
   * release (escrow path only) and the ledger row, whose failure is not caught.
   */
  function Settlement(svc: Services, w: World, intent: Intent, price: real, required: real, proof: string,
                      tradeId: Option<string>): Outcome {
    if !Truthy(tradeId) then
      Outcome(TradeFailed(intent.ticker, EscrowPath(svc, proof)), EscrowSettlement(svc, w, proof, None).0, [],
              EscrowSettlement(svc, w, proof, None).1)
    else
      Recorded(w, intent, price, required, proof, tradeId.value, EscrowSettlement(svc, w, proof, tradeId))
  }

  /** The settlement on the escrow path, nothing off it. */
  function EscrowSettlement(svc: Services, w: World, proof: string, tradeId: Option<string>): (seq<Call>, seq<EscrowTx>) {
    if EscrowPath(svc, proof) then SettleStep(svc.escrow.value, w.escrowNode, proof, tradeId) else ([], [])
  }

  /** The price of `quantity` contracts at `price` each: the amount the payment must cover. */
  function Cost(price: real, quantity: nat): real {
    price * quantity as real
  }

  /** The ledger row of a filled order. */
  function RecordOf(intent: Intent, price: real, proof: string, tradeId: string): LedgerRecord {
    LedgerRecord(intent.agentId, intent.ticker, intent.quantity, intent.side, tradeId, price,
                 Cost(price, intent.quantity), proof)
  }

  /** After a filled order's settlement: the ledger append, and the receipt when the ledger accepts the row. */
  function Recorded(w: World, intent: Intent, price: real, required: real, proof: string, tradeId: string,
                    settle: (seq<Call>, seq<EscrowTx>)): Outcome {
    if w.ledgerAccepts then
      Outcome(Filled(TradeReceipt(tradeId, price, intent.quantity, intent.ticker, intent.side, required, intent.agentId)),
              settle.0 + [LedgerAppend(RecordOf(intent, price, proof, tradeId))], [RecordOf(intent, price, proof, tradeId)],
              settle.1)
    else Outcome(InternalError, settle.0 + [LedgerAppend(RecordOf(intent, price, proof, tradeId))], [], settle.1)
  }

  /** The order, then its settlement. */
  function Execute(svc: Services, w: World, intent: Intent, price: real, required: real, proof: string): Outcome {
    After([OrderSubmission(intent.ticker, intent.side, intent.quantity, price)],
          Settlement(svc, w, intent, price, required, proof, OrderResult(svc, w, intent, price)))
  }

  /** The order id the executor returns for the intent at the price. */
  function OrderResult(svc: Services, w: World, intent: Intent, price: real): Option<string> {
    TradeOutcome(svc.executor, intent.ticker, intent.side, intent.quantity, price, w.millis, w.exchange)
  }

  /** `verify_payment` as the handler calls it. */
  predicate DirectPaymentVerified(svc: Services, w: World, proof: string, required: real) {
    PaymentVerified(svc.x402, proof, required, "USDC", svc.env.recipient, Some(ChainSetting(svc.env)),
                    w.registry, w.nodes, w.facilitator)
  }

  /** The outcome of verifying a proof: the reason it is refused, if it is, and the calls made. */
  datatype Verdict = Verdict(rejection: Option<Rejection>, calls: seq<Call>)

  /** Verification on the path the proof's shape selects. */
  function ProofVerdict(svc: Services, w: World, proof: string, required: real): Verdict {
    if EscrowPath(svc, proof) then
      var check := EscrowCheck(w.escrowNode, proof, required, svc.env.recipient);
      Verdict(if check.Failure? then Some(check.error) else None, DepositLookups(proof))
    else
      Verdict(if DirectPaymentVerified(svc, w, proof, required) then None else Some(PaymentNotVerified),
              [PaymentCheck(proof, required)])
  }

  /** Verification, then the order when it passes. */
  function Verify(svc: Services, w: World, intent: Intent, price: real, required: real, proof: string): Outcome {
    var v := ProofVerdict(svc, w, proof, required);
    if v.rejection.Some? then Outcome(PaymentRejected(v.rejection.value, required), v.calls, [], [])
    else After(v.calls, Execute(svc, w, intent, price, required, proof))
  }

  /** Everything after the price is known: the challenge when there is no proof, verification otherwise. */
  function Priced(svc: Services, w: World, rq: TradeRequest, intent: Intent, price: real): Outcome {
    var required := Cost(price, intent.quantity);
    if !Truthy(rq.paymentSignature) then
      Outcome(NoProofResponse(svc, w, intent, required, RequirePaymentParams), [], [], [])
    else Verify(svc, w, intent, price, required, rq.paymentSignature.value)
  }

  /** The price the checker reports for the intended side. */
  function PriceOf(svc: Services, w: World, intent: Intent): Option<real> {
    GetCurrentPrice(svc.prices, intent.ticker, intent.side, w.market)
  }

  /** Step 2 and what follows: the price lookup, then the answer when a price is found. */
  function Quoted(svc: Services, w: World, rq: TradeRequest, intent: Intent): Outcome {
    var lookup := [PriceLookup(intent.ticker, intent.side)];
    match PriceOf(svc, w, intent)
    case None => Outcome(PriceUnavailable(intent.ticker), lookup, [], [])
    case Some(price) => After(lookup, Priced(svc, w, rq, intent, price))
  }

  /** What `execute_trade` does with a request. */
  function Run(svc: Services, w: World, rq: TradeRequest): Outcome {
    match Validate(rq)
    case Failure(e) => Outcome(BadRequest(e), [], [], [])
    case Success(intent) => Quoted(svc, w, rq, intent)
  }

  // ---------------------------------------------------------------------------
  // Properties of the pipeline
  // ---------------------------------------------------------------------------

  /** An order was submitted to the exchange. */
  predicate OrderPlaced(out: Outcome) {
    exists i :: 0 <= i < |out.calls| && out.calls[i].OrderSubmission?
  }

  /** The request is valid, priced, carries a proof, and the proof passes verification. */
  predicate PaymentAccepted(svc: Services, w: World, rq: TradeRequest) {
    && Validate(rq).Success?
    && PriceOf(svc, w, Validate(rq).value).Some?
    && Truthy(rq.paymentSignature)
    && ProofVerdict(svc, w, rq.paymentSignature.value,
                    Cost(PriceOf(svc, w, Validate(rq).value).value, Validate(rq).value.quantity)).rejection.None?
  }

  /** An invalid request is answered 400 before any collaborator is called. */
  lemma InvalidRequestCallsNothing(svc: Services, w: World, rq: TradeRequest)
    requires Validate(rq).Failure?
    ensures Run(svc, w, rq) == Outcome(BadRequest(Validate(rq).error), [], [], [])
    ensures Status(Run(svc, w, rq).response) == 400
  {
  }

  /** Without a price the answer is 500, and the price lookup is the only call. */
  lemma NoPriceNoFurtherCalls(svc: Services, w: World, rq: TradeRequest)
    requires Validate(rq).Success? && PriceOf(svc, w, Validate(rq).value).None?
    ensures var intent := Validate(rq).value;
            Run(svc, w, rq) == Outcome(PriceUnavailable(intent.ticker), [PriceLookup(intent.ticker, intent.side)], [], [])
    ensures Status(Run(svc, w, rq).response) == 500
  {
  }

  /**
   * Without a proof the answer is the 402 challenge for the price times the
   * quantity in USDC, with the order's memo; neither the executor nor the
   * ledger nor the escrow is called.
   */
  lemma NoProofGetsChallenge(svc: Services, w: World, rq: TradeRequest)
    requires Validate(rq).Success? && PriceOf(svc, w, Validate(rq).value).Some?
    requires !Truthy(rq.paymentSignature)
    ensures var intent := Validate(rq).value;
            var price := PriceOf(svc, w, intent).value;
            var out := Run(svc, w, rq);
            && out.response == PaymentRequired(RequirePayment(svc.x402, Cost(price, intent.quantity), w.showFloat, "USDC",
                                                              svc.env.recipient, Memo(intent), ChainSetting(svc.env)))
            && Status(out.response) == 402
            && out.calls == [PriceLookup(intent.ticker, intent.side)] && out.recorded == [] && out.sent == []
  {
    var intent := Validate(rq).value;
    NoProofChallenge(svc, w, intent, Cost(PriceOf(svc, w, intent).value, intent.quantity));
  }

  /** A refused proof is answered 402 with the required amount, after the verification calls only. */
  lemma RefusedProofGetsRejection(svc: Services, w: World, rq: TradeRequest)
    requires Validate(rq).Success? && PriceOf(svc, w, Validate(rq).value).Some? && Truthy(rq.paymentSignature)
    requires !PaymentAccepted(svc, w, rq)
    ensures var intent := Validate(rq).value;
            var required := Cost(PriceOf(svc, w, intent).value, intent.quantity);
            var v := ProofVerdict(svc, w, rq.paymentSignature.value, required);
            var out := Run(svc, w, rq);
            && out == Outcome(PaymentRejected(v.rejection.value, required),
                              [PriceLookup(intent.ticker, intent.side)] + v.calls, [], [])
            && Status(out.response) == 402
  {
  }

  /**
   * The executor runs exactly when the payment is accepted, and then right
   * after the price lookup and the verification calls.
   */
  lemma OrderOnlyAfterVerification(svc: Services, w: World, rq: TradeRequest)
    ensures OrderPlaced(Run(svc, w, rq)) <==> PaymentAccepted(svc, w, rq)
    ensures PaymentAccepted(svc, w, rq) ==>
              var intent := Validate(rq).value;
              var price := PriceOf(svc, w, intent).value;
              var v := ProofVerdict(svc, w, rq.paymentSignature.value, Cost(price, intent.quantity));
              var calls := Run(svc, w, rq).calls;
              && |calls| > 1 + |v.calls|
              && calls[..1 + |v.calls|] == [PriceLookup(intent.ticker, intent.side)] + v.calls
              && calls[1 + |v.calls|] == OrderSubmission(intent.ticker, intent.side, intent.quantity, price)
  {
    if Validate(rq).Success? && PriceOf(svc, w, Validate(rq).value).Some? && Truthy(rq.paymentSignature) {
      var intent := Validate(rq).value;
      var price := PriceOf(svc, w, intent).value;
      var required := Cost(price, intent.quantity);
      var proof := rq.paymentSignature.value;
      var lookup := [PriceLookup(intent.ticker, intent.side)];
      var v := ProofVerdict(svc, w, proof, required);
      VerificationGatesOrder(svc, w, intent, price, required, proof);
      var calls := Run(svc, w, rq).calls;
      assert calls == lookup + Verify(svc, w, intent, price, required, proof).calls;
      if v.rejection.None? {
        var rest := Execute(svc, w, intent, price, required, proof).calls;
        assert calls == (lookup + v.calls) + rest;
        assert calls[1 + |v.calls|] == rest[0];
        assert calls[1 + |v.calls|].OrderSubmission?;
      } else {
        assert calls == lookup + v.calls;
      }
    }
  }

  /** Verification gates the order: it is placed exactly when the proof is accepted, after the verification calls. */
  lemma VerificationGatesOrder(svc: Services, w: World, intent: Intent, price: real, required: real, proof: string)
    ensures var v := ProofVerdict(svc, w, proof, required);
            && (forall i :: 0 <= i < |v.calls| ==> !v.calls[i].OrderSubmission?)
            && (v.rejection.Some? ==> Verify(svc, w, intent, price, required, proof).calls == v.calls)
            && (v.rejection.None? ==>
                  Verify(svc, w, intent, price, required, proof).calls
                  == v.calls + Execute(svc, w, intent, price, required, proof).calls
                  && Execute(svc, w, intent, price, required, proof).calls[0]
                     == OrderSubmission(intent.ticker, intent.side, intent.quantity, price))
  {
  }

  /** A call to the escrow contract: the deposit read, the refund or the release. */
  predicate EscrowCall(c: Call) {
    c.DepositLookup? || c.RefundAttempt? || c.ReleaseAttempt?
  }

  /** The request carries a proof that takes the escrow path. */
  predicate EscrowRequest(svc: Services, rq: TradeRequest) {
    Truthy(rq.paymentSignature) && EscrowPath(svc, rq.paymentSignature.value)
  }

  /** An accepted request: the price lookup, then verification and the order. */
  lemma RunOfAccepted(svc: Services, w: World, rq: TradeRequest)
    requires PaymentAccepted(svc, w, rq)
    ensures var intent := Validate(rq).value;
            var price := PriceOf(svc, w, intent).value;
            var required := Cost(price, intent.quantity);
            var proof := rq.paymentSignature.value;
            var v := ProofVerdict(svc, w, proof, required);
            var out := Run(svc, w, rq);
            var s := Settlement(svc, w, intent, price, required, proof, OrderResult(svc, w, intent, price));
            && out.calls == [PriceLookup(intent.ticker, intent.side)] + v.calls
                            + [OrderSubmission(intent.ticker, intent.side, intent.quantity, price)] + s.calls
            && out.response == s.response && out.recorded == s.recorded && out.sent == s.sent
  {
  }

  /** A request whose payment is not accepted makes no order, no escrow submission and no ledger row. */
  lemma RunOfNotAccepted(svc: Services, w: World, rq: TradeRequest)
    requires !PaymentAccepted(svc, w, rq)
    ensures var out := Run(svc, w, rq);
            && out.recorded == [] && out.sent == []
            && (forall c :: c in out.calls ==> c.PriceLookup? || c.PaymentCheck? || c.DepositLookup?)
            && (out.response.BadRequest? || out.response.PriceUnavailable? || out.response.PaymentRequired?
                || out.response.PaymentRejected?)
  {
  }

  /**
   * The proof's shape alone selects the verification: `verify_payment` is
   * never called for an escrow trade hash, and the escrow contract is never
   * read, refunded or released for any other proof.
   */
  lemma ClassificationSelectsCalls(svc: Services, w: World, rq: TradeRequest)
    ensures var out := Run(svc, w, rq);
            && (forall c :: c in out.calls && c.PaymentCheck? ==> Truthy(rq.paymentSignature) && !EscrowRequest(svc, rq))
            && (forall c :: c in out.calls && EscrowCall(c) ==> EscrowRequest(svc, rq))
            && (out.sent != [] ==> EscrowRequest(svc, rq))
  {
    if PaymentAccepted(svc, w, rq) {
      var intent := Validate(rq).value;
      var price := PriceOf(svc, w, intent).value;
      var proof := rq.paymentSignature.value;
      var out := Verify(svc, w, intent, price, Cost(price, intent.quantity), proof);
      assert Run(svc, w, rq) == After([PriceLookup(intent.ticker, intent.side)], out);
      VerifyStaysOnPath(svc, w, intent, price, Cost(price, intent.quantity), proof);
    } else {
      RunOfNotAccepted(svc, w, rq);
    }
  }

  /** Verification and what follows call `verify_payment` only off the escrow path, and the escrow only on it. */
  lemma VerifyStaysOnPath(svc: Services, w: World, intent: Intent, price: real, required: real, proof: string)
    ensures var out := Verify(svc, w, intent, price, required, proof);
            && (forall c :: c in out.calls && c.PaymentCheck? ==> !EscrowPath(svc, proof))
            && (forall c :: c in out.calls && EscrowCall(c) ==> EscrowPath(svc, proof))
            && (out.sent != [] ==> EscrowPath(svc, proof))
  {
    var v := ProofVerdict(svc, w, proof, required);
    if v.rejection.None? {
      var st := Settlement(svc, w, intent, price, required, proof, OrderResult(svc, w, intent, price));
      SettlementStaysOnPath(svc, w, intent, price, required, proof, OrderResult(svc, w, intent, price));
      assert Verify(svc, w, intent, price, required, proof).calls
             == v.calls + ([OrderSubmission(intent.ticker, intent.side, intent.quantity, price)] + st.calls);
    }
  }

  /** The settlement calls the escrow contract, and sends to it, only on the escrow path. */
  lemma SettlementStaysOnPath(svc: Services, w: World, intent: Intent, price: real, required: real, proof: string,
                              tradeId: Option<string>)
    ensures var st := Settlement(svc, w, intent, price, required, proof, tradeId);
            && (forall c :: c in st.calls ==> !c.PaymentCheck? && !c.DepositLookup? && !c.OrderSubmission?)
            && (forall c :: c in st.calls && EscrowCall(c) ==> EscrowPath(svc, proof))
            && (st.sent != [] ==> EscrowPath(svc, proof))
  {
  }

  /** An order on the escrow path needs an active deposit of the required amount, to the configured recipient. */
  lemma EscrowOrderNeedsMatchingDeposit(svc: Services, w: World, rq: TradeRequest)
    requires EscrowRequest(svc, rq) && OrderPlaced(Run(svc, w, rq))
    ensures Validate(rq).Success? && PriceOf(svc, w, Validate(rq).value).Some?
    ensures var intent := Validate(rq).value;
            var required := Cost(PriceOf(svc, w, intent).value, intent.quantity);
            var hash := EscrowHashBytes(rq.paymentSignature.value);
            && hash.Some? && hash.value in w.escrowNode.trades
            && var t := w.escrowNode.trades[hash.value];
               && Exists(t) && !t.released && !t.refunded
               && WithinEscrowTolerance(Interpret(t).amount, required)
               && svc.env.recipient.Some? && EqualIgnoringCase(t.recipient, svc.env.recipient.value)
  {
    OrderOnlyAfterVerification(svc, w, rq);
    var intent := Validate(rq).value;
    var required := Cost(PriceOf(svc, w, intent).value, intent.quantity);
    EscrowCheckAccepts(w.escrowNode, rq.paymentSignature.value, required, svc.env.recipient);
  }

  /** An order off the escrow path needs `verify_payment` to have accepted the proof for the required amount. */
  lemma DirectOrderNeedsVerifiedPayment(svc: Services, w: World, rq: TradeRequest)
    requires Truthy(rq.paymentSignature) && !EscrowRequest(svc, rq) && OrderPlaced(Run(svc, w, rq))
    ensures Validate(rq).Success? && PriceOf(svc, w, Validate(rq).value).Some?
    ensures var intent := Validate(rq).value;
            DirectPaymentVerified(svc, w, rq.paymentSignature.value,
                                  Cost(PriceOf(svc, w, intent).value, intent.quantity))
  {
    OrderOnlyAfterVerification(svc, w, rq);
  }

  /**
   * A failed order is answered 500 after an accepted payment; its `refunded`
   * flag is whether the escrow path was taken, and on that path the refund of
   * the trade hash is the last call. Nothing is released or recorded.
   */
  lemma FailedTradeCompensation(svc: Services, w: World, rq: TradeRequest)
    requires Run(svc, w, rq).response.TradeFailed?
    ensures PaymentAccepted(svc, w, rq)
    ensures var intent := Validate(rq).value;
            var price := PriceOf(svc, w, intent).value;
            var out := Run(svc, w, rq);
            && !Truthy(OrderResult(svc, w, intent, price))
            && Status(out.response) == 500
            && out.response.refunded == EscrowRequest(svc, rq)
            && out.recorded == []
            && (forall c :: c in out.calls ==> !c.ReleaseAttempt? && !c.LedgerAppend?)
            && (out.response.refunded ==>
                  var hash := EscrowHashBytes(rq.paymentSignature.value).value;
                  var h := svc.escrow.value;
                  && out.calls[|out.calls| - 1] == RefundAttempt(hash)
                  && out.sent == Appended(Submission(w.escrowNode, h.account, h.escrowAddress, h.config, Refund(hash))))
            && (!out.response.refunded ==> out.sent == [] && forall c :: c in out.calls ==> !c.RefundAttempt?)
  {
    if !PaymentAccepted(svc, w, rq) {
      RunOfNotAccepted(svc, w, rq);
    } else {
      var intent := Validate(rq).value;
      var price := PriceOf(svc, w, intent).value;
      var proof := rq.paymentSignature.value;
      RunIsVerify(svc, w, rq);
      var out := Verify(svc, w, intent, price, Cost(price, intent.quantity), proof);
      FailedVerifiedTrade(svc, w, intent, price, Cost(price, intent.quantity), proof);
      var calls := Run(svc, w, rq).calls;
      assert calls == [PriceLookup(intent.ticker, intent.side)] + out.calls;
      assert forall c :: c in calls ==> c.PriceLookup? || c in out.calls;
      if out.calls != [] {
        assert calls[|calls| - 1] == out.calls[|out.calls| - 1];
      }
    }
  }

  /** A priced request with a proof: the price lookup, then verification and what follows. */
  lemma RunIsVerify(svc: Services, w: World, rq: TradeRequest)
    requires Validate(rq).Success? && PriceOf(svc, w, Validate(rq).value).Some? && Truthy(rq.paymentSignature)
    ensures var intent := Validate(rq).value;
            var price := PriceOf(svc, w, intent).value;
            Run(svc, w, rq) == After([PriceLookup(intent.ticker, intent.side)],
                                     Verify(svc, w, intent, price, Cost(price, intent.quantity),
                                            rq.paymentSignature.value))
    ensures PaymentAccepted(svc, w, rq) <==>
              var intent := Validate(rq).value;
              ProofVerdict(svc, w, rq.paymentSignature.value,
                           Cost(PriceOf(svc, w, intent).value, intent.quantity)).rejection.None?
  {
  }

  /** `FailedTradeCompensation` for verification and what follows. */
  lemma FailedVerifiedTrade(svc: Services, w: World, intent: Intent, price: real, required: real, proof: string)
    requires Verify(svc, w, intent, price, required, proof).response.TradeFailed?
    ensures var out := Verify(svc, w, intent, price, required, proof);
            && ProofVerdict(svc, w, proof, required).rejection.None?
            && !Truthy(OrderResult(svc, w, intent, price))
            && out.response.refunded == EscrowPath(svc, proof)
            && out.recorded == []
            && (forall c :: c in out.calls ==> !c.ReleaseAttempt? && !c.LedgerAppend?)
            && (out.response.refunded ==>
                  var hash := EscrowHashBytes(proof).value;
                  var h := svc.escrow.value;
                  && out.calls != [] && out.calls[|out.calls| - 1] == RefundAttempt(hash)
                  && out.sent == Appended(Submission(w.escrowNode, h.account, h.escrowAddress, h.config, Refund(hash))))
            && (!out.response.refunded ==> out.sent == [] && forall c :: c in out.calls ==> !c.RefundAttempt?)
  {
    var v := ProofVerdict(svc, w, proof, required);
    var tradeId := OrderResult(svc, w, intent, price);
    var st := Settlement(svc, w, intent, price, required, proof, tradeId);
    FailedSettlement(svc, w, intent, price, required, proof, tradeId);
    var out := Verify(svc, w, intent, price, required, proof);
    assert out.calls == v.calls + [OrderSubmission(intent.ticker, intent.side, intent.quantity, price)] + st.calls;
  }

  /**
   * The settlement of a failed order: on the escrow path, the refund of the
   * decoded trade hash and the transaction it sends; nothing off it.
   */
  lemma FailedSettlement(svc: Services, w: World, intent: Intent, price: real, required: real, proof: string,
                         tradeId: Option<string>)
    requires !Truthy(tradeId)
    requires EscrowPath(svc, proof) ==> EscrowHashBytes(proof).Some?
    ensures var st := Settlement(svc, w, intent, price, required, proof, tradeId);
            && st.response == TradeFailed(intent.ticker, EscrowPath(svc, proof))
            && st.recorded == []
            && (EscrowPath(svc, proof) ==>
                  var hash := EscrowHashBytes(proof).value;
                  var h := svc.escrow.value;
                  && st.calls == [RefundAttempt(hash)]
                  && st.sent == Appended(Submission(w.escrowNode, h.account, h.escrowAddress, h.config, Refund(hash))))
            && (!EscrowPath(svc, proof) ==> st.calls == [] && st.sent == [])
  {
  }

  /** The payment is accepted and the executor returns an order id. */
  predicate OrderFilled(svc: Services, w: World, rq: TradeRequest) {
    PaymentAccepted(svc, w, rq) && Truthy(OrderResult(svc, w, Validate(rq).value, PriceOf(svc, w, Validate(rq).value).value))
  }

  predicate Refunds(calls: seq<Call>) {
    exists c :: c in calls && c.RefundAttempt?
  }

  predicate Releases(calls: seq<Call>) {
    exists c :: c in calls && c.ReleaseAttempt?
  }

  /** `CompensationIsExclusive` for verification and what follows. */
  lemma VerifiedCompensation(svc: Services, w: World, intent: Intent, price: real, required: real, proof: string)
    ensures var out := Verify(svc, w, intent, price, required, proof);
            var accepted := ProofVerdict(svc, w, proof, required).rejection.None?;
            var filled := Truthy(OrderResult(svc, w, intent, price));
            && (Refunds(out.calls) <==> accepted && EscrowPath(svc, proof) && !filled)
            && (Releases(out.calls) <==> accepted && EscrowPath(svc, proof) && filled)
  {
    var v := ProofVerdict(svc, w, proof, required);
    var out := Verify(svc, w, intent, price, required, proof);
    assert forall c :: c in v.calls ==> c.DepositLookup? || c.PaymentCheck?;
    if v.rejection.None? {
      var tradeId := OrderResult(svc, w, intent, price);
      var st := Settlement(svc, w, intent, price, required, proof, tradeId);
      var order := [OrderSubmission(intent.ticker, intent.side, intent.quantity, price)];
      if EscrowPath(svc, proof) {
        assert EscrowCheck(w.escrowNode, proof, required, svc.env.recipient).Success?;
      }
      SettlementCompensation(svc, w, intent, price, required, proof, tradeId);
      assert out.calls == v.calls + order + st.calls;
      assert forall c :: c in out.calls <==> c in v.calls || c in order || c in st.calls;
    }
  }

  /** After an order, the refund is attempted on the escrow path when it fails, the release when it fills. */
  lemma SettlementCompensation(svc: Services, w: World, intent: Intent, price: real, required: real, proof: string,
                               tradeId: Option<string>)
    requires EscrowPath(svc, proof) ==> EscrowHashBytes(proof).Some?
    ensures var st := Settlement(svc, w, intent, price, required, proof, tradeId);
            && (Refunds(st.calls) <==> EscrowPath(svc, proof) && !Truthy(tradeId))
            && (Releases(st.calls) <==> EscrowPath(svc, proof) && Truthy(tradeId))
  {
    var st := Settlement(svc, w, intent, price, required, proof, tradeId);
    var settle := EscrowSettlement(svc, w, proof, if Truthy(tradeId) then tradeId else None);
    assert forall c :: c in st.calls ==> c in settle.0 || c.LedgerAppend?;
    if EscrowPath(svc, proof) {
      var hash := EscrowHashBytes(proof).value;
      assert FromHex(HashText(proof)) == Some(hash);
      if Truthy(tradeId) {
        assert settle.0 == [ReleaseAttempt(hash, tradeId.value)];
        assert ReleaseAttempt(hash, tradeId.value) in st.calls;
      } else {
        assert settle.0 == [RefundAttempt(hash)];
        assert RefundAttempt(hash) in st.calls;
      }
    }
  }

  /**
   * The refund is attempted exactly when an accepted escrow payment's order
   * fails, the release exactly when it fills; never both, and neither off the
   * escrow path.
   */
  lemma CompensationIsExclusive(svc: Services, w: World, rq: TradeRequest)
    ensures var calls := Run(svc, w, rq).calls;
            && (Refunds(calls) <==> PaymentAccepted(svc, w, rq) && EscrowRequest(svc, rq) && !OrderFilled(svc, w, rq))
            && (Releases(calls) <==> OrderFilled(svc, w, rq) && EscrowRequest(svc, rq))
            && !(Refunds(calls) && Releases(calls))
  {
    if Validate(rq).Success? && PriceOf(svc, w, Validate(rq).value).Some? && Truthy(rq.paymentSignature) {
      var intent := Validate(rq).value;
      var price := PriceOf(svc, w, intent).value;
      var proof := rq.paymentSignature.value;
      RunIsVerify(svc, w, rq);
      var out := Verify(svc, w, intent, price, Cost(price, intent.quantity), proof);
      VerifiedCompensation(svc, w, intent, price, Cost(price, intent.quantity), proof);
      var calls := Run(svc, w, rq).calls;
      assert calls == [PriceLookup(intent.ticker, intent.side)] + out.calls;
      assert forall c :: c in calls ==> c.PriceLookup? || c in out.calls;
      assert forall c :: c in out.calls ==> c in calls;
    } else {
      RunOfNotAccepted(svc, w, rq);
    }
  }

  /** `FilledRecordsOneRow` for verification and what follows. */
  lemma FilledVerifiedTrade(svc: Services, w: World, intent: Intent, price: real, required: real, proof: string)
    requires Verify(svc, w, intent, price, required, proof).response.Filled?
    ensures var out := Verify(svc, w, intent, price, required, proof);
            var tradeId := OrderResult(svc, w, intent, price);
            && ProofVerdict(svc, w, proof, required).rejection.None? && Truthy(tradeId) && w.ledgerAccepts
            && out.response.receipt == TradeReceipt(tradeId.value, price, intent.quantity, intent.ticker, intent.side,
                                                    required, intent.agentId)
            && out.recorded == [RecordOf(intent, price, proof, tradeId.value)]
            && |out.calls| >= 2 && out.calls[|out.calls| - 1] == LedgerAppend(RecordOf(intent, price, proof, tradeId.value))
            && (EscrowPath(svc, proof) ==>
                  var hash := EscrowHashBytes(proof).value;
                  var h := svc.escrow.value;
                  && out.calls[|out.calls| - 2] == ReleaseAttempt(hash, tradeId.value)
                  && out.sent == Appended(Submission(w.escrowNode, h.account, h.escrowAddress, h.config,
                                                     Release(hash, tradeId.value))))
            && (!EscrowPath(svc, proof) ==> out.sent == [])
  {
    var v := ProofVerdict(svc, w, proof, required);
    var tradeId := OrderResult(svc, w, intent, price);
    var st := Settlement(svc, w, intent, price, required, proof, tradeId);
    var out := Verify(svc, w, intent, price, required, proof);
    var order := [OrderSubmission(intent.ticker, intent.side, intent.quantity, price)];
    assert out.calls == v.calls + order + st.calls;
    var record := RecordOf(intent, price, proof, tradeId.value);
    var settle := EscrowSettlement(svc, w, proof, tradeId);
    assert st.calls == settle.0 + [LedgerAppend(record)];
    if EscrowPath(svc, proof) {
      var hash := EscrowHashBytes(proof).value;
      assert FromHex(HashText(proof)) == Some(hash);
      assert settle.0 == [ReleaseAttempt(hash, tradeId.value)];
      assert out.calls == (v.calls + order) + [ReleaseAttempt(hash, tradeId.value), LedgerAppend(record)];
    }
  }

  /**
   * A 200 appends exactly one ledger row, holding the raw proof, the order id
   * and the total cost of the receipt; the append is the last call, right
   * after the release on the escrow path.
   */
  lemma FilledRecordsOneRow(svc: Services, w: World, rq: TradeRequest)
    requires Run(svc, w, rq).response.Filled?
    ensures OrderFilled(svc, w, rq) && w.ledgerAccepts
    ensures var intent := Validate(rq).value;
            var price := PriceOf(svc, w, intent).value;
            var out := Run(svc, w, rq);
            var rc := out.response.receipt;
            && Status(out.response) == 200
            && |out.recorded| == 1
            && var r := out.recorded[0];
               && r.paymentTxHash == rq.paymentSignature.value
               && r.tradeId == rc.tradeId == OrderResult(svc, w, intent, price).value
               && r.totalCost == rc.totalCost == Cost(price, intent.quantity)
               && r.price == rc.price == price && r.quantity == rc.quantity == intent.quantity
               && r.contract == rc.contract == intent.ticker && r.side == rc.side == intent.side
               && r.agentId == rc.agentId == intent.agentId
               && out.calls[|out.calls| - 1] == LedgerAppend(r)
               && (EscrowRequest(svc, rq) ==>
                     out.calls[|out.calls| - 2] == ReleaseAttempt(EscrowHashBytes(r.paymentTxHash).value, r.tradeId))
  {
    if !PaymentAccepted(svc, w, rq) {
      RunOfNotAccepted(svc, w, rq);
    } else {
      var intent := Validate(rq).value;
      var price := PriceOf(svc, w, intent).value;
      var proof := rq.paymentSignature.value;
      RunIsVerify(svc, w, rq);
      var out := Verify(svc, w, intent, price, Cost(price, intent.quantity), proof);
      FilledVerifiedTrade(svc, w, intent, price, Cost(price, intent.quantity), proof);
      var calls := Run(svc, w, rq).calls;
      assert calls == [PriceLookup(intent.ticker, intent.side)] + out.calls;
      assert calls[|calls| - 1] == out.calls[|out.calls| - 1];
      assert calls[|calls| - 2] == out.calls[|out.calls| - 2];
    }
  }

  /**
   * Rows are recorded only with a 200; a filled order whose row the ledger
   * refuses is answered 500, the exception not being caught.
   */
  lemma LedgerDecidesFilled(svc: Services, w: World, rq: TradeRequest)
    ensures Run(svc, w, rq).recorded != [] <==> Run(svc, w, rq).response.Filled?
    ensures OrderFilled(svc, w, rq) ==>
              && (Run(svc, w, rq).response.Filled? <==> w.ledgerAccepts)
              && (!w.ledgerAccepts ==> Run(svc, w, rq).response == InternalError && Run(svc, w, rq).recorded == [])
  {
    if PaymentAccepted(svc, w, rq) {
      RunIsVerify(svc, w, rq);
    } else {
      RunOfNotAccepted(svc, w, rq);
    }
  }

  // ---------------------------------------------------------------------------
  // The handler
  // ---------------------------------------------------------------------------

  /** The server: its collaborators, the ledger it appends to, and the calls it has made. */
  class TradeServer {
    const svc: Services
    var ledger: seq<LedgerRecord>
    ghost var calls: seq<Call>

    constructor (svc: Services)
      ensures this.svc == svc && ledger == [] && calls == []
    {
      this.svc := svc;
      ledger := [];
      calls := [];
    }

    /** The settlement step: the trade hash is decoded again, and a decoding error or a failed submission is swallowed. */
    method Settle(w: World, proof: string, tradeId: Option<string>) returns (ghost settleCalls: seq<Call>)
      requires EscrowPath(svc, proof)
      modifies svc.escrow.value
      ensures var step := SettleStep(svc.escrow.value, w.escrowNode, proof, tradeId);
              settleCalls == step.0 && svc.escrow.value.sent == old(svc.escrow.value.sent) + step.1
    {
      var escrow := svc.escrow.value;
      settleCalls := [];
      var hashBytes := FromHex(HashText(proof));
      if hashBytes.None? {
        return;
      }
      if tradeId.None? {
        settleCalls := [RefundAttempt(hashBytes.value)];
        var _ := escrow.RefundFunds(w.escrowNode, hashBytes.value);
      } else {
        settleCalls := [ReleaseAttempt(hashBytes.value, tradeId.value)];
        var _ := escrow.ReleaseFunds(w.escrowNode, hashBytes.value, tradeId.value);
      }
    }

    /** Steps 5 to 7 once the order's fate is known: settle the escrow, record the trade. */
    method SettleAndRecord(w: World, intent: Intent, price: real, required: real, proof: string,
                           tradeId: Option<string>) returns (response: Response)
      modifies this, EscrowFrame(svc)
      ensures var out := Settlement(svc, w, intent, price, required, proof, tradeId);
              && response == out.response
              && ledger == old(ledger) + out.recorded
              && calls == old(calls) + out.calls
              && (svc.escrow.Some? ==> svc.escrow.value.sent == old(svc.escrow.value.sent) + out.sent)
    {
      if !Truthy(tradeId) {
        var isTradeHash := |HashText(proof)| == 64;
        if svc.escrow.Some? && isTradeHash {
          var settled := Settle(w, proof, None);
          calls := calls + settled;
        }
        return TradeFailed(intent.ticker, svc.escrow.Some? && isTradeHash);
      }
      var isTradeHash := |HashText(proof)| == 64;
      ghost var settled: seq<Call> := [];
      if svc.escrow.Some? && isTradeHash {
        settled := Settle(w, proof, tradeId);
        calls := calls + settled;
      }
      // The proof is read from the request headers again; it is the same text.
      var paymentTxHash := proof;
      var record := RecordOf(intent, price, paymentTxHash, tradeId.value);
      calls := calls + [LedgerAppend(record)];
      assert calls == old(calls) + (settled + [LedgerAppend(record)]);
      if !w.ledgerAccepts {
        return InternalError;
      }
      ledger := ledger + [record];
      return Filled(TradeReceipt(tradeId.value, price, intent.quantity, intent.ticker, intent.side, required,
                                 intent.agentId));
    }

    /** Step 5: place the order, then settle and record. */
    method Fulfil(w: World, intent: Intent, price: real, required: real, proof: string) returns (response: Response)
      modifies this, EscrowFrame(svc)
      ensures var out := Execute(svc, w, intent, price, required, proof);
              && response == out.response
              && ledger == old(ledger) + out.recorded
              && calls == old(calls) + out.calls
              && (svc.escrow.Some? ==> svc.escrow.value.sent == old(svc.escrow.value.sent) + out.sent)
    {
      var order := [OrderSubmission(intent.ticker, intent.side, intent.quantity, price)];
      calls := calls + order;
      var tradeId := Orders.ExecuteTrade(svc.executor, intent.ticker, intent.side, intent.quantity, price,
                                         w.millis, w.exchange);
      ghost var before := calls;
      response := SettleAndRecord(w, intent, price, required, proof, tradeId);
      assert calls == old(calls) + (order + calls[|before|..]);
    }

    /** The escrow branch of step 4: decode the trade hash, read the deposit, compare amount and recipient. */
    method CheckDeposit(w: World, proof: string, required: real) returns (r: Result<seq<Byte>, Rejection>)
      modifies this
      ensures r == EscrowCheck(w.escrowNode, proof, required, svc.env.recipient)
      ensures calls == old(calls) + DepositLookups(proof)
      ensures ledger == old(ledger)
    {
      var hashBytes := FromHex(HashText(proof));
      if hashBytes.None? {
        return Failure(EscrowCheckFailed);
      }
      if |hashBytes.value| != 32 {
        return Failure(InvalidHashFormat);
      }
      calls := calls + [DepositLookup(hashBytes.value)];
      var (active, info) := VerifyDeposit(w.escrowNode.trades, hashBytes.value);
      if !active {
        return Failure(DepositNotFound);
      }
      if !WithinEscrowTolerance(info.value.amount, required) {
        return Failure(AmountMismatch);
      }
      if svc.env.recipient.None? {
        return Failure(EscrowCheckFailed);
      }
      if Lower(info.value.recipient) != Lower(svc.env.recipient.value) {
        return Failure(RecipientMismatch);
      }
      return Success(hashBytes.value);
    }

    /** Step 4: verify the proof against an escrow deposit or as a direct payment. */
    method CheckProof(w: World, proof: string, required: real) returns (rejection: Option<Rejection>)
      modifies this
      ensures var v := ProofVerdict(svc, w, proof, required);
              rejection == v.rejection && calls == old(calls) + v.calls
      ensures ledger == old(ledger)
    {
      var isTradeHash := |HashText(proof)| == 64;
      if svc.escrow.Some? && isTradeHash {
        var checked := CheckDeposit(w, proof, required);
        rejection := if checked.Failure? then Some(checked.error) else None;
      } else {
        calls := calls + [PaymentCheck(proof, required)];
        var verified := VerifyPayment(svc.x402, proof, required, "USDC", svc.env.recipient,
                                      Some(ChainSetting(svc.env)), w.registry, w.nodes, w.facilitator);
        rejection := if verified then None else Some(PaymentNotVerified);
      }
    }

    /** Step 4 and what follows: a refused proof is answered 402, an accepted one goes on to the order. */
    method VerifyThenFulfil(w: World, intent: Intent, price: real, required: real, proof: string)
      returns (response: Response)
      modifies this, EscrowFrame(svc)
      ensures var out := Verify(svc, w, intent, price, required, proof);
              && response == out.response
              && ledger == old(ledger) + out.recorded
              && calls == old(calls) + out.calls
              && (svc.escrow.Some? ==> svc.escrow.value.sent == old(svc.escrow.value.sent) + out.sent)
    {
      var rejection := CheckProof(w, proof, required);
      if rejection.Some? {
        return PaymentRejected(rejection.value, required);
      }
      ghost var before := calls;
      response := Fulfil(w, intent, price, required, proof);
      assert calls == old(calls) + (before[|old(calls)|..] + calls[|before|..]);
    }

    /** Steps 3 and 4 once the price is known: the challenge without a proof, verification with one. */
    method Answer(w: World, rq: TradeRequest, intent: Intent, price: real) returns (response: Response)
      modifies this, EscrowFrame(svc)
      ensures var out := Priced(svc, w, rq, intent, price);
              && response == out.response
              && ledger == old(ledger) + out.recorded
              && calls == old(calls) + out.calls
              && (svc.escrow.Some? ==> svc.escrow.value.sent == old(svc.escrow.value.sent) + out.sent)
    {
      var required := Cost(price, intent.quantity);
      if !Truthy(rq.paymentSignature) {
        // The source also passes `escrow_address` and `trade_hash`, which
        // `require_payment` does not declare; see NoProofAsWrittenRaises.
        return NoProofResponse(svc, w, intent, required, RequirePaymentParams);
      }
      response := VerifyThenFulfil(w, intent, price, required, rq.paymentSignature.value);
    }

    /** Step 2: look the price up; without one the answer is a 500. */
    method Quote(w: World, rq: TradeRequest, intent: Intent) returns (response: Response)
      modifies this, EscrowFrame(svc)
      ensures var out := Quoted(svc, w, rq, intent);
              && response == out.response
              && ledger == old(ledger) + out.recorded
              && calls == old(calls) + out.calls
              && (svc.escrow.Some? ==> svc.escrow.value.sent == old(svc.escrow.value.sent) + out.sent)
    {
      calls := calls + [PriceLookup(intent.ticker, intent.side)];
      var currentPrice := GetCurrentPrice(svc.prices, intent.ticker, intent.side, w.market);
      if currentPrice.None? {
        return PriceUnavailable(intent.ticker);
      }
      ghost var before := calls;
      response := Answer(w, rq, intent, currentPrice.value);
      assert calls == old(calls) + (before[|old(calls)|..] + calls[|before|..]);
    }

    /** `execute_trade`: steps 1 to 3, then verification and the order. */
    method ExecuteTrade(w: World, rq: TradeRequest) returns (response: Response)
      modifies this, EscrowFrame(svc)
      ensures var out := Run(svc, w, rq);
              && response == out.response
              && ledger == old(ledger) + out.recorded
              && calls == old(calls) + out.calls
              && (svc.escrow.Some? ==> svc.escrow.value.sent == old(svc.escrow.value.sent) + out.sent)
    {
      var validated := Validate(rq);
      if validated.Failure? {
        return BadRequest(validated.error);
      }
      response := Quote(w, rq, validated.value);
    }
  }
}
