/**
 * The escrow contract client: reading a deposit record by its trade hash, and
 * submitting the contract's `release` and `refund` calls from the authorised
 * account.
 */
module Escrow {
  import opened Wrappers
  import opened Text
  import opened Chains

  /** The agent field of a record the contract has never written. */
  const ZeroAddress := "0x0000000000000000000000000000000000000000"
  /** The gas limit of every escrow call. */
  const EscrowGas: nat := 200000

  /** The 7-tuple `getTrade(tradeHash)` returns, with the amount in micro-USDC. */
  datatype RawTrade = RawTrade(agent: string, recipient: string, amount: nat, kalshiTradeId: string,
                               deadline: nat, released: bool, refunded: bool)

  /** The `trade_info` dictionary: the same seven fields, with the amount in USDC. */
  datatype TradeInfo = TradeInfo(agent: string, recipient: string, amount: real, kalshiTradeId: string,
                                 deadline: nat, released: bool, refunded: bool)

  /** A call the handler submits to the escrow contract. */
  datatype EscrowCall = Release(tradeHash: seq<Byte>, kalshiTradeId: string) | Refund(tradeHash: seq<Byte>)

  /** A transaction as `build_transaction` fills it in, sent from `from`. */
  datatype EscrowTx = EscrowTx(from: string, to: string, call: EscrowCall, chainId: nat, gas: nat,
                               gasPrice: nat, nonce: nat)

  /**
   * What the escrow chain's endpoint answers: the records `getTrade` returns
   * (a hash that is absent makes the call or its decoding fail), each
   * account's transaction count, the gas price, and the hash text of a sent
   * transaction (None: sending raises). Signing is not modelled.
   */
  datatype EscrowNode = EscrowNode(trades: map<seq<Byte>, RawTrade>, txCount: map<string, nat>,
                                   gasPrice: Option<nat>, send: EscrowTx -> Option<string>)

  /** The dictionary built from a record. */
  function Interpret(t: RawTrade): (info: TradeInfo)
    ensures info.amount >= 0.0 && info.amount * MicroUnits == t.amount as real
    ensures info.released == t.released && info.refunded == t.refunded
  {
    TradeInfo(t.agent, t.recipient, t.amount as real / MicroUnits, t.kalshiTradeId, t.deadline, t.released, t.refunded)
  }

  /** The record a dictionary was built from: the amount scaled back to micro-USDC. */
  function RawOf(info: TradeInfo): RawTrade
    requires info.amount >= 0.0
  {
    RawTrade(info.agent, info.recipient, (info.amount * MicroUnits).Floor, info.kalshiTradeId, info.deadline,
             info.released, info.refunded)
  }

  /** Interpreting a record loses nothing: the amount is the raw amount over 10^6 and the rest is copied. */
  lemma InterpretLosesNothing(t: RawTrade)
    ensures Interpret(t).amount >= 0.0
    ensures RawOf(Interpret(t)) == t
  {
    var a := t.amount as real / MicroUnits;
    assert a * MicroUnits == t.amount as real;
  }

  /** A deposit exists when the contract has written an agent into the record. */
  predicate Exists(t: RawTrade) {
    t.agent != ZeroAddress
  }

  /** `verify_deposit`: whether the deposit is active, and its dictionary (None for `{}`). */
  function VerifyDeposit(trades: map<seq<Byte>, RawTrade>, tradeHash: seq<Byte>): (r: (bool, Option<TradeInfo>))
    ensures r.0 ==> r.1.Some?
    ensures tradeHash !in trades ==> r == (false, None)
    ensures tradeHash in trades ==> r.1 == Some(Interpret(trades[tradeHash]))
    ensures r.0 <==> tradeHash in trades && Exists(trades[tradeHash])
                     && !trades[tradeHash].released && !trades[tradeHash].refunded
  {
    if tradeHash !in trades then (false, None)
    else
      var t := trades[tradeHash];
      (Exists(t) && !t.released && !t.refunded, Some(Interpret(t)))
  }

  /** A released or refunded record is never active, whatever its other fields say. */
  lemma SettledNeverActive(trades: map<seq<Byte>, RawTrade>, tradeHash: seq<Byte>)
    requires tradeHash in trades
    requires trades[tradeHash].released || trades[tradeHash].refunded
    ensures !VerifyDeposit(trades, tradeHash).0
    ensures VerifyDeposit(trades, tradeHash).1 == Some(Interpret(trades[tradeHash]))
  {
  }

  /** Why the constructor raises: an unknown chain (ValueError), or a key that designates no account. */
  datatype InitError = UnsupportedChain(chain: string) | InvalidKey

  /**
   * The checks of `EscrowHandler.__init__`, in order: the chain must be in the
   * registry, then the private key must designate an account (`account` is
   * that account's address, None when `from_key` raises).
   */
  function CheckInit(reg: Registry, chain: string, account: Option<string>): (r: Result<ChainConfig, InitError>)
    ensures r.Failure? && r.error.UnsupportedChain? <==> !Has(reg, chain)
    ensures r.Success? <==> Has(reg, chain) && account.Some?
    ensures r.Success? ==> Lookup(reg, chain) == Some(r.value)
  {
    var config := Lookup(reg, chain);
    if config.None? then Failure(UnsupportedChain(chain))
    else if account.None? then Failure(InvalidKey)
    else Success(config.value)
  }

  /** Why a submission raises. */
  datatype SubmitError = NonceUnavailable | GasPriceUnavailable | SendRejected

  /**
   * One submission: the nonce is the account's current transaction count, read
   * first; then the gas price; then the signed transaction is sent. The
   * result is the transaction and the hash text of the sent transaction.
   */
  function Submission(node: EscrowNode, account: string, escrowAddress: string, config: ChainConfig,
                      call: EscrowCall): (r: Result<(EscrowTx, string), SubmitError>)
    ensures r.Success? ==> && r.value.0.from == account && r.value.0.to == escrowAddress
                           && r.value.0.call == call && r.value.0.chainId == config.chainId
                           && r.value.0.gas == EscrowGas
                           && account in node.txCount && r.value.0.nonce == node.txCount[account]
                           && node.gasPrice == Some(r.value.0.gasPrice)
                           && node.send(r.value.0) == Some(r.value.1)
    ensures r == Failure(NonceUnavailable) <==> account !in node.txCount
    ensures r == Failure(GasPriceUnavailable) <==> account in node.txCount && node.gasPrice.None?
    ensures account in node.txCount && node.gasPrice.Some? ==>
              var tx := EscrowTx(account, escrowAddress, call, config.chainId, EscrowGas, node.gasPrice.value,
                                 node.txCount[account]);
              && (r.Success? <==> node.send(tx).Some?)
              && (r == Failure(SendRejected) <==> node.send(tx).None?)
  {
    if account !in node.txCount then Failure(NonceUnavailable)
    else if node.gasPrice.None? then Failure(GasPriceUnavailable)
    else
      var tx := EscrowTx(account, escrowAddress, call, config.chainId, EscrowGas, node.gasPrice.value,
                         node.txCount[account]);
      match node.send(tx)
      case None => Failure(SendRejected)
      case Some(h) => Success((tx, h))
  }

  /**
   * Neither call checks the record first: a submission is the same whatever
   * the contract holds for the trade hash, released and refunded included.
   */
  lemma SubmissionIgnoresRecord(node: EscrowNode, trades: map<seq<Byte>, RawTrade>, account: string,
                                escrowAddress: string, config: ChainConfig, call: EscrowCall)
    ensures Submission(node.(trades := trades), account, escrowAddress, config, call)
         == Submission(node, account, escrowAddress, config, call)
  {
  }

  /** What a submission returns to the caller: the hash text, or the error it re-raises. */
  function Returned(r: Result<(EscrowTx, string), SubmitError>): Result<string, SubmitError> {
    match r
    case Success((_, h)) => Success(h)
    case Failure(e) => Failure(e)
  }

  /** The transactions a submission adds to the handler's log: the one it sent, or none. */
  function Appended(r: Result<(EscrowTx, string), SubmitError>): seq<EscrowTx> {
    if r.Success? then [r.value.0] else []
  }

  /** `EscrowHandler`: its fields are set once; `sent` logs the transactions it has sent. */
  class EscrowHandler {
    const escrowAddress: string
    const chain: string
    const config: ChainConfig
    const account: string
    var sent: seq<EscrowTx>

    constructor (escrowAddress: string, chain: string, config: ChainConfig, account: string)
      ensures this.escrowAddress == escrowAddress && this.chain == chain
      ensures this.config == config && this.account == account
      ensures sent == []
    {
      this.escrowAddress := escrowAddress;
      this.chain := chain;
      this.config := config;
      this.account := account;
      sent := [];
    }

    /** The shared body of `release_funds` and `refund_funds`. */
    method Submit(node: EscrowNode, call: EscrowCall) returns (r: Result<string, SubmitError>)
      modifies this
      ensures r == Returned(Submission(node, account, escrowAddress, config, call))
      ensures sent == old(sent) + Appended(Submission(node, account, escrowAddress, config, call))
    {
      if account !in node.txCount {
        return Failure(NonceUnavailable);
      }
      var nonce := node.txCount[account];
      if node.gasPrice.None? {
        return Failure(GasPriceUnavailable);
      }
      var tx := EscrowTx(account, escrowAddress, call, config.chainId, EscrowGas, node.gasPrice.value, nonce);
      var h := node.send(tx);
      if h.None? {
        return Failure(SendRejected);
      }
      sent := sent + [tx];
      return Success(h.value);
    }

    /** `release_funds(trade_hash, kalshi_trade_id)`. */
    method ReleaseFunds(node: EscrowNode, tradeHash: seq<Byte>, kalshiTradeId: string)
      returns (r: Result<string, SubmitError>)
      modifies this
      ensures r == Returned(Submission(node, account, escrowAddress, config, Release(tradeHash, kalshiTradeId)))
      ensures sent == old(sent) + Appended(Submission(node, account, escrowAddress, config,
                                                      Release(tradeHash, kalshiTradeId)))
    {
      r := Submit(node, Release(tradeHash, kalshiTradeId));
    }

    /** `refund_funds(trade_hash)`. */
    method RefundFunds(node: EscrowNode, tradeHash: seq<Byte>) returns (r: Result<string, SubmitError>)
      modifies this
      ensures r == Returned(Submission(node, account, escrowAddress, config, Refund(tradeHash)))
      ensures sent == old(sent) + Appended(Submission(node, account, escrowAddress, config, Refund(tradeHash)))
    {
      r := Submit(node, Refund(tradeHash));
    }
  }

  /** `EscrowHandler(escrow_address, private_key, chain)`: the checks, then a handler with nothing sent. */
  method OpenEscrow(reg: Registry, escrowAddress: string, account: Option<string>, chain: string)
    returns (r: Result<EscrowHandler, InitError>)
    ensures r.Failure? ==> CheckInit(reg, chain, account) == Failure(r.error)
    ensures r.Success? <==> CheckInit(reg, chain, account).Success?
    ensures r.Success? ==> && fresh(r.value) && r.value.sent == []
                           && r.value.escrowAddress == escrowAddress && r.value.chain == chain
                           && r.value.config == CheckInit(reg, chain, account).value
                           && Some(r.value.account) == account
  {
    var checked := CheckInit(reg, chain, account);
    if checked.Failure? {
      return Failure(checked.error);
    }
    var handler := new EscrowHandler(escrowAddress, chain, checked.value, account.value);
    return Success(handler);
  }
}
