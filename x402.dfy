/**
 * The x402 payment handler: the HTTP 402 challenge with its PAYMENT-REQUIRED
 * header, and verification of a payment proof, first by a facilitator service
 * and then, when the facilitator gives no answer, by reading the transaction
 * from the chain.
 */
module X402 {
  import opened Wrappers
  import opened Json
  import opened Text
  import opened Chains

  const DefaultFacilitatorUrl := "https://facilitator.p402.io"
  /** The address the header carries when neither the call nor the handler names one. */
  const DefaultAddress := "DEFAULT_X402_ADDRESS"
  /** The chain used when none is given and none of the registry's endpoints knows the transaction. */
  const FallbackChain := "ethereum"

  /** `X402Handler(facilitator_url, recipient_address)`; both fields are set once. */
  datatype X402Handler = X402Handler(facilitatorUrl: string, recipientAddress: Option<string>)

  /**
   * `X402Handler(...)`: None for `facilitatorUrl` stands for the argument
   * being omitted, which gives the public facilitator. An explicit
   * `facilitator_url=None`, which Python would keep, is not modelled; the
   * server always passes a string (server.py:44).
   */
  function NewX402Handler(facilitatorUrl: Option<string>, recipientAddress: Option<string>): (h: X402Handler)
    ensures h.facilitatorUrl == facilitatorUrl.GetOr(DefaultFacilitatorUrl)
    ensures h.recipientAddress == recipientAddress
  {
    X402Handler(facilitatorUrl.GetOr(DefaultFacilitatorUrl), recipientAddress)
  }

  // ---------------------------------------------------------------------------
  // The 402 challenge
  // ---------------------------------------------------------------------------

  /** The response `require_payment` builds: a status and its headers, with no body. */
  datatype Challenge = Challenge(status: int, headers: map<string, string>)

  /** The five fields of a PAYMENT-REQUIRED header, as text, in header order. */
  datatype HeaderFields = HeaderFields(amount: string, currency: string, address: string, chain: string, memo: string)

  /** One `key=value` part of the header. */
  function Entry(key: string, value: string): string {
    key + "=" + value
  }

  /** `amount=A;currency=C;address=R;chain=N;memo=M`. */
  function RenderHeader(f: HeaderFields): string {
    Entry("amount", f.amount) + ";" + (Entry("currency", f.currency) + ";" + (Entry("address", f.address)
      + ";" + (Entry("chain", f.chain) + ";" + Entry("memo", f.memo))))
  }

  /** The value of a `key=value` part. */
  function FieldValue(key: string, part: string): Option<string> {
    if StartsWith(part, key + "=") then Some(part[|key| + 1..]) else None
  }

  /**
   * Reads a header back: the text up to each of the first four `;` is one
   * field in the order amount, currency, address, chain; the rest is the memo.
   */
  function ParseHeader(s: string): Option<HeaderFields> {
    match Cut(s, ';')
    case None => None
    case Some((p1, r1)) =>
      match Cut(r1, ';')
      case None => None
      case Some((p2, r2)) =>
        match Cut(r2, ';')
        case None => None
        case Some((p3, r3)) =>
          match Cut(r3, ';')
          case None => None
          case Some((p4, p5)) =>
            match (FieldValue("amount", p1), FieldValue("currency", p2), FieldValue("address", p3),
                   FieldValue("chain", p4), FieldValue("memo", p5))
            case (Some(a), Some(c), Some(ad), Some(ch), Some(m)) => Some(HeaderFields(a, c, ad, ch, m))
            case _ => None
  }

  predicate NoSemicolon(s: string) {
    forall i :: 0 <= i < |s| ==> s[i] != ';'
  }

  /** The memo is last, so only the first four fields must keep clear of the separator. */
  predicate Separable(f: HeaderFields) {
    NoSemicolon(f.amount) && NoSemicolon(f.currency) && NoSemicolon(f.address) && NoSemicolon(f.chain)
  }

  lemma FieldValueOfEntry(key: string, v: string)
    ensures FieldValue(key, Entry(key, v)) == Some(v)
  {
    assert Entry(key, v)[..|key + "="|] == key + "=";
    assert Entry(key, v)[|key| + 1..] == v;
  }

  lemma EntryNoSemicolon(key: string, v: string)
    requires NoSemicolon(key) && NoSemicolon(v)
    ensures NoSemicolon(Entry(key, v))
  {
    var e := Entry(key, v);
    forall i | 0 <= i < |e| ensures e[i] != ';' {
      if i < |key| { assert e[i] == key[i]; }
      else if i > |key| { assert e[i] == v[i - |key| - 1]; }
    }
  }

  lemma EntryOfFieldValue(key: string, part: string)
    requires FieldValue(key, part).Some?
    ensures part == Entry(key, FieldValue(key, part).value)
    ensures NoSemicolon(part) ==> NoSemicolon(FieldValue(key, part).value)
  {
    var v := FieldValue(key, part).value;
    assert part == part[..|key| + 1] + v;
    if NoSemicolon(part) {
      forall i | 0 <= i < |v| ensures v[i] != ';' { assert v[i] == part[i + |key| + 1]; }
    }
  }

  /** Every header whose first four fields contain no `;` reads back as the fields it was built from. */
  lemma HeaderRoundTrip(f: HeaderFields)
    ensures Separable(f) ==> ParseHeader(RenderHeader(f)) == Some(f)
  {
    if !Separable(f) { return; }
    var p1, p2, p3, p4, p5 := Entry("amount", f.amount), Entry("currency", f.currency),
      Entry("address", f.address), Entry("chain", f.chain), Entry("memo", f.memo);
    var r3 := p4 + ";" + p5;
    var r2 := p3 + ";" + r3;
    var r1 := p2 + ";" + r2;
    EntryNoSemicolon("amount", f.amount);
    EntryNoSemicolon("currency", f.currency);
    EntryNoSemicolon("address", f.address);
    EntryNoSemicolon("chain", f.chain);
    CutOfJoin(p1, ';', r1);
    CutOfJoin(p2, ';', r2);
    CutOfJoin(p3, ';', r3);
    CutOfJoin(p4, ';', p5);
    FieldValueOfEntry("amount", f.amount);
    FieldValueOfEntry("currency", f.currency);
    FieldValueOfEntry("address", f.address);
    FieldValueOfEntry("chain", f.chain);
    FieldValueOfEntry("memo", f.memo);
  }

  /** Conversely, every header that parses is the rendering of what it parses to. */
  lemma ParsedHeaderRenders(s: string)
    requires ParseHeader(s).Some?
    ensures Separable(ParseHeader(s).value)
    ensures RenderHeader(ParseHeader(s).value) == s
  {
    var (p1, r1) := Cut(s, ';').value;
    JoinOfCut(s, ';');
    var (p2, r2) := Cut(r1, ';').value;
    JoinOfCut(r1, ';');
    var (p3, r3) := Cut(r2, ';').value;
    JoinOfCut(r2, ';');
    var (p4, p5) := Cut(r3, ';').value;
    JoinOfCut(r3, ';');
    EntryOfFieldValue("amount", p1);
    EntryOfFieldValue("currency", p2);
    EntryOfFieldValue("address", p3);
    EntryOfFieldValue("chain", p4);
    EntryOfFieldValue("memo", p5);
  }

  /** `recipient_address or self.recipient_address or "DEFAULT_X402_ADDRESS"`. */
  function PaymentAddress(h: X402Handler, recipient: Option<string>): (a: string)
    ensures a != ""
    ensures Truthy(recipient) ==> a == recipient.value
    ensures !Truthy(recipient) && Truthy(h.recipientAddress) ==> a == h.recipientAddress.value
    ensures !Truthy(recipient) && !Truthy(h.recipientAddress) ==> a == DefaultAddress
  {
    var r := Or(recipient, h.recipientAddress);
    if Truthy(r) then r.value else DefaultAddress
  }

  /**
   * `require_payment(amount_usd, currency, recipient_address, memo, chain)`.
   * `show` is Python's rendering of the float amount, which is not modelled.
   */
  function RequirePayment(h: X402Handler, amount: real, show: real -> string, currency: string,
                          recipient: Option<string>, memo: string, chain: string): (c: Challenge)
    ensures c.status == 402
    ensures c.headers.Keys == {"PAYMENT-REQUIRED", "Content-Type"}
    ensures c.headers["Content-Type"] == "application/json"
    ensures var f := HeaderFields(show(amount), currency, PaymentAddress(h, recipient), chain, memo);
            Separable(f) ==> ParseHeader(c.headers["PAYMENT-REQUIRED"]) == Some(f)
  {
    var f := HeaderFields(show(amount), currency, PaymentAddress(h, recipient), chain, memo);
    HeaderRoundTrip(f);
    Challenge(402, map["PAYMENT-REQUIRED" := RenderHeader(f), "Content-Type" := "application/json"])
  }

  // ---------------------------------------------------------------------------
  // The facilitator
  // ---------------------------------------------------------------------------

  /** A POST of a JSON object to a URL. */
  datatype FacilitatorRequest = FacilitatorRequest(url: string, payload: map<string, Json>)

  /** The JSON body of a facilitator answer: not JSON, JSON but not an object, or an object. */
  datatype FacilitatorBody = NotJson | NotObject | Object(verified: Option<Json>)

  /**
   * The outcome of the POST: an HTTP answer, a `RequestException` (connection
   * error, timeout), or any other exception.
   */
  datatype FacilitatorReply = Answered(status: int, body: FacilitatorBody) | RequestError | OtherError

  /** The facilitator service: its answer to each request. */
  type Facilitator = FacilitatorRequest -> FacilitatorReply

  function JsonOf(o: Option<string>): Json {
    if o.Some? then JStr(o.value) else JNull
  }

  /** The JSON object `verify_payment` posts to `{facilitator_url}/verify`. */
  function FacilitatorPayload(proof: string, expected: real, currency: string,
                              recipient: Option<string>, chain: Option<string>): (p: map<string, Json>)
    ensures p.Keys == {"tx_hash", "expected_amount", "currency", "recipient"} + (if Truthy(chain) then {"chain"} else {})
    ensures "chain" in p <==> Truthy(chain)
    ensures "chain" in p ==> p["chain"] == JStr(chain.value)
    ensures p["tx_hash"] == JStr(proof) && p["expected_amount"] == JReal(expected)
    ensures p["currency"] == JStr(currency) && p["recipient"] == JsonOf(recipient)
  {
    var base := map["tx_hash" := JStr(proof), "expected_amount" := JReal(expected),
                    "currency" := JStr(currency), "recipient" := JsonOf(recipient)];
    if Truthy(chain) then base["chain" := JStr(chain.value)] else base
  }

  /** What the facilitator's answer decides: a verdict, or nothing, which sends the check on chain. */
  datatype Tier = Attested(verdict: bool) | FallBack

  function FacilitatorTier(reply: FacilitatorReply): Tier {
    match reply
    case Answered(status, body) =>
      if status != 200 then FallBack
      else (match body
            // requests raises its JSONDecodeError, itself a RequestException
            case NotJson => FallBack
            // `.get` on a non-object raises AttributeError, caught as "unexpected"
            case NotObject => Attested(false)
            case Object(v) => Attested(v.Some? && IsTruthy(v.value)))
    case RequestError => FallBack
    case OtherError => Attested(false)
  }

  // ---------------------------------------------------------------------------
  // On-chain verification
  // ---------------------------------------------------------------------------

  /** `tx_hash` with "0x" put in front unless it is already there. */
  function WithHexPrefix(h: string): (r: string)
    ensures StartsWith(r, "0x")
    ensures StartsWith(h, "0x") ==> r == h
  {
    if StartsWith(h, "0x") then h else "0x" + h
  }

  lemma WithHexPrefixIdempotent(h: string)
    ensures WithHexPrefix(WithHexPrefix(h)) == WithHexPrefix(h)
  {
  }

  predicate KnowsTx(nodes: Nodes, entry: (string, ChainConfig), h: string) {
    GetTransaction(nodes, entry.1.rpcUrl, h).Some?
  }

  /** The first registry entry, in iteration order, whose endpoint returns the transaction. */
  function FirstWithTx(reg: Registry, nodes: Nodes, h: string): Option<string> {
    if reg == [] then None
    else if KnowsTx(nodes, reg[0], h) then Some(reg[0].0)
    else FirstWithTx(reg[1..], nodes, h)
  }

  /** FirstWithTx picks the earliest entry that knows the transaction, and None means none does. */
  lemma {:induction false} FirstWithTxIsFirst(reg: Registry, nodes: Nodes, h: string)
    ensures FirstWithTx(reg, nodes, h).None? <==> forall j :: 0 <= j < |reg| ==> !KnowsTx(nodes, reg[j], h)
    ensures FirstWithTx(reg, nodes, h).Some? ==>
              exists i :: 0 <= i < |reg| && reg[i].0 == FirstWithTx(reg, nodes, h).value
                       && KnowsTx(nodes, reg[i], h)
                       && forall j :: 0 <= j < i ==> !KnowsTx(nodes, reg[j], h)
  {
    if reg != [] && !KnowsTx(nodes, reg[0], h) {
      FirstWithTxIsFirst(reg[1..], nodes, h);
      var r := FirstWithTx(reg, nodes, h);
      if r.Some? {
        var i :| 0 <= i < |reg[1..]| && reg[1..][i].0 == r.value && KnowsTx(nodes, reg[1..][i], h)
                 && forall j :: 0 <= j < i ==> !KnowsTx(nodes, reg[1..][j], h);
        assert reg[i + 1] == reg[1..][i];
        assert forall j :: 0 <= j < i + 1 ==> !KnowsTx(nodes, reg[j], h) by {
          forall j | 0 <= j < i + 1 ensures !KnowsTx(nodes, reg[j], h) {
            if j > 0 { assert reg[j] == reg[1..][j - 1]; }
          }
        }
      } else {
        forall j | 0 <= j < |reg| ensures !KnowsTx(nodes, reg[j], h) {
          if j > 0 { assert reg[j] == reg[1..][j - 1]; }
        }
      }
    }
  }

  /** The chain whose endpoint the check uses. */
  function ChosenChain(reg: Registry, nodes: Nodes, h: string, chain: Option<string>): string {
    var detected := if Truthy(chain) then chain else FirstWithTx(reg, nodes, h);
    if Truthy(detected) then detected.value else FallbackChain
  }

  /**
   * `CHAIN_CONFIGS.get(chain, CHAIN_CONFIGS["ethereum"])`: the default is
   * evaluated first, so a registry without "ethereum" raises (None here).
   */
  function ConfigFor(reg: Registry, name: string): (r: Option<ChainConfig>)
    ensures r.Some? <==> Has(reg, FallbackChain)
    ensures r.Some? && Has(reg, name) ==> r == Lookup(reg, name)
    ensures r.Some? && !Has(reg, name) ==> r == Lookup(reg, FallbackChain)
  {
    if !Has(reg, FallbackChain) then None
    else Some(Lookup(reg, name).GetOr(Lookup(reg, FallbackChain).value))
  }

  /** `abs(value / 1_000_000 - expected) < 0.01`: the on-chain tolerance is strict. */
  predicate WithinTransferTolerance(value: nat, expected: real) {
    var amount := value as real / MicroUnits;
    -0.01 < amount - expected < 0.01
  }

  /** The lower-cased recipient the scan compares against; "" when there is none. */
  function RecipientKey(recipient: Option<string>): string {
    if Truthy(recipient) then Lower(recipient.value) else ""
  }

  /** A log emitted by the USDC contract that decodes to a transfer of the expected amount to the recipient. */
  predicate PaysRecipient(log: Log, usdc: string, recipientKey: string, expected: real) {
    && EqualIgnoringCase(log.address, usdc)
    && log.transfer.Some?
    && Lower(log.transfer.value.to) == recipientKey
    && WithinTransferTolerance(log.transfer.value.value, expected)
  }

  /**
   * The checks made on the chosen chain's endpoint: it returns the transaction
   * and a receipt with status 1, the transaction is sent to the chain's USDC
   * contract, and some receipt log pays the recipient.
   */
  predicate TransactionPays(nodes: Nodes, cfg: ChainConfig, h: string, expected: real, recipient: Option<string>) {
    var tx := GetTransaction(nodes, cfg.rpcUrl, h);
    var receipt := GetReceipt(nodes, cfg.rpcUrl, h);
    && tx.Some?
    && receipt.Some? && receipt.value.Some? && receipt.value.value.status == 1
    && Truthy(tx.value.to) && EqualIgnoringCase(tx.value.to.value, cfg.usdcAddress)
    && exists i :: 0 <= i < |receipt.value.value.logs|
         && PaysRecipient(receipt.value.value.logs[i], cfg.usdcAddress, RecipientKey(recipient), expected)
  }

  /**
   * When `_verify_on_chain` returns True: the registry resolves the chosen
   * chain and its endpoint shows a transaction that pays. Every other case,
   * errors included, is False.
   */
  predicate OnChainVerified(reg: Registry, nodes: Nodes, txHash: string, expected: real,
                            recipient: Option<string>, chain: Option<string>) {
    var h := WithHexPrefix(txHash);
    var cfg := ConfigFor(reg, ChosenChain(reg, nodes, h, chain));
    cfg.Some? && TransactionPays(nodes, cfg.value, h, expected, recipient)
  }

  /** `verify_payment`'s verdict: the facilitator's when it gives one, otherwise the chain's. */
  predicate PaymentVerified(h: X402Handler, proof: string, expected: real, currency: string,
                            recipientArg: Option<string>, chain: Option<string>,
                            reg: Registry, nodes: Nodes, facilitator: Facilitator) {
    var recipient := Or(recipientArg, h.recipientAddress);
    var reply := facilitator(FacilitatorRequest(h.facilitatorUrl + "/verify",
                                                FacilitatorPayload(proof, expected, currency, recipient, chain)));
    match FacilitatorTier(reply)
    case Attested(v) => v
    case FallBack => OnChainVerified(reg, nodes, proof, expected, recipient, chain)
  }

  /** The chain-detection loop: probe every configured chain in order and stop at the first that knows the transaction. */
  method DetectChain(reg: Registry, nodes: Nodes, h: string) returns (chain: Option<string>)
    ensures chain == FirstWithTx(reg, nodes, h)
  {
    chain := None;
    var i := 0;
    while i < |reg|
      invariant 0 <= i <= |reg|
      invariant FirstWithTx(reg, nodes, h) == FirstWithTx(reg[i..], nodes, h)
    {
      var (name, config) := reg[i];
      if GetTransaction(nodes, config.rpcUrl, h).Some? {
        chain := Some(name);
        return;
      }
      assert reg[i..][1..] == reg[i + 1..];
      i := i + 1;
    }
  }

  /** The scan over receipt logs: foreign logs and logs that fail to decode are skipped, the first payment wins. */
  method ScanLogs(logs: seq<Log>, usdc: string, recipientKey: string, expected: real) returns (found: bool)
    ensures found <==> exists i :: 0 <= i < |logs| && PaysRecipient(logs[i], usdc, recipientKey, expected)
  {
    for i := 0 to |logs|
      invariant forall j :: 0 <= j < i ==> !PaysRecipient(logs[j], usdc, recipientKey, expected)
    {
      var log := logs[i];
      if Lower(log.address) != Lower(usdc) {
        continue;
      }
      if log.transfer.None? {
        continue;
      }
      var event := log.transfer.value;
      if Lower(event.to) == recipientKey && WithinTransferTolerance(event.value, expected) {
        return true;
      }
    }
    return false;
  }

  /** The fail-closed checks on one endpoint, then the log scan. */
  method CheckTransaction(nodes: Nodes, config: ChainConfig, h: string, expected: real,
                          recipient: Option<string>) returns (ok: bool)
    ensures ok == TransactionPays(nodes, config, h, expected, recipient)
  {
    var tx := GetTransaction(nodes, config.rpcUrl, h);
    if tx.None? {
      return false;
    }
    var receipt := GetReceipt(nodes, config.rpcUrl, h);
    if receipt.None? {
      return false;
    }
    if receipt.value.None? {
      return false;
    }
    if receipt.value.value.status != 1 {
      return false;
    }
    if !Truthy(tx.value.to) || Lower(tx.value.to.value) != Lower(config.usdcAddress) {
      return false;
    }
    var recipientKey := if Truthy(recipient) then Lower(recipient.value) else "";
    ok := ScanLogs(receipt.value.value.logs, config.usdcAddress, recipientKey, expected);
  }

  /** `_verify_on_chain`: normalise the hash, choose the chain, then check the transaction there. */
  method VerifyOnChain(reg: Registry, nodes: Nodes, txHash: string, expected: real, currency: string,
                       recipient: Option<string>, chain: Option<string>) returns (ok: bool)
    ensures ok == OnChainVerified(reg, nodes, txHash, expected, recipient, chain)
  {
    var h := txHash;
    if !StartsWith(h, "0x") {
      h := "0x" + h;
    }
    var name := chain;
    if !Truthy(name) {
      name := DetectChain(reg, nodes, h);
    }
    if !Truthy(name) {
      name := Some(FallbackChain);
    }
    if !Has(reg, FallbackChain) {
      return false;
    }
    var config := Lookup(reg, name.value).GetOr(Lookup(reg, FallbackChain).value);
    ok := CheckTransaction(nodes, config, h, expected, recipient);
  }

  /** `verify_payment`: ask the facilitator, and fall back to the chain when it does not answer. */
  method VerifyPayment(h: X402Handler, proof: string, expected: real, currency: string,
                       recipientArg: Option<string>, chain: Option<string>,
                       reg: Registry, nodes: Nodes, facilitator: Facilitator) returns (ok: bool)
    ensures ok == PaymentVerified(h, proof, expected, currency, recipientArg, chain, reg, nodes, facilitator)
  {
    var recipient := Or(recipientArg, h.recipientAddress);
    var payload := FacilitatorPayload(proof, expected, currency, recipient, chain);
    var reply := facilitator(FacilitatorRequest(h.facilitatorUrl + "/verify", payload));
    match reply {
      case Answered(status, body) =>
        if status == 200 && body.Object? {
          return body.verified.Some? && IsTruthy(body.verified.value);
        }
        if status == 200 && body.NotObject? {
          return false;
        }
        ok := VerifyOnChain(reg, nodes, proof, expected, currency, recipient, chain);
      case RequestError =>
        ok := VerifyOnChain(reg, nodes, proof, expected, currency, recipient, chain);
      case OtherError =>
        ok := false;
    }
  }

  /**
   * The two-tier policy: an HTTP 200 object decides by its `verified` field
   * (false when absent) and the chain is not consulted; a non-200 answer, a
   * body that is not JSON, or a transport error gives exactly the chain's
   * verdict; any other failure is false.
   */
  lemma FacilitatorPolicy(h: X402Handler, proof: string, expected: real, currency: string,
                          recipientArg: Option<string>, chain: Option<string>,
                          reg: Registry, nodes: Nodes, facilitator: Facilitator)
    ensures var recipient := Or(recipientArg, h.recipientAddress);
            var reply := facilitator(FacilitatorRequest(h.facilitatorUrl + "/verify",
                                                        FacilitatorPayload(proof, expected, currency, recipient, chain)));
            var verdict := PaymentVerified(h, proof, expected, currency, recipientArg, chain, reg, nodes, facilitator);
            var onChain := OnChainVerified(reg, nodes, proof, expected, recipient, chain);
            && (reply.Answered? && reply.status == 200 && reply.body.Object? ==>
                  verdict == (reply.body.verified.Some? && IsTruthy(reply.body.verified.value)))
            && (reply.Answered? && reply.status == 200 && reply.body.Object? && reply.body.verified.None? ==> !verdict)
            && ((reply.Answered? && reply.status != 200) || reply == Answered(200, NotJson) || reply.RequestError? ==>
                  verdict == onChain)
            && (reply.OtherError? || reply == Answered(200, NotObject) ==> !verdict)
  {
  }

  /**
   * Fail closed: a missing transaction, a pending or absent receipt, a failed
   * status, or a transaction not sent to the USDC contract is never verified.
   */
  lemma TransactionFailsClosed(nodes: Nodes, cfg: ChainConfig, h: string, expected: real, recipient: Option<string>)
    requires || GetTransaction(nodes, cfg.rpcUrl, h).None?
             || GetReceipt(nodes, cfg.rpcUrl, h).None?
             || GetReceipt(nodes, cfg.rpcUrl, h) == Some(None)
             || (GetReceipt(nodes, cfg.rpcUrl, h).Some? && GetReceipt(nodes, cfg.rpcUrl, h).value.Some?
                 && GetReceipt(nodes, cfg.rpcUrl, h).value.value.status != 1)
             || (GetTransaction(nodes, cfg.rpcUrl, h).Some?
                 && (!Truthy(GetTransaction(nodes, cfg.rpcUrl, h).value.to)
                     || !EqualIgnoringCase(GetTransaction(nodes, cfg.rpcUrl, h).value.to.value, cfg.usdcAddress)))
    ensures !TransactionPays(nodes, cfg, h, expected, recipient)
  {
  }
}
