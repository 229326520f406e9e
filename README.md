# x402Kalshi trade pipeline in Dafny

This project models the payment-gated trade service of x402Kalshi and proves properties of the model. The service is a `POST /trade` handler.

- It validates a request to buy `quantity` contracts of a Kalshi market on the "yes" or "no" side.
- It prices the request from Kalshi's public market data.
- When no proof is attached, it answers HTTP 402 with an x402 `PAYMENT-REQUIRED` challenge.
- A proof is either a 32-byte escrow trade hash or the hash of a USDC transfer.
  - An escrow trade hash is checked against the escrow contract's deposit record.
  - A transfer hash goes to `verify_payment`. That asks the facilitator first and falls back to reading the chain.
- Once payment is accepted, the handler places a limit order with the Kalshi trade executor.
- It then settles the escrow: a refund when the order failed, a release when it filled.
- Finally, it appends a row to the ledger.

## Modules

| module | file | models |
|---|---|---|
| `Wrappers`, `Json` | wrappers.dfy | Option and Result types; JSON scalar values and their truthiness |
| `Text` | text.dfy | Python string operations the code relies on |
| `Chains` | chains.dfy | the chain registry `CHAIN_CONFIGS` in iteration order, and the answers of JSON-RPC endpoints |
| `X402` | x402.dfy | `X402Handler`: the 402 challenge, the facilitator-then-chain policy, chain detection and the Transfer-log scan |
| `Escrow` | escrow.dfy | `EscrowHandler`: reading deposit records, and the release and refund submissions |
| `Kalshi`, `Prices` | prices.dfy | `KalshiPriceChecker`: the market URL, and the price-field cascade with its errors mapped to None |
| `Orders` | orders.dfy | `KalshiTradeExecutor`: the order payload, the signed-request headers, and the order id read from the answer |
| `Server` | server.dfy | `execute_trade`, the `POST /trade` handler: see below |

The `Text` operations are:
- truthiness and `or`;
- ASCII `lower()` and `upper()`;
- `str.replace(pat, "")`;
- `str(int)`;
- `bytes.hex()`;
- `bytes.fromhex()`, which skips whitespace.

### The Server module

The handler is `Server.TradeServer.ExecuteTrade`. It is a method of a class whose state is:
- the ledger, a sequence of rows;
- a ghost log of the calls made to collaborators;
- through the escrow handler, the log of escrow transactions sent.

The method is proved against the specification function `Server.Run`. `Run` gives a request's full `Outcome`: the response, the calls in order, the rows recorded and the escrow transactions sent. Run is built from one function per stage (`Quoted`, `Priced`, `Verify`, `Execute`, `Settlement`). Each stage is implemented by its own method (`Quote`, `Answer`, `VerifyThenFulfil`, `Fulfil`, `SettleAndRecord`).

`Run` calls `require_payment` in the no-proof branch with its declared keywords only. That is the corrected call under "## Findings" (`Server.NoProofChallenge`). As written, server.py:142-150 raises TypeError there and every request without a proof is answered 500 (`Server.NoProofAsWrittenRaises`). So `Run`, and the methods proved against it, describe the no-proof branch as intended, not as written.

The pipeline's promises are stated about `Run`:
- requests fail in order;
- the executor and the compensations run only after verification;
- refund and release exclude each other;
- the ledger row matches the receipt.

### Modelling conventions

- **External answers are parameters.** The market data service, the facilitator, the RPC endpoints, the escrow chain, the exchange, the clock, SHA-256 and the ledger insert's success are all inputs. They are gathered in the `World` datatype and its parts.
- **Exceptions that the code catches** become the value the code returns in that case: None, False, or a 402 response.
- **Exceptions that escape:**
  - The ledger insert's exception becomes `InternalError`, since the framework answers it with 500.
  - Escrow submission errors become `SubmitError`. The handler swallows them.
- **Money** is `real`. On-chain and escrow amounts are integers of 10^-6 USDC.
- **The two tolerances are kept apart.**
  - The escrow check is inclusive, at most 0.01 (server.py:177).
  - The on-chain check is strict, below 0.01 (x402_handler.py:226).
  - In real arithmetic, `Server.ToleranceBoundary` exhibits an amount that one accepts and the other rejects. Float rounding can move that boundary (see "## Left out").

### Python behaviour the model keeps

- **The 402 challenge.** `require_payment` (x402_handler.py:14-16) declares no escrow parameters, and its header carries no escrow fields. So the challenge carries amount, currency, address, chain and memo. The no-proof branch of the handler passes two extra keywords, `escrow_address` and `trade_hash`; that is recorded under "## Findings".
- **`raise_for_status`** raises only for statuses 400-599. So a 2xx or 3xx answer other than 200 is still parsed, in both exchange clients.
- **`CHAIN_CONFIGS.get(chain, CHAIN_CONFIGS["ethereum"])`** evaluates its default first. A registry without "ethereum" therefore fails every on-chain check.

## Model

| member | source | states |
|---|---|---|
| Text.Lower | x402_handler.py:187 | ASCII lower-casing maps each character and leaves no upper-case letter |
| Text.Upper | trade_executor.py:72 | ASCII upper-casing maps each character and leaves no lower-case letter |
| Text.Truthy | x402_handler.py:80 | Python truthiness of a value that is a string or None: None and "" are false. It decides `if chain:` here, and the `or` fallbacks through `Text.Or` |
| Text.Or | x402_handler.py:32 | Python `a or b` on strings or None: `a` when truthy, else `b`. `X402.PaymentAddress` states the chain of fallbacks it builds |
| Text.EqualIgnoringCase | server.py:184 | `a.lower() == b.lower()`. Through `Text.Lower` it is equality after ASCII lower-casing, as `Server.EscrowCheckAccepts` and `X402.ScanLogs` use it |
| Text.LowerIdempotent | x402_handler.py:215 | Lower-casing twice is lower-casing once, so comparing lower-cased addresses is stable |
| Text.Remove | server.py:157 | `replace('0x', '')` never lengthens the text |
| Text.RemoveAbsent | server.py:157 | Text in which the pattern's last character never occurs is unchanged by the replacement |
| Text.RemoveLeading | server.py:157 | A leading "0x" is dropped and the replacement carries on after it |
| Text.NatToString | server.py:135 | `str(n)` is a non-empty run of decimal digits |
| Text.NatToStringRoundTrip | trade_executor.py:68 | The decimal rendering of a number denotes that number |
| Text.NatToStringInjective | trade_executor.py:68 | Distinct numbers render to distinct texts |
| Text.HexValue | server.py:162 | A hexadecimal digit of either case has a value below 16 |
| Text.HexDigit | server.py:137 | The digit `hex()` writes for a value reads back as that value |
| Text.Hex | server.py:137 | `hex()` writes two lower-case hexadecimal digits per byte |
| Text.FromHexOfHex | server.py:137-162 | `bytes.fromhex(b.hex()) == b` |
| Text.FromHexLength | server.py:162-163 | Without whitespace, a successful decode has one byte per two characters |
| Text.FromHexDigits | server.py:162 | Even-length text made only of hexadecimal digits always decodes |
| Text.FromHex | server.py:162 | `bytes.fromhex`, which skips whitespace and raises on anything else: a decode has at most one byte per two characters, and text starting with a character that is neither whitespace nor a hexadecimal digit does not decode. Its inverse is `Hex` (`Text.FromHexOfHex`) |
| Text.IndexOf | x402_handler.py:35-41 | The first occurrence of a character, or the length when there is none |
| Text.Cut | x402_handler.py:35-41 | A split at the first `c`; there is none exactly when `c` does not occur. Its inverse is the join (`Text.CutOfJoin`, `Text.JoinOfCut`) |
| Text.CutOfJoin | x402_handler.py:35-41 | Splitting `a + c + b` at the first `c`, where `a` has no `c`, gives back `a` and `b` |
| Text.JoinOfCut | x402_handler.py:35-41 | A split joins back to the text it came from |
| Chains.Lookup | escrow_handler.py:22-27 | `CHAIN_CONFIGS.get(name)` finds an entry exactly when the name is a key, and returns that entry's config |
| Chains.LookupEntry | escrow_handler.py:27 | With distinct names, looking an entry's name up returns that entry's config |
| X402.NewX402Handler | x402_handler.py:10-12 | The facilitator URL defaults to the public facilitator; the recipient is kept as given |
| X402.FieldValueOfEntry | x402_handler.py:35-41 | A `key=value` entry reads back as its value under its key |
| X402.EntryNoSemicolon | x402_handler.py:35-41 | An entry built from text without ';' contains none |
| X402.EntryOfFieldValue | x402_handler.py:35-41 | A part that reads as `key=value` is exactly that entry |
| X402.RenderHeader | x402_handler.py:35-41 | The header's f-string, five `key=value` entries joined by ';'. Its properties are stated by `X402.HeaderRoundTrip` and `X402.ParsedHeaderRenders` |
| X402.ParseHeader | x402_handler.py:35-41 | A reader of the header format, which the source itself does not have. It is the reference inverse of `RenderHeader`, in both directions, by `X402.HeaderRoundTrip` and `X402.ParsedHeaderRenders` |
| X402.HeaderRoundTrip | x402_handler.py:35-41 | The five fields in the order amount, currency, address, chain, memo can be parsed back from the header whenever no field contains ';' |
| X402.ParsedHeaderRenders | x402_handler.py:35-41 | Any header that parses is the rendering of the fields it parses to, so the parse is the render's inverse on both sides |
| X402.PaymentAddress | x402_handler.py:32 | The address is the argument if non-empty, else the handler's recipient if non-empty, else "DEFAULT_X402_ADDRESS" |
| X402.RequirePayment | x402_handler.py:14-50 | Status 402; exactly the PAYMENT-REQUIRED and Content-Type headers; the header parses back to amount, currency, resolved address, chain and memo |
| X402.FacilitatorPayload | x402_handler.py:74-81 | The payload keys; `chain` is present exactly when a chain was supplied; each value is the argument passed in. The recipient passed is already resolved: `PaymentVerified` and `VerifyPayment` apply the fallback to the handler's recipient |
| X402.FacilitatorTier | x402_handler.py:89-105 | Which tier decides: a 200 object by its `verified` field, a 200 non-object as False, a non-200 answer, a non-JSON 200 body or a RequestException by the chain, any other exception as False. Its consequences are stated by `X402.FacilitatorPolicy` |
| X402.PaymentVerified | x402_handler.py:52-105 | `verify_payment`'s verdict, with the recipient falling back to the handler's `or self.recipient_address`. It is the specification `X402.VerifyPayment` is proved against; `X402.FacilitatorPolicy` states the policy |
| X402.WithHexPrefix | x402_handler.py:132-133 | The normalised hash starts with "0x", and a hash that already does is unchanged |
| X402.WithHexPrefixIdempotent | x402_handler.py:132-133 | Normalising twice is normalising once |
| X402.FirstWithTxIsFirst | x402_handler.py:136-147 | Detection finds nothing exactly when no configured chain knows the transaction; otherwise it returns the first chain in iteration order that does |
| X402.ConfigFor | x402_handler.py:155 | The config of a known chain, else ethereum's; no config at all when the registry lacks "ethereum" |
| X402.FirstWithTx | x402_handler.py:136-147 | The chain detection as a function: the first registry entry, in iteration order, whose endpoint returns the transaction. It is the specification `X402.DetectChain` is proved against; `X402.FirstWithTxIsFirst` proves it is the first such entry, and None exactly when there is none |
| X402.ChosenChain | x402_handler.py:136-152 | The given chain when truthy, else the first chain that knows the transaction (`X402.FirstWithTxIsFirst`), else "ethereum" |
| X402.WithinTransferTolerance | x402_handler.py:220-226 | The on-chain tolerance, strictly below 0.01 after scaling by 10^6; `Server.ToleranceBoundary` separates it from the escrow tolerance |
| X402.RecipientKey | x402_handler.py:209 | The lower-cased recipient the scan compares with, "" when there is none |
| X402.PaysRecipient | x402_handler.py:212-226 | One log that pays: it comes from the USDC contract ignoring case, decodes as a Transfer, goes to the recipient key, and is within the strict tolerance. `X402.ScanLogs` is proved to return true exactly when some log satisfies it |
| X402.TransactionPays | x402_handler.py:158-236 | The fail-closed checks and the log scan on one endpoint. It is the specification `X402.CheckTransaction` is proved against; `X402.TransactionFailsClosed` states its failures |
| X402.OnChainVerified | x402_handler.py:107-242 | `_verify_on_chain`'s verdict: normalise the hash, choose the chain and its config, check the transaction. It is the specification `X402.VerifyOnChain` is proved against |
| X402.DetectChain | x402_handler.py:136-147 | The loop over the registry, with its `break`, computes the first chain that knows the transaction |
| X402.ScanLogs | x402_handler.py:212-236 | The loop returns true exactly when some log is from the USDC contract, decodes as a Transfer to the recipient (ignoring case) and is within the strict tolerance; foreign and undecodable logs are skipped |
| X402.CheckTransaction | x402_handler.py:158-236 | The step sequence with its early returns computes the on-chain predicate for one chain's config |
| X402.VerifyOnChain | x402_handler.py:107-242 | Normalisation, chain detection, config choice and the transaction check together compute the on-chain verdict |
| X402.VerifyPayment | x402_handler.py:52-105 | The method computes the two-tier verdict |
| X402.FacilitatorPolicy | x402_handler.py:89-105 | A 200 object decides by its `verified` field (false when absent); a non-200 answer, a non-JSON 200 body or a transport error gives exactly the on-chain verdict; any other failure gives false |
| X402.TransactionFailsClosed | x402_handler.py:159-189 | A missing transaction, a pending or absent receipt, a status other than 1, or a transaction whose `to` is missing or is not the USDC contract ignoring case, is never verified |
| Escrow.InterpretLosesNothing | escrow_handler.py:99-107 | The dictionary's amount is the raw amount over 10^6, and the other six fields are copied: the raw record is recovered from it |
| Escrow.Interpret | escrow_handler.py:99-107 | The dictionary's amount is the raw amount over 10^6, never negative, and the released and refunded flags are copied. Its inverse is `RawOf` (`Escrow.InterpretLosesNothing`) |
| Escrow.VerifyDeposit | escrow_handler.py:86-112 | Active exactly when the agent is not the zero address and the record is neither released nor refunded; the dictionary is returned even for an inactive record; a failed read gives (False, {}) |
| Escrow.SettledNeverActive | escrow_handler.py:97-109 | A released or refunded record is never active, and its dictionary is still returned |
| Escrow.CheckInit | escrow_handler.py:22-29 | An unknown chain is refused first, then a key that designates no account; on success the config is the chain's entry |
| Escrow.Submission | escrow_handler.py:125-137 | The nonce is the account's transaction count, and the gas is 200000; chain id, sender, contract and call are as given. The errors come in the order nonce, gas price, send: once the nonce and the gas price are read, the submission succeeds exactly when the node accepts that transaction, and fails with SendRejected exactly when it refuses it |
| Escrow.SubmissionIgnoresRecord | escrow_handler.py:125-135 | Neither call checks the deposit record: the submission is the same whatever the record says |
| Escrow.EscrowHandler.constructor | escrow_handler.py:25-29 | The fields are set once, and nothing is sent yet |
| Escrow.EscrowHandler.Submit | escrow_handler.py:125-140 | Returns the submission's hash or re-raises its error; only a transaction that was sent is logged |
| Escrow.EscrowHandler.ReleaseFunds | escrow_handler.py:114-140 | The release submission for the trade hash and the order id |
| Escrow.EscrowHandler.RefundFunds | escrow_handler.py:142-167 | The refund submission for the trade hash |
| Escrow.OpenEscrow | escrow_handler.py:13-29 | Fails with the first failing check; otherwise a fresh handler with nothing sent, holding the chain's config and the key's account |
| Kalshi.BaseUrl | price_checker.py:10-14 | A non-empty `base_url`, else the public Kalshi host |
| Kalshi.RaisesForStatus | price_checker.py:39 | `raise_for_status()` raises exactly for statuses 400-599. It decides the errors in `Prices.PriceErrorsAreNone` and, for trade_executor.py:147, in `Orders.OrderIdFrom` |
| Prices.NewPriceChecker | price_checker.py:9-17 | The API base is the base URL followed by "/trade-api/v2" |
| Prices.MarketUrl | price_checker.py:32 | `f"{self.api_base}/markets/{contract_ticker}"`; `Prices.MarketUrlShape` states the full URL for a checker built from a base URL |
| Prices.Converted | price_checker.py:56-82 | A present field's price: cents over 100, `*_dollars` as is, None when `float()` raises. `Prices.FirstPresent` and `Prices.CascadeIsFirstPresent` use it |
| Prices.MarketUrlShape | price_checker.py:32 | The market URL is `{base_url}/trade-api/v2/markets/{ticker}`, with the default host when no base URL is given |
| Prices.PriceFromMarket | price_checker.py:53-85 | The if/elif cascade over the market object. `Prices.CascadeIsFirstPresent` proves it equal to the first-present rule |
| Prices.GetCurrentPrice | price_checker.py:19-96 | `get_current_price`: the GET, then the cascade, with every error None. Its properties are stated by `Prices.PriceErrorsAreNone` and `Prices.PriceComesFromMarket` |
| Prices.Candidates | price_checker.py:53-82 | Four candidates per side, ending with `last_price` in cents |
| Prices.FirstPresent | price_checker.py:53-85 | The price of the first candidate present, converted; None when none is present |
| Prices.CascadeIsFirstPresent | price_checker.py:53-85 | The if/elif cascade is the first-present rule over the side's candidates, with cents divided by 100 and `*_dollars` taken as is |
| Prices.NoCandidateNoPrice | price_checker.py:84-85 | A market with none of the candidate fields gives None |
| Prices.OtherSidesPriceAsNo | price_checker.py:68-82 | Any side other than "yes" is priced from the "no" fields |
| Prices.PriceErrorsAreNone | price_checker.py:37-49 | A transport error, an error status, an unparsable body or a missing `market` key gives None |
| Prices.PriceComesFromMarket | price_checker.py:34-85 | A price comes only from a market object in an answer whose status does not raise, and it is the first-present price |
| Orders.NewTradeExecutor | trade_executor.py:16-26 | The base URL defaults to the public Kalshi host |
| Orders.TruncateTowardZero | trade_executor.py:117 | `int()` on a float truncates toward zero, for either sign |
| Orders.PriceCentsOfCents | trade_executor.py:117 | In the model's real arithmetic, a price that is a whole number of cents converts to exactly that number. Python's floats do not keep this: see "## Left out" |
| Orders.PriceCents | trade_executor.py:117 | `int(price * 100)`: for a non-negative price, the whole number of cents not above it, less than one cent short; for a negative price, the same toward zero |
| Orders.PriceKey | trade_executor.py:128-132 | `yes_price` for side "yes", `no_price` for any other side; `Orders.OrderPayload` states that it is the payload's only price key |
| Orders.OrderPayload | trade_executor.py:119-132 | The payload always has ticker, side, action "buy", count and type "limit", plus exactly one price key: `yes_price` for "yes", else `no_price`, holding the price in cents |
| Orders.SignRequest | trade_executor.py:57-101 | The headers are exactly the key, the timestamp, the signature of timestamp+METHOD+path at that same timestamp, and the content type |
| Orders.SigningMessage | trade_executor.py:72 | The message is the timestamp, then the method, then the path: it starts with the timestamp and ends with the path; `Orders.SigningMessageInjective` proves the two are recovered from it |
| Orders.SignatureExcludesBody | trade_executor.py:70-72 | Two requests differing only in their bodies have the same headers |
| Orders.DigitRun | trade_executor.py:68 | The leading run of digits is no longer than the text |
| Orders.DigitRunOfJoin | trade_executor.py:68-72 | In a timestamp followed by a non-digit, the digit run is the timestamp |
| Orders.SigningMessageInjective | trade_executor.py:72 | The signed message determines the timestamp and the path |
| Orders.UpperOfUpperCase | trade_executor.py:72 | Upper-casing text with no lower-case letter leaves it unchanged |
| Orders.OrderIdFrom | trade_executor.py:147-167 | The id inside "order" when present (None for a null id or a non-object "order"), else the top-level "order_id", else None; transport errors, error statuses and unparsable bodies give None |
| Orders.OrderRequestSigned | trade_executor.py:134-145 | The order is posted to the base URL plus the orders path, signing "POST" and that path at the request's own timestamp |
| Orders.OrderRequestFor | trade_executor.py:120-145 | The POST `execute_trade` sends: its URL, signed headers and payload. `Orders.OrderRequestSigned` and `Orders.OrderPayload` state them |
| Orders.TradeOutcome | trade_executor.py:103-167 | The order id the answer to that POST yields. It is the specification `Orders.ExecuteTrade` is proved against; `Orders.OrderIdFrom` states the precedence |
| Orders.ExecuteTrade | trade_executor.py:103-167 | Building the dictionary, updating it in place by side, signing and posting computes `TradeOutcome` |
| Server.Validate | server.py:94-110 | The checks come in the order body, contract, quantity, side, each failing exactly in its own case; a valid request yields its fields, with the agent defaulting to "unknown" |
| Server.ChainSetting | server.py:129 | `os.getenv("X402_CHAIN", "ethereum")`: the setting when present, else "ethereum" (also server.py:154). `Server.NoProofChallenge` states that the challenge carries it |
| Server.Memo | server.py:128 | The memo `Kalshi trade: {contract_ticker} {side} x{quantity}`; `Server.NoProofGetsChallenge` states that the challenge carries it |
| Server.Prefix32 | server.py:136 | `digest()[:32]` is a prefix of the digest, of length 32, or the whole digest when it is shorter |
| Server.TradeHash | server.py:133-137 | "0x" followed by two lower-case hexadecimal digits per digest byte, 66 characters for a digest of at least 32 bytes; `Server.IssuedHashTakesEscrowPath` proves that the escrow path accepts it |
| Server.CallRequirePayment | x402_handler.py:14-16 | A call by keyword succeeds exactly when `amount_usd` is passed and every keyword is a declared parameter. With all five keywords it uses the given values; with `amount_usd` alone it uses the defaults "USDC", None, "" and "ethereum" |
| Server.PaymentArgsFor | server.py:142-150 | The arguments the no-proof branch passes: the required amount, "USDC", the recipient setting, the memo, the chain setting, the escrow address, and a trade hash only when an escrow address is set. `Server.NoProofChallenge` states the challenge they give |
| Server.NoProofResponse | server.py:142-150 | The no-proof answer for a given set of keywords: the challenge, or 500 when the call raises. `Server.NoProofAsWrittenRaises` and `Server.NoProofChallenge` state both cases |
| Server.NoProofAsWrittenRaises | server.py:142-150 | As written, every request without a proof is answered 500 |
| Server.NoProofChallenge | server.py:126-150 | Called with its declared parameters, the branch answers 402 with a header that parses back to the required amount, "USDC", the resolved address, the chain setting and the memo |
| Server.HashText | server.py:157 | `replace('0x', '')` on the proof, never longer than the proof |
| Server.EscrowPath | server.py:157-159 | The escrow path: a handler is configured and the proof is 64 characters once every "0x" is removed; `Server.ClassificationSelectsCalls` states that it decides the calls |
| Server.WithinEscrowTolerance | server.py:177 | `abs(amount - required) <= 0.01`, the bound included; `Server.ToleranceBoundary` separates it from the on-chain tolerance |
| Server.EscrowHashBytes | server.py:162-167 | The trade hash the escrow path reads: present exactly when the proof's hex text decodes to 32 bytes, and then those bytes |
| Server.DirectPaymentVerified | server.py:199-203 | `verify_payment(proof, required, currency="USDC", recipient_address=..., chain=...)` as the handler calls it. `Server.DirectOrderNeedsVerifiedPayment` states that an order off the escrow path needs it |
| Server.EscrowCheck | server.py:159-198 | An accepted escrow proof decodes to the 32-byte trade hash |
| Server.EscrowCheckAccepts | server.py:161-198 | The escrow check passes exactly for an active deposit within 0.01 inclusive of the required amount, to the configured recipient ignoring case |
| Server.ToleranceBoundary | server.py:177 | In the model's real arithmetic, an amount exactly 0.01 above the required one passes the inclusive escrow tolerance and fails the strict on-chain one (x402_handler.py:226). With Python floats the escrow check can reject this amount: see "## Left out" |
| Server.IssuedHashTakesEscrowPath | server.py:134-162 | A trade hash the challenge issues is classified as an escrow hash and decodes to 32 bytes |
| Server.Run | server.py:70-272 | The handler as a function of the request and the world. It is the specification `Server.TradeServer.ExecuteTrade` is proved against; the pipeline lemmas below are about it |
| Server.Quoted | server.py:112-118 | The price lookup, then 500 without a price (`Server.NoPriceNoFurtherCalls`) |
| Server.Priced | server.py:120-150 | The required amount is price × quantity; without a proof, the corrected challenge (`Server.NoProofGetsChallenge`), otherwise verification |
| Server.ProofVerdict | server.py:156-207 | The escrow check on the escrow path, `verify_payment` off it, with the calls each makes (`Server.EscrowOrderNeedsMatchingDeposit`, `Server.DirectOrderNeedsVerifiedPayment`) |
| Server.Verify | server.py:152-215 | A rejection answers 402, an acceptance places the order (`Server.VerificationGatesOrder`) |
| Server.Execute | server.py:209-272 | The order, then its settlement (`Server.SettlementCompensation`) |
| Server.OrderResult | server.py:210-215 | The executor's order id for the intent at the quoted price; `Server.OrderOnlyAfterVerification` states that the order comes only after verification |
| Server.Settlement | server.py:217-272 | A failed order refunds on the escrow path and answers 500, a filled one releases and records (`Server.FailedSettlement`, `Server.FilledVerifiedTrade`) |
| Server.EscrowSettlement | server.py:217-249 | The escrow step on the escrow path, nothing off it (`Server.SettlementStaysOnPath`) |
| Server.SettleStep | server.py:217-249 | A refund for a falsy order id, a release otherwise (`Server.SettlementCompensation`) |
| Server.RefundStep | server.py:220-229 | The hash is decoded again, and the refund is logged and, when the node accepts it, sent; errors are swallowed (`Server.FailedSettlement`, `Server.TradeServer.Settle`) |
| Server.ReleaseStep | server.py:239-249 | The hash is decoded again, and the release with the order id is logged and, when accepted, sent; errors are swallowed (`Server.FilledVerifiedTrade`, `Server.TradeServer.Settle`) |
| Server.Cost | server.py:121 | `required_payment = current_price * quantity`, also the row's `total_cost` (ledger.py:50); `Server.FilledRecordsOneRow` states that the receipt and the row agree on it |
| Server.RecordOf | server.py:253-261 | The row `record_trade` inserts: agent, ticker, quantity, side, order id, price, total cost and the raw proof (`Server.FilledRecordsOneRow`) |
| Server.Recorded | server.py:251-272 | The ledger append and the 200 body, or 500 when the ledger refuses the row (`Server.LedgerDecidesFilled`) |
| Server.InvalidRequestCallsNothing | server.py:96-110 | An invalid request is answered 400 with no call, no row and no transaction |
| Server.NoPriceNoFurtherCalls | server.py:113-118 | Without a price the answer is 500, and the price lookup is the only call |
| Server.NoProofGetsChallenge | server.py:120-150 | With the corrected `require_payment` call, a request without a proof is answered with the 402 challenge for price × quantity in USDC, with the memo; the only call is the price lookup, and nothing is recorded or sent |
| Server.RefusedProofGetsRejection | server.py:159-207 | A refused proof is answered 402 with the reason and the required amount, after the verification calls only |
| Server.OrderOnlyAfterVerification | server.py:152-215 | An order is placed exactly when the request is valid, priced, carries a proof and the proof is accepted; it comes right after the price lookup and the verification calls |
| Server.VerificationGatesOrder | server.py:199-215 | Verification calls never include an order; a refused proof stops there, and an accepted one is followed by the order |
| Server.RunOfAccepted | server.py:209-272 | An accepted request is the lookup, the verification calls, the order and the settlement, in that order |
| Server.RunOfNotAccepted | server.py:94-207 | A request whose payment is not accepted records nothing, sends nothing, and makes only lookup and verification calls; its answer is a 400, 500, 402 challenge or 402 rejection |
| Server.ClassificationSelectsCalls | server.py:157-207 | `verify_payment` is called only for proofs off the escrow path; the escrow is read, refunded or released, and sent to, only for escrow trade hashes |
| Server.VerifyStaysOnPath | server.py:157-249 | The same, from verification onward |
| Server.SettlementStaysOnPath | server.py:217-249 | The settlement makes escrow calls and sends transactions only on the escrow path |
| Server.EscrowOrderNeedsMatchingDeposit | server.py:161-198 | An order on the escrow path implies an active deposit of the required amount, to the configured recipient |
| Server.DirectOrderNeedsVerifiedPayment | server.py:199-207 | An order off the escrow path implies `verify_payment` accepted the proof for the required amount |
| Server.FailedTradeCompensation | server.py:217-235 | A failed order follows an accepted payment and is answered 500. Its `refunded` flag is whether the escrow path was taken; on that path the refund of the trade hash is the last call. Nothing is released or recorded |
| Server.RunIsVerify | server.py:152-215 | A priced request with a proof is the lookup followed by verification, and it is accepted exactly when the verdict has no rejection |
| Server.FailedVerifiedTrade | server.py:217-235 | The failed-order facts, from verification onward |
| Server.FailedSettlement | server.py:217-235 | A failed order's settlement is the refund of the decoded hash on the escrow path, and nothing off it |
| Server.SettlementCompensation | server.py:217-249 | After an order there is a refund exactly on the escrow path when it failed, and a release exactly on the escrow path when it filled |
| Server.VerifiedCompensation | server.py:199-249 | The same, from verification onward, given an accepted proof |
| Server.CompensationIsExclusive | server.py:217-249 | The refund happens exactly when an accepted escrow payment's order fails, and the release exactly when it fills; never both |
| Server.FilledVerifiedTrade | server.py:237-272 | A 200 from verification onward: the receipt, the single row, the release before the append on the escrow path, and the sent release |
| Server.FilledRecordsOneRow | server.py:251-272 | A 200 appends exactly one row. The row holds the raw proof, the order id, the price and the total cost of the receipt, which is price × quantity. The append is the last call, right after the release on the escrow path |
| Server.LedgerDecidesFilled | server.py:251-262 | Rows are recorded only with a 200; a filled order whose row the ledger refuses is a 500 with nothing recorded |
| Server.TradeServer.constructor | server.py:33-63 | The server starts with an empty ledger and no calls |
| Server.TradeServer.Settle | server.py:217-249 | The hash is decoded again; a refund or release is submitted; decoding and submission errors are swallowed; the calls and transactions are those of the settlement step |
| Server.TradeServer.SettleAndRecord | server.py:217-272 | Settling and recording changes the ledger, the call log and the escrow log exactly as `Settlement` says |
| Server.TradeServer.Fulfil | server.py:209-272 | The order and its settlement change the state exactly as `Execute` says |
| Server.TradeServer.CheckDeposit | server.py:159-198 | The escrow check's result and its deposit read; the ledger is unchanged |
| Server.TradeServer.CheckProof | server.py:156-207 | The proof's verdict and its calls; the ledger is unchanged |
| Server.TradeServer.VerifyThenFulfil | server.py:152-272 | Verification, then the order on acceptance, change the state exactly as `Verify` says |
| Server.TradeServer.Answer | server.py:120-272 | The challenge or verification change the state exactly as `Priced` says; the challenge is the corrected `require_payment` call |
| Server.TradeServer.Quote | server.py:112-118 | The price lookup and what follows change the state exactly as `Quoted` says |
| Server.TradeServer.ExecuteTrade | server.py:70-272 | The handler's response, ledger rows, call log and escrow transactions are those `Run` gives for the request; a request without a proof gets the corrected `require_payment` call's 402 |

## Left out

- Flask routing, request parsing, JSON response rendering and module-level wiring (server.py:1-63, 274-334): the collaborators come in as `Services`, built from their own constructors. The response bodies' error texts are not modelled; the `Response` constructors carry their content.
- Environment variables: the recipient, chain and escrow address are the `Env` value, read once.
- The no-proof branch's trade hash is computed and passed, but `require_payment` does not use it. `TradeHash` models it, with the clock as text and SHA-256 as a parameter.
- Cryptography: SHA-256, RSA-PSS signing with key loading, and Ethereum transaction signing are parameters or omitted. `Orders.TradeExecutor.sign` stands for the signature. Sending a transaction is `EscrowNode.send`.
- Network and RPC I/O: the answers arrive as functions and maps in `World`. The contents of `CHAIN_CONFIGS` are not part of this model; it is a parameter `Registry`.
- ledger.py: the Supabase insert is the flag `World.ledgerAccepts`. The row's `total_cost` is `price * quantity`, as `record_trade` computes it. The read-only query helpers are not modelled.
- Float rendering and rounding: amounts are `real`. The text of a float in the 402 header is the parameter `show`, and `float()` on a JSON value is the market field's `Option<real>`. Two consequences of Python's floats that the real-valued model does not show:
  - Orders.PriceCents: `int(price * 100)` can fall one cent short. A 29-cent ask arrives as `29 / 100.0`, and `int(0.29 * 100)` is 28; 57 and 58 cents become 56 and 57. The limit order then goes in one cent under the ask, where the model gives the exact cents (`Orders.PriceCentsOfCents`).
  - Server.WithinEscrowTolerance: `abs(1010000 / 1e6 - 1.0)` is 0.010000000000000009, above 0.01. So a deposit exactly 0.01 over the required amount can be rejected, where the model accepts it (`Server.ToleranceBoundary`).
- JSON values of unexpected types are not modelled. In the request body (a string quantity, say) the fields are typed. In the facilitator's answer, `Json` has no arrays or objects, so a `verified` field holding a list or a dictionary, whose truthiness `return result.get("verified", False)` passes on, cannot be represented.
- `Web3.to_checksum_address` rejecting a malformed escrow or USDC address is not modelled.
- Text.Lower: `lower()` and `upper()` are modelled for ASCII only; Python's are Unicode-aware. The texts compared here (addresses, "POST") are ASCII.
- Print and traceback logging.
- test_price_checker.py, a script against the live service that asserts nothing.
- Concurrency and the double spend across requests: a deposit stays active until its release is mined, so two concurrent requests can both pass the escrow check. Each request is modelled as one sequential run. A release that fails (its error is swallowed) also leaves the deposit active for a later request.
- The demo-mode flags, which change nothing in the core.
- Server.Run: models the no-proof branch with `require_payment` called by its declared keywords, the corrected call under "## Findings". So do `Server.Priced`, `Server.NoProofGetsChallenge`, `Server.TradeServer.Answer` and `Server.TradeServer.ExecuteTrade`. As written, that branch answers 500 (`Server.NoProofAsWrittenRaises`).
- X402.NewX402Handler: None stands for an omitted `facilitator_url` and gives the default. An explicit `facilitator_url=None`, which Python keeps, is not modelled, because the server always passes a string (server.py:44).
- X402.RequirePayment: states that the header parses back to its five fields only when no field contains ';'. That is when the header format can be read back at all; the rendering itself is the concatenation in x402_handler.py:35-41.

## Findings

| source | as written | input that shows it | evidently intended | confidence | as-written member | corrected member |
|---|---|---|---|---|---|---|
| server.py:142-150 | The no-proof branch calls `require_payment` with the keywords `escrow_address=` and `trade_hash=`, which its signature (x402_handler.py:14-16) does not declare. Python raises TypeError and the framework answers 500 | any valid, priced request without a PAYMENT-SIGNATURE header | the 402 challenge built from amount, currency, recipient, memo and chain | not executed | Server.NoProofAsWrittenRaises | Server.NoProofChallenge |
