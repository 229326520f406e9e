/**
 * The order client: a limit buy order priced in cents, sent with the
 * exchange's signed-request headers, and the order id read from the answer.
 */
module Orders {
  import opened Wrappers
  import opened Json
  import opened Text
  import opened Kalshi

  /** The path orders are posted to; it is also the path that is signed. */
  const OrdersPath := "/" + ApiVersion + "/portfolio/orders"

  /**
   * `KalshiTradeExecutor`: its fields are set once. `sign` stands for the
   * RSA-PSS signature with SHA-256 under the loaded key, base64-encoded; key
   * loading and the signature itself are not modelled.
   */
  datatype TradeExecutor = TradeExecutor(apiKey: string, baseUrl: string, sign: string -> string)

  /** `KalshiTradeExecutor(api_key, private_key_pem, demo_mode, base_url)`. */
  function NewTradeExecutor(apiKey: string, baseUrl: Option<string>, sign: string -> string): (ex: TradeExecutor)
    ensures ex.apiKey == apiKey && ex.sign == sign
    ensures ex.baseUrl == BaseUrl(baseUrl)
  {
    TradeExecutor(apiKey, BaseUrl(baseUrl), sign)
  }

  /** Python's `int(x)` on a float: the integer part, truncated toward zero. */
  function TruncateTowardZero(x: real): (r: int)
    ensures x >= 0.0 ==> r >= 0 && r as real <= x < r as real + 1.0
    ensures x < 0.0 ==> r <= 0 && r as real - 1.0 < x <= r as real
  {
    if x >= 0.0 then x.Floor else -((-x).Floor)
  }

  /** `int(price * 100)`. */
  function PriceCents(price: real): (cents: int)
    ensures price >= 0.0 ==> 0 <= cents && cents as real <= price * 100.0 < cents as real + 1.0
    ensures price < 0.0 ==> cents <= 0 && cents as real - 1.0 < price * 100.0 <= cents as real
  {
    TruncateTowardZero(price * 100.0)
  }

  /** A price of a whole number of cents converts exactly; any other is cut toward zero. */
  lemma PriceCentsOfCents(cents: int)
    ensures PriceCents(cents as real / 100.0) == cents
  {
    assert (cents as real / 100.0) * 100.0 == cents as real;
  }

  /** The key the price goes under: `yes_price` for "yes", `no_price` for any other side. */
  function PriceKey(side: string): string {
    if side == "yes" then "yes_price" else "no_price"
  }

  /** The order object after the side-dependent price key is set. */
  function OrderPayload(ticker: string, side: string, quantity: int, price: real): (p: map<string, Json>)
    ensures p.Keys == {"ticker", "side", "action", "count", "type", PriceKey(side)}
    ensures p["ticker"] == JStr(ticker) && p["side"] == JStr(side) && p["count"] == JInt(quantity)
    ensures p["action"] == JStr("buy") && p["type"] == JStr("limit")
    ensures ("yes_price" in p <==> side == "yes") && ("no_price" in p <==> side != "yes")
    ensures p[PriceKey(side)] == JInt(PriceCents(price))
  {
    var base := map["ticker" := JStr(ticker), "side" := JStr(side), "action" := JStr("buy"),
                    "count" := JInt(quantity), "type" := JStr("limit")];
    base[PriceKey(side) := JInt(PriceCents(price))]
  }

  /** The message `_sign_request` signs: the timestamp, the upper-cased method and the path. */
  function SigningMessage(timestamp: string, verb: string, path: string): (m: string)
    ensures |m| == |timestamp| + |verb| + |path|
    ensures m[..|timestamp|] == timestamp && m[|timestamp| + |verb|..] == path
  {
    timestamp + Upper(verb) + path
  }

  /**
   * `_sign_request(method, path, body)` at a clock reading of `millis`
   * milliseconds: the key id, the timestamp, the signature of the message,
   * and the content type.
   */
  function SignRequest(ex: TradeExecutor, verb: string, path: string, body: string, millis: nat)
    : (headers: map<string, string>)
    ensures headers.Keys == {"KALSHI-ACCESS-KEY", "KALSHI-ACCESS-TIMESTAMP", "KALSHI-ACCESS-SIGNATURE", "Content-Type"}
    ensures headers["KALSHI-ACCESS-KEY"] == ex.apiKey
    ensures headers["KALSHI-ACCESS-TIMESTAMP"] == NatToString(millis)
    ensures headers["KALSHI-ACCESS-SIGNATURE"] == ex.sign(SigningMessage(headers["KALSHI-ACCESS-TIMESTAMP"], verb, path))
    ensures headers["Content-Type"] == "application/json"
  {
    var timestamp := NatToString(millis);
    map["KALSHI-ACCESS-KEY" := ex.apiKey, "KALSHI-ACCESS-TIMESTAMP" := timestamp,
        "KALSHI-ACCESS-SIGNATURE" := ex.sign(SigningMessage(timestamp, verb, path)),
        "Content-Type" := "application/json"]
  }

  /** The body is not signed: two requests that differ only in their bodies carry the same headers. */
  lemma SignatureExcludesBody(ex: TradeExecutor, verb: string, path: string, body1: string, body2: string, millis: nat)
    ensures SignRequest(ex, verb, path, body1, millis) == SignRequest(ex, verb, path, body2, millis)
  {
  }

  predicate AllDigits(s: string) {
    forall i :: 0 <= i < |s| ==> '0' <= s[i] <= '9'
  }

  /** The length of the longest prefix of `s` made of decimal digits. */
  function DigitRun(s: string): (n: nat)
    ensures n <= |s|
  {
    if s == [] || !('0' <= s[0] <= '9') then 0 else 1 + DigitRun(s[1..])
  }

  /** A digit string followed by text that starts with a non-digit: the run of digits is that string. */
  lemma {:induction false} DigitRunOfJoin(t: string, rest: string)
    requires AllDigits(t)
    requires rest != [] && !('0' <= rest[0] <= '9')
    ensures DigitRun(t + rest) == |t|
  {
    if t != [] {
      assert (t + rest)[1..] == t[1..] + rest;
      DigitRunOfJoin(t[1..], rest);
    } else {
      assert t + rest == rest;
    }
  }

  /**
   * The signed message determines the timestamp and the path: a timestamp is
   * all digits and the method does not start with one, so the boundary
   * between them is unambiguous.
   */
  lemma SigningMessageInjective(t1: string, t2: string, verb: string, p1: string, p2: string)
    requires AllDigits(t1) && AllDigits(t2)
    requires verb != [] && !('0' <= verb[0] <= '9')
    requires SigningMessage(t1, verb, p1) == SigningMessage(t2, verb, p2)
    ensures t1 == t2 && p1 == p2
  {
    var m := Upper(verb);
    var s := SigningMessage(t1, verb, p1);
    assert s == t1 + (m + p1) && s == t2 + (m + p2);
    DigitRunOfJoin(t1, m + p1);
    DigitRunOfJoin(t2, m + p2);
    assert t1 == s[..|t1|] == t2;
    assert p1 == s[|t1| + |m|..] == p2;
  }

  /** Text with no lower-case letter is its own upper-casing. */
  lemma UpperOfUpperCase(s: string)
    requires forall i :: 0 <= i < |s| ==> !('a' <= s[i] <= 'z')
    ensures Upper(s) == s
  {
    assert forall i :: 0 <= i < |s| ==> Upper(s)[i] == s[i];
  }

  /** The POST of an order: its URL, its headers and the JSON object of its body. */
  datatype OrderRequest = OrderRequest(url: string, headers: map<string, string>, payload: map<string, Json>)

  /** The `"order"` member of an answer: an object, whose `order_id` may be absent or null, or something else. */
  datatype OrderField = OrderObject(orderId: Option<string>) | OrderNotObject

  /**
   * The decoded JSON of an answer. In an object, `order` is the `"order"`
   * member if present, and `orderId` the `"order_id"` member if present (its
   * value None when it is null).
   */
  datatype OrderBody = Unparsable | NotObject | Object(order: Option<OrderField>, orderId: Option<Option<string>>)

  /** The outcome of the POST: a transport error (a RequestException) or an HTTP answer. */
  datatype ExchangeReply = Failed | Answered(status: int, body: OrderBody)

  /** The exchange: its answer to each order request. */
  type Exchange = OrderRequest -> ExchangeReply

  /**
   * The order id an answer yields: the one inside `"order"` when that member is
   * present (an `"order"` that is not an object raises, giving None), else the
   * top-level `"order_id"`, else None; errors give None.
   */
  function OrderIdFrom(reply: ExchangeReply): (id: Option<string>)
    ensures reply.Failed? || (reply.Answered? && RaisesForStatus(reply.status)) ==> id.None?
    ensures reply.Answered? && !reply.body.Object? ==> id.None?
    ensures id.Some? ==> reply.Answered? && !RaisesForStatus(reply.status) && reply.body.Object?
    ensures reply.Answered? && !RaisesForStatus(reply.status) && reply.body.Object? ==>
              if reply.body.order.Some? then
                id == (if reply.body.order.value.OrderObject? then reply.body.order.value.orderId else None)
              else id == reply.body.orderId.GetOr(None)
  {
    match reply
    case Failed => None
    case Answered(status, body) =>
      if RaisesForStatus(status) then None
      else
        match body
        case Unparsable => None
        case NotObject => None
        case Object(order, orderId) =>
          if order.Some? then
            (match order.value
             case OrderObject(id) => id
             case OrderNotObject => None)
          else if orderId.Some? then orderId.value
          else None
  }

  /**
   * The request `execute_trade` sends for an order. Its body is `payload`
   * serialised; the body passed to the signer is "", which gives the same
   * headers as the serialised payload (`SignatureExcludesBody`).
   */
  function OrderRequestFor(ex: TradeExecutor, ticker: string, side: string, quantity: int, price: real,
                           millis: nat): OrderRequest {
    OrderRequest(ex.baseUrl + OrdersPath, SignRequest(ex, "POST", OrdersPath, "", millis),
                 OrderPayload(ticker, side, quantity, price))
  }

  /** What `execute_trade` returns for an order, given the exchange's answer to its request. */
  function TradeOutcome(ex: TradeExecutor, ticker: string, side: string, quantity: int, price: real,
                        millis: nat, exchange: Exchange): Option<string> {
    OrderIdFrom(exchange(OrderRequestFor(ex, ticker, side, quantity, price, millis)))
  }

  /**
   * The order request signs exactly the POST of the orders path at the request's
   * own timestamp, and goes to that path under the executor's base URL.
   */
  lemma OrderRequestSigned(ex: TradeExecutor, ticker: string, side: string, quantity: int, price: real, millis: nat)
    ensures var rq := OrderRequestFor(ex, ticker, side, quantity, price, millis);
            && rq.url == ex.baseUrl + OrdersPath
            && rq.headers["KALSHI-ACCESS-TIMESTAMP"] == NatToString(millis)
            && rq.headers["KALSHI-ACCESS-SIGNATURE"] == ex.sign(NatToString(millis) + "POST" + OrdersPath)
  {
    UpperOfUpperCase("POST");
  }

  /**
   * `execute_trade(contract_ticker, side, quantity, price)`: build the order,
   * set the price key for the side, sign, post, read the order id.
   */
  method ExecuteTrade(ex: TradeExecutor, ticker: string, side: string, quantity: int, price: real,
                      millis: nat, exchange: Exchange) returns (orderId: Option<string>)
    ensures orderId == TradeOutcome(ex, ticker, side, quantity, price, millis, exchange)
  {
    var priceCents := PriceCents(price);
    var orderData := map["ticker" := JStr(ticker), "side" := JStr(side), "action" := JStr("buy"),
                         "count" := JInt(quantity), "type" := JStr("limit")];
    if side == "yes" {
      orderData := orderData["yes_price" := JInt(priceCents)];
    } else {
      orderData := orderData["no_price" := JInt(priceCents)];
    }
    var path := OrdersPath;
    // The source signs with `json.dumps(order_data)` as the body; the body is
    // not part of the signature (`SignatureExcludesBody`), so "" stands for it.
    var headers := SignRequest(ex, "POST", path, "", millis);
    var reply := exchange(OrderRequest(ex.baseUrl + path, headers, orderData));
    orderId := OrderIdFrom(reply);
  }
}
