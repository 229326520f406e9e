/** What the two exchange clients share: the default host and the API version prefix. */
module Kalshi {
  import opened Wrappers
  import opened Text

  const DefaultBaseUrl := "https://api.elections.kalshi.com"
  const ApiVersion := "trade-api/v2"

  /** `base_url` when it is given and not empty, otherwise the default host. */
  function BaseUrl(baseUrl: Option<string>): (r: string)
    ensures Truthy(baseUrl) ==> r == baseUrl.value
    ensures !Truthy(baseUrl) ==> r == DefaultBaseUrl
  {
    if Truthy(baseUrl) then baseUrl.value else DefaultBaseUrl
  }

  /** `response.raise_for_status()` raises for client and server errors only. */
  predicate RaisesForStatus(status: int) {
    400 <= status < 600
  }
}

/**
 * The market price lookup: a GET of the market record, then the first price
 * field present for the side, with cent prices converted to dollars.
 */
module Prices {
  import opened Wrappers
  import opened Text
  import opened Kalshi

  /** `KalshiPriceChecker`: its fields are set once. */
  datatype PriceChecker = PriceChecker(baseUrl: string, apiBase: string)

  /** `KalshiPriceChecker(demo_mode, base_url)`; the demo flag changes nothing. */
  function NewPriceChecker(baseUrl: Option<string>): (c: PriceChecker)
    ensures c.baseUrl == BaseUrl(baseUrl)
    ensures c.apiBase == c.baseUrl + "/" + ApiVersion
  {
    var b := BaseUrl(baseUrl);
    PriceChecker(b, b + "/" + ApiVersion)
  }

  function MarketUrl(c: PriceChecker, ticker: string): string {
    c.apiBase + "/markets/" + ticker
  }

  /** The URL of a ticker's market under a checker built from `base_url`. */
  lemma MarketUrlShape(baseUrl: Option<string>, ticker: string)
    ensures MarketUrl(NewPriceChecker(baseUrl), ticker)
         == BaseUrl(baseUrl) + "/trade-api/v2/markets/" + ticker
    ensures !Truthy(baseUrl) ==> (MarketUrl(NewPriceChecker(baseUrl), ticker)
                                  == "https://api.elections.kalshi.com/trade-api/v2/markets/" + ticker)
  {
  }

  /**
   * The decoded JSON of a market answer: not decodable, an object without
   * `"market"`, or the market object. Each present field maps to what
   * `float()` makes of it, None when `float()` raises.
   */
  datatype MarketBody = Unparsable | NoMarket | Market(fields: map<string, Option<real>>)

  /** The outcome of the GET: a transport error (a RequestException) or an HTTP answer. */
  datatype MarketReply = TransportFailed | Answered(status: int, body: MarketBody)

  /** The market data service: its answer for each URL. */
  type MarketService = string -> MarketReply

  /** The price a present field gives: cents over 100, `*_dollars` as it is; None when `float()` raises. */
  function Converted(v: Option<real>, inCents: bool): Option<real> {
    if v.None? then None else if inCents then Some(v.value / 100.0) else Some(v.value)
  }

  /** The if/elif cascade of `get_current_price` over a market object. */
  function PriceFromMarket(fields: map<string, Option<real>>, side: string): Option<real> {
    if side == "yes" then
      if "yes_ask" in fields then Converted(fields["yes_ask"], true)
      else if "yes_bid" in fields then Converted(fields["yes_bid"], true)
      else if "yes_ask_dollars" in fields then Converted(fields["yes_ask_dollars"], false)
      else if "last_price" in fields then Converted(fields["last_price"], true)
      else None
    else
      if "no_ask" in fields then Converted(fields["no_ask"], true)
      else if "no_bid" in fields then Converted(fields["no_bid"], true)
      else if "no_ask_dollars" in fields then Converted(fields["no_ask_dollars"], false)
      else if "last_price" in fields then Converted(fields["last_price"], true)
      else None
  }

  /** `get_current_price(contract_ticker, side)`: every error becomes None. */
  function GetCurrentPrice(c: PriceChecker, ticker: string, side: string, market: MarketService): Option<real> {
    match market(MarketUrl(c, ticker))
    case TransportFailed => None
    case Answered(status, body) =>
      if RaisesForStatus(status) then None
      else
        match body
        case Unparsable => None
        case NoMarket => None
        case Market(fields) => PriceFromMarket(fields, side)
  }

  /** A candidate price field: its key and whether it holds cents. */
  datatype Candidate = Candidate(key: string, inCents: bool)

  /** The fields consulted for a side, in order of preference. */
  function Candidates(side: string): (r: seq<Candidate>)
    ensures |r| == 4 && r[3] == Candidate("last_price", true)
  {
    if side == "yes" then
      [Candidate("yes_ask", true), Candidate("yes_bid", true), Candidate("yes_ask_dollars", false),
       Candidate("last_price", true)]
    else
      [Candidate("no_ask", true), Candidate("no_bid", true), Candidate("no_ask_dollars", false),
       Candidate("last_price", true)]
  }

  /** The price of the first candidate present in the market object; None when none is present. */
  function FirstPresent(fields: map<string, Option<real>>, cs: seq<Candidate>): (r: Option<real>)
    ensures (forall i :: 0 <= i < |cs| ==> cs[i].key !in fields) ==> r.None?
    ensures forall i :: 0 <= i < |cs| && cs[i].key in fields && (forall j :: 0 <= j < i ==> cs[j].key !in fields)
                        ==> r == Converted(fields[cs[i].key], cs[i].inCents)
  {
    if cs == [] then None
    else if cs[0].key in fields then Converted(fields[cs[0].key], cs[0].inCents)
    else
      var r := FirstPresent(fields, cs[1..]);
      assert forall i :: 1 <= i < |cs| ==> cs[i] == cs[1..][i - 1];
      r
  }

  /**
   * The cascade is the first-present rule over the side's candidates: a
   * present field decides even when its value cannot be converted, and the
   * later fields are then not consulted.
   */
  lemma CascadeIsFirstPresent(fields: map<string, Option<real>>, side: string)
    ensures PriceFromMarket(fields, side) == FirstPresent(fields, Candidates(side))
  {
    var cs := Candidates(side);
    var tail1, tail2, tail3 := cs[1..], cs[2..], cs[3..];
    assert tail1[1..] == tail2 && tail2[1..] == tail3 && tail3[1..] == [];
    assert FirstPresent(fields, tail3) == if "last_price" in fields then Converted(fields["last_price"], true) else None;
    assert tail2[0] == cs[2] && tail1[0] == cs[1];
  }

  /** No candidate field present, no price. */
  lemma NoCandidateNoPrice(fields: map<string, Option<real>>, side: string)
    requires forall i :: 0 <= i < 4 ==> Candidates(side)[i].key !in fields
    ensures PriceFromMarket(fields, side).None?
  {
    CascadeIsFirstPresent(fields, side);
  }

  /** Any side other than "yes" is priced from the "no" fields. */
  lemma OtherSidesPriceAsNo(fields: map<string, Option<real>>, side: string)
    requires side != "yes"
    ensures PriceFromMarket(fields, side) == PriceFromMarket(fields, "no")
  {
  }

  /** Transport errors, error statuses and bodies without a market object give None. */
  lemma PriceErrorsAreNone(c: PriceChecker, ticker: string, side: string, market: MarketService)
    requires || market(MarketUrl(c, ticker)).TransportFailed?
             || (market(MarketUrl(c, ticker)).Answered? && RaisesForStatus(market(MarketUrl(c, ticker)).status))
             || (market(MarketUrl(c, ticker)).Answered? && !market(MarketUrl(c, ticker)).body.Market?)
    ensures GetCurrentPrice(c, ticker, side, market).None?
  {
  }

  /** Only a market object, in an answer whose status does not raise, yields a price. */
  lemma PriceComesFromMarket(c: PriceChecker, ticker: string, side: string, market: MarketService)
    requires GetCurrentPrice(c, ticker, side, market).Some?
    ensures var reply := market(MarketUrl(c, ticker));
            && reply.Answered? && !RaisesForStatus(reply.status) && reply.body.Market?
            && GetCurrentPrice(c, ticker, side, market) == FirstPresent(reply.body.fields, Candidates(side))
  {
    CascadeIsFirstPresent(market(MarketUrl(c, ticker)).body.fields, side);
  }
}
