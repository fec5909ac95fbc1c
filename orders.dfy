/**
 * The order side of the bot: sizing an order from the price, the parameter
 * list of a futures market order, its signature and the URL it is posted to,
 * and how the exchange's answer is read back.
 */
module Orders {
  import opened Wrappers
  import opened Text

  /** Nominal order size, in USDT, of every order. */
  const USDT_PER_ORDER: real := 80.0
  /** Decimal places the quantity is rounded to. */
  const QUANTITY_SCALE: real := 1000.0
  const BASE_URL := "https://fapi.binance.com"
  const ORDER_PATH := "/fapi/v1/order"
  const API_KEY_HEADER := "X-MBX-APIKEY"
  /** Tolerance, in milliseconds, the exchange gives the request timestamp. */
  const RECV_WINDOW := 5000
  /** The keys of an order's parameters, in the order they are inserted. */
  const ORDER_KEYS: seq<string> :=
    ["symbol", "side", "positionSide", "type", "quantity", "timestamp", "recvWindow"]

  // ---------------------------------------------------------------------------
  // Quantity

  /** Round to the nearest integer, a tie going to the even neighbour, as Python's `round`. */
  function RoundHalfEven(x: real): (n: int)
    ensures x - 0.5 <= n as real <= x + 0.5
    ensures n as real == x - 0.5 ==> n % 2 == 0
    ensures n as real == x + 0.5 ==> n % 2 == 0
  {
    var f := x.Floor;
    var frac := x - f as real;
    if frac < 0.5 then f
    else if frac > 0.5 then f + 1
    else if f % 2 == 0 then f
    else f + 1
  }

  /**
   * `calculate_quantity`: the nominal order size divided by the price, rounded
   * to three decimals. Computed on exact reals, not on binary floats.
   */
  function CalculateQuantity(price: real): (q: real)
    requires price > 0.0
    ensures q >= 0.0
    ensures q * QUANTITY_SCALE == RoundHalfEven(USDT_PER_ORDER / price * QUANTITY_SCALE) as real
  {
    RoundHalfEven(USDT_PER_ORDER / price * QUANTITY_SCALE) as real / QUANTITY_SCALE
  }

  /** The rounding moves the quantity by at most half a unit of the last decimal. */
  lemma QuantityIsNearest(price: real)
    requires price > 0.0
    ensures USDT_PER_ORDER / price - 0.0005 <= CalculateQuantity(price) <= USDT_PER_ORDER / price + 0.0005
  {
    var x := USDT_PER_ORDER / price * QUANTITY_SCALE;
    var n := RoundHalfEven(x);
    assert x - 0.5 <= n as real <= x + 0.5;
    assert CalculateQuantity(price) == n as real / QUANTITY_SCALE;
  }

  /**
   * The quantity is positive exactly when the price is below 160000: at that
   * price the unrounded quantity is 0.0005, a tie that rounds to 0.
   */
  lemma QuantityPositiveIff(price: real)
    requires price > 0.0
    ensures CalculateQuantity(price) > 0.0 <==> price < 160000.0
  {
    var x := USDT_PER_ORDER / price * QUANTITY_SCALE;
    assert x * price == 80000.0;
    var n := RoundHalfEven(x);
    if price < 160000.0 {
      assert (x - 0.5) * price > 0.0;
      assert x > 0.5;
      assert n >= 1;
    } else {
      assert (0.5 - x) * price >= 0.0;
      assert 0.0 <= x <= 0.5;
      assert n == 0;
    }
  }

  /** 80 USDT at a price of 40000 is 0.002. */
  lemma QuantityAtFortyThousand()
    ensures CalculateQuantity(40000.0) == 0.002
  {
    assert USDT_PER_ORDER / 40000.0 * QUANTITY_SCALE == 2.0;
    assert RoundHalfEven(2.0) == 2;
  }

  // ---------------------------------------------------------------------------
  // Order parameters

  /** A parameter value: a string, an integer, or a decimal quantity. */
  datatype Value = Str(s: string) | Integer(n: int) | Decimal(d: real)

  /** An insertion-ordered dictionary of parameters. */
  type Params = seq<(string, Value)>

  function Keys(p: Params): (ks: seq<string>)
    ensures |ks| == |p|
    ensures forall i :: 0 <= i < |p| ==> ks[i] == p[i].0
  {
    if p == [] then [] else [p[0].0] + Keys(p[1..])
  }

  /**
   * The value stored under `key`, the first one if the key repeats. A Python
   * dict literal keeps the last one instead; the two agree here because the
   * keys of an order are distinct (OrderKeysDistinct).
   */
  function Lookup(p: Params, key: string): Option<Value>
  {
    if p == [] then None
    else if p[0].0 == key then Some(p[0].1)
    else Lookup(p[1..], key)
  }

  /** A key occurs in the dictionary exactly when a value is stored under it. */
  lemma {:induction false} LookupDefined(p: Params, key: string)
    ensures Lookup(p, key).Some? <==> key in Keys(p)
  {
    if p != [] {
      LookupDefined(p[1..], key);
      assert Keys(p) == [p[0].0] + Keys(p[1..]);
    }
  }

  /** The value under a key is the one at its first occurrence. */
  lemma {:induction false} LookupFirst(p: Params, key: string, i: nat)
    requires i < |p| && p[i].0 == key
    requires forall j :: 0 <= j < i ==> p[j].0 != key
    ensures Lookup(p, key) == Some(p[i].1)
  {
    if i > 0 {
      LookupFirst(p[1..], key, i - 1);
    }
  }

  /** The parameter dictionary that `place_futures_order` builds. */
  function OrderParams(symbol: string, side: string, positionSide: string, quantity: real, timestamp: int): (p: Params)
    ensures Keys(p) == ORDER_KEYS
  {
    [ ("symbol", Str(symbol)),
      ("side", Str(Upper(side))),
      ("positionSide", Str(positionSide)),
      ("type", Str("MARKET")),
      ("quantity", Decimal(quantity)),
      ("timestamp", Integer(timestamp)),
      ("recvWindow", Integer(RECV_WINDOW)) ]
  }

  /** No key of an order appears twice, so the sequence is a faithful dictionary. */
  lemma OrderKeysDistinct()
    ensures forall i, j :: 0 <= i < j < |ORDER_KEYS| ==> ORDER_KEYS[i] != ORDER_KEYS[j]
  {
  }

  /** Looking up each key of an order yields what the caller supplied, the side upper-cased. */
  lemma OrderParamsLookup(symbol: string, side: string, positionSide: string, quantity: real, timestamp: int)
    ensures Lookup(OrderParams(symbol, side, positionSide, quantity, timestamp), "symbol") == Some(Str(symbol))
    ensures Lookup(OrderParams(symbol, side, positionSide, quantity, timestamp), "side") == Some(Str(Upper(side)))
    ensures Lookup(OrderParams(symbol, side, positionSide, quantity, timestamp), "positionSide") == Some(Str(positionSide))
    ensures Lookup(OrderParams(symbol, side, positionSide, quantity, timestamp), "type") == Some(Str("MARKET"))
    ensures Lookup(OrderParams(symbol, side, positionSide, quantity, timestamp), "quantity") == Some(Decimal(quantity))
    ensures Lookup(OrderParams(symbol, side, positionSide, quantity, timestamp), "timestamp") == Some(Integer(timestamp))
    ensures Lookup(OrderParams(symbol, side, positionSide, quantity, timestamp), "recvWindow") == Some(Integer(5000))
  {
    var p := OrderParams(symbol, side, positionSide, quantity, timestamp);
    assert Keys(p) == ORDER_KEYS;
    OrderKeysDistinct();
    assert forall j :: 0 <= j < 7 ==> p[j].0 == ORDER_KEYS[j];
    LookupFirst(p, "symbol", 0);
    LookupFirst(p, "side", 1);
    LookupFirst(p, "positionSide", 2);
    LookupFirst(p, "type", 3);
    LookupFirst(p, "quantity", 4);
    LookupFirst(p, "timestamp", 5);
    LookupFirst(p, "recvWindow", 6);
  }

  /** An order carries no key besides the seven. */
  lemma OrderParamsNothingElse(symbol: string, side: string, positionSide: string, quantity: real, timestamp: int,
                               key: string)
    requires key !in ORDER_KEYS
    ensures Lookup(OrderParams(symbol, side, positionSide, quantity, timestamp), key) == None
  {
    LookupDefined(OrderParams(symbol, side, positionSide, quantity, timestamp), key);
  }

  /** A side given in any case is sent upper-cased: "buy", "Buy" and "BUY" all become "BUY". */
  lemma SideIsUpperCased(symbol: string, side: string, positionSide: string, quantity: real, timestamp: int)
    requires Lower(side) == "buy"
    ensures Lookup(OrderParams(symbol, side, positionSide, quantity, timestamp), "side") == Some(Str("BUY"))
  {
    OrderParamsLookup(symbol, side, positionSide, quantity, timestamp);
    assert |side| == 3;
    assert LowerChar(side[0]) == 'b' && LowerChar(side[1]) == 'u' && LowerChar(side[2]) == 'y';
    assert Upper(side) == "BUY";
  }

  // ---------------------------------------------------------------------------
  // Signing and submission

  /**
   * The credentials and the two library routines the signing uses, left
   * uninterpreted: `urlencode` of a parameter dictionary and the hex digest
   * of HMAC-SHA256 keyed by the secret over the query string.
   */
  datatype Signer = Signer(
    apiKey: string,
    apiSecret: string,
    urlencode: Params -> string,
    hmacSha256: (string, string) -> string)

  /** What is POSTed to the exchange. */
  datatype SignedRequest = SignedRequest(
    params: Params,
    query: string,
    signature: string,
    url: string,
    headers: seq<(string, string)>)

  /** The exchange's answer to the POST, or the exception `requests.post` raised. */
  datatype Reply = Answered(status: int, bodyIsJson: bool) | TransportError

  /**
   * How `place_futures_order` ends: it returns True, it returns False, or it
   * raises (the POST itself, or `res.json()` of a 200 answer that is not JSON).
   */
  datatype Submission = Accepted | Refused | Raised

  /** The request `place_futures_order` signs and posts. */
  function SignRequest(signer: Signer, params: Params): (r: SignedRequest)
    ensures r.params == params
    ensures r.query == signer.urlencode(params)
    ensures r.signature == signer.hmacSha256(signer.apiSecret, r.query)
    ensures r.url == BASE_URL + ORDER_PATH + "?" + r.query + "&signature=" + r.signature
    ensures r.headers == [(API_KEY_HEADER, signer.apiKey)]
  {
    var query := signer.urlencode(params);
    var signature := signer.hmacSha256(signer.apiSecret, query);
    SignedRequest(params, query, signature,
                  BASE_URL + ORDER_PATH + "?" + query + "&signature=" + signature,
                  [(API_KEY_HEADER, signer.apiKey)])
  }

  /** How the answer to the POST is read. */
  function Interpret(reply: Reply): (s: Submission)
    ensures s == Accepted <==> reply.Answered? && reply.status == 200 && reply.bodyIsJson
    ensures s == Refused <==> reply.Answered? && reply.status != 200
  {
    match reply
    case TransportError => Raised
    case Answered(status, bodyIsJson) =>
      if status == 200 then (if bodyIsJson then Accepted else Raised) else Refused
  }

  datatype Attempt = Attempt(request: SignedRequest, result: Submission)

  /**
   * `place_futures_order`: the request it posts and how it ends, given the
   * exchange's reply. The request carries the seven keys in their order, the
   * side upper-cased, a market type and a 5000 ms window, and is signed over
   * its own query; the call succeeds only on a 200 answer.
   */
  function PlaceFuturesOrder(signer: Signer, symbol: string, side: string, positionSide: string,
                             quantity: real, timestamp: int, reply: Reply): (a: Attempt)
    ensures a.request == SignRequest(signer, OrderParams(symbol, side, positionSide, quantity, timestamp))
    ensures Keys(a.request.params) == ORDER_KEYS
    ensures Lookup(a.request.params, "symbol") == Some(Str(symbol))
    ensures Lookup(a.request.params, "side") == Some(Str(Upper(side)))
    ensures Lookup(a.request.params, "positionSide") == Some(Str(positionSide))
    ensures Lookup(a.request.params, "type") == Some(Str("MARKET"))
    ensures Lookup(a.request.params, "quantity") == Some(Decimal(quantity))
    ensures Lookup(a.request.params, "timestamp") == Some(Integer(timestamp))
    ensures Lookup(a.request.params, "recvWindow") == Some(Integer(5000))
    ensures a.request.signature == signer.hmacSha256(signer.apiSecret, signer.urlencode(a.request.params))
    ensures a.result == Interpret(reply)
    ensures a.result == Accepted <==> reply == Answered(200, true)
    ensures a.result == Refused <==> reply.Answered? && reply.status != 200
  {
    OrderParamsLookup(symbol, side, positionSide, quantity, timestamp);
    Attempt(SignRequest(signer, OrderParams(symbol, side, positionSide, quantity, timestamp)), Interpret(reply))
  }
}
