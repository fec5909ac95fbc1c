/**
 * What the webhook promises, proved about Handle: the response table row by
 * row with its frame conditions, the bound on the open-long counter over any
 * sequence of signals, and that a signal posts at most one order.
 */
module WebhookProperties {
  import opened Wrappers
  import opened Text
  import opened Orders
  import opened Webhook

  /** The lower-cased action of a signal whose fields are strings. */
  function ActionOf(req: Request): string
    requires TextualSignal(req.data)
  {
    Lower(req.data.value[ACTION_KEY].s)
  }

  /** The upper-cased symbol of a signal whose fields are strings. */
  function SymbolOf(req: Request): string
    requires TextualSignal(req.data)
  {
    Upper(req.data.value[SYMBOL_KEY].s)
  }

  /** The signal passed every check before the dispatch on its action. */
  predicate Tradable(req: Request) {
    && TextualSignal(req.data)
    && req.price.Price?
    && req.price.value > 0.0
    && CalculateQuantity(req.price.value) > 0.0
  }

  /** The orders posted, in order. */
  function Posts(effects: seq<Effect>): (posts: seq<SignedRequest>)
    ensures |posts| <= |effects|
    ensures forall r :: r in posts <==> OrderPost(r) in effects
  {
    if effects == [] then []
    else (if effects[0].OrderPost? then [effects[0].request] else []) + Posts(effects[1..])
  }

  // ---------------------------------------------------------------------------
  // Validation before the dispatch

  /** "Fehlende Daten" is the answer exactly when the payload, its action or its symbol is missing; nothing is fetched then. */
  lemma MissingDataIff(count: int, max: int, signer: Signer, req: Request)
    ensures Handle(count, max, signer, req).response == MISSING_DATA <==> !HasSignal(req.data)
    ensures !HasSignal(req.data) ==> Handle(count, max, signer, req) == Outcome(MISSING_DATA, count, [])
  {
  }

  /** A non-positive price is rejected before the action is looked at, whatever the action is. */
  lemma InvalidPriceIff(count: int, max: int, signer: Signer, req: Request)
    requires TextualSignal(req.data)
    ensures Handle(count, max, signer, req).response == INVALID_PRICE
            <==> req.price.Price? && req.price.value <= 0.0
    ensures req.price.Price? && req.price.value <= 0.0 ==>
              Handle(count, max, signer, req) == Outcome(INVALID_PRICE, count, [PriceQuery(SymbolOf(req))])
  {
  }

  /**
   * A positive price whose quantity rounds to zero is rejected, whatever the
   * action is; with 80 USDT per order that is a price of 160000 or more.
   */
  lemma QuantityTooLowIff(count: int, max: int, signer: Signer, req: Request)
    requires TextualSignal(req.data) && req.price.Price? && req.price.value > 0.0
    ensures Handle(count, max, signer, req).response == QUANTITY_TOO_LOW <==> req.price.value >= 160000.0
    ensures req.price.value >= 160000.0 ==>
              Handle(count, max, signer, req) == Outcome(QUANTITY_TOO_LOW, count, [PriceQuery(SymbolOf(req))])
  {
    QuantityPositiveIff(req.price.value);
  }

  // ---------------------------------------------------------------------------
  // The dispatch on the action

  /** A buy at the ceiling is ignored: no order, the counter unchanged. */
  lemma BuyAtCapacity(count: int, max: int, signer: Signer, req: Request)
    requires Tradable(req) && ActionOf(req) == "buy" && count >= max
    ensures Handle(count, max, signer, req) == Outcome(MAX_REACHED, count, [PriceQuery(SymbolOf(req))])
  {
  }

  /**
   * A buy below the ceiling posts exactly one signed BUY/LONG market order for
   * the computed quantity. Its acceptance raises the counter by one; a refusal
   * answers "Buy fehlgeschlagen" and an exception a 500 page, both leaving the
   * counter as it was.
   */
  lemma BuyBelowCapacity(count: int, max: int, signer: Signer, req: Request)
    requires Tradable(req) && ActionOf(req) == "buy" && count < max
    ensures var o := Handle(count, max, signer, req);
      var order := SignRequest(signer, OrderParams(SymbolOf(req), "BUY", "LONG",
                                                   CalculateQuantity(req.price.value), req.timestamp));
      && o.effects == [PriceQuery(SymbolOf(req)), OrderPost(order)]
      && (Interpret(req.reply) == Accepted ==> o.response == OPENED && o.count == count + 1)
      && (Interpret(req.reply) == Refused ==> o.response == BUY_FAILED && o.count == count)
      && (Interpret(req.reply) == Raised ==> o.response == InternalServerError && o.count == count)
  {
  }

  /** The order a buy posts: the fixed keys in their order, BUY, LONG, MARKET and a 5000 ms window. */
  lemma BuyOrderParameters(count: int, max: int, signer: Signer, req: Request)
    requires Tradable(req) && ActionOf(req) == "buy" && count < max
    ensures var posts := Posts(Handle(count, max, signer, req).effects);
      && |posts| == 1
      && Keys(posts[0].params) == ORDER_KEYS
      && Lookup(posts[0].params, "symbol") == Some(Str(SymbolOf(req)))
      && Lookup(posts[0].params, "side") == Some(Str("BUY"))
      && Lookup(posts[0].params, "positionSide") == Some(Str("LONG"))
      && Lookup(posts[0].params, "type") == Some(Str("MARKET"))
      && Lookup(posts[0].params, "quantity") == Some(Decimal(CalculateQuantity(req.price.value)))
      && Lookup(posts[0].params, "timestamp") == Some(Integer(req.timestamp))
      && Lookup(posts[0].params, "recvWindow") == Some(Integer(5000))
      && posts[0].signature == signer.hmacSha256(signer.apiSecret, signer.urlencode(posts[0].params))
  {
    var q := CalculateQuantity(req.price.value);
    var order := SignRequest(signer, OrderParams(SymbolOf(req), "BUY", "LONG", q, req.timestamp));
    BuyBelowCapacity(count, max, signer, req);
    assert Posts([PriceQuery(SymbolOf(req)), OrderPost(order)]) == [order];
    OrderParamsLookup(SymbolOf(req), "BUY", "LONG", q, req.timestamp);
    assert Upper("BUY") == "BUY" by {
      UpperOfUpperCase("BUY");
    }
  }

  /** A close of a long never posts an order; it only lowers a positive counter by one. */
  lemma CloseLong(count: int, max: int, signer: Signer, req: Request)
    requires Tradable(req) && ActionOf(req) == "close_long"
    ensures count > 0 ==> Handle(count, max, signer, req) == Outcome(CLOSED, count - 1, [PriceQuery(SymbolOf(req))])
    ensures count <= 0 ==> Handle(count, max, signer, req) == Outcome(NONE_ACTIVE, count, [PriceQuery(SymbolOf(req))])
  {
  }

  /** A close of a short is ignored. */
  lemma CloseShort(count: int, max: int, signer: Signer, req: Request)
    requires Tradable(req) && ActionOf(req) == "close_short"
    ensures Handle(count, max, signer, req) == Outcome(SHORT_IGNORED, count, [PriceQuery(SymbolOf(req))])
  {
  }

  /** Any other action is refused as unknown. */
  lemma UnknownAction(count: int, max: int, signer: Signer, req: Request)
    requires Tradable(req)
    requires ActionOf(req) != "buy" && ActionOf(req) != "close_long" && ActionOf(req) != "close_short"
    ensures Handle(count, max, signer, req) == Outcome(UNKNOWN_ACTION, count, [PriceQuery(SymbolOf(req))])
  {
  }

  /** Actions that differ only in letter case are handled alike: "BUY", "Buy" and "buy" are one action. */
  lemma CaseInsensitiveAction(count: int, max: int, signer: Signer, fields: map<string, Field>,
                              a: string, b: string, price: PriceFetch, reply: Reply, timestamp: int)
    requires Lower(a) == Lower(b)
    ensures Handle(count, max, signer, Request(Some(fields[ACTION_KEY := JsonString(a)]), price, reply, timestamp))
         == Handle(count, max, signer, Request(Some(fields[ACTION_KEY := JsonString(b)]), price, reply, timestamp))
  {
    var fa := fields[ACTION_KEY := JsonString(a)];
    var fb := fields[ACTION_KEY := JsonString(b)];
    assert SYMBOL_KEY != ACTION_KEY;
    assert SYMBOL_KEY in fa <==> SYMBOL_KEY in fb;
    if SYMBOL_KEY in fa {
      assert fa[SYMBOL_KEY] == fb[SYMBOL_KEY];
    }
  }

  // ---------------------------------------------------------------------------
  // The counter

  /** Every request keeps the counter between zero and the ceiling. */
  lemma HandleKeepsBounds(count: int, max: int, signer: Signer, req: Request)
    requires 0 <= count <= max
    ensures 0 <= Handle(count, max, signer, req).count <= max
  {
  }

  /**
   * The counter moves by at most one: up exactly when an accepted buy answers
   * "success", down exactly when a close of a long answers "closed".
   */
  lemma CountChanges(count: int, max: int, signer: Signer, req: Request)
    ensures var o := Handle(count, max, signer, req);
      && (o.count == count + 1 <==> o.response == OPENED)
      && (o.count == count - 1 <==> o.response == CLOSED)
      && (o.response != OPENED && o.response != CLOSED ==> o.count == count)
  {
  }

  /**
   * A signal posts at most one order, and posts one exactly when it is a
   * tradable buy below the ceiling.
   */
  lemma AtMostOneOrder(count: int, max: int, signer: Signer, req: Request)
    ensures |Posts(Handle(count, max, signer, req).effects)| <= 1
    ensures |Posts(Handle(count, max, signer, req).effects)| == 1
            <==> Tradable(req) && ActionOf(req) == "buy" && count < max
  {
    var o := Handle(count, max, signer, req);
    if Tradable(req) && ActionOf(req) == "buy" && count < max {
      BuyBelowCapacity(count, max, signer, req);
      assert Posts(o.effects) == [o.effects[1].request];
    } else if TextualSignal(req.data) {
      assert o.effects == [PriceQuery(SymbolOf(req))];
      assert Posts(o.effects) == [];
    } else {
      assert Posts(o.effects) == [];
    }
  }

  /** Starting within bounds, every sequence of signals ends within bounds. */
  lemma {:induction false} RunStaysWithinCapacity(count: int, max: int, signer: Signer, reqs: seq<Request>)
    requires 0 <= count <= max
    ensures 0 <= Run(count, max, signer, reqs) <= max
    decreases |reqs|
  {
    if reqs != [] {
      HandleKeepsBounds(count, max, signer, reqs[0]);
      RunStaysWithinCapacity(Handle(count, max, signer, reqs[0]).count, max, signer, reqs[1..]);
    }
  }

  /** From process start, the counter never leaves the range 0 to 2. */
  lemma FromStartWithinCapacity(signer: Signer, reqs: seq<Request>)
    ensures 0 <= Run(0, 2, signer, reqs) <= 2
  {
    RunStaysWithinCapacity(0, 2, signer, reqs);
  }

  /** The signal of the saturation scenario: an accepted buy of BTCUSDT at 40000. */
  predicate AcceptedBuy(req: Request) {
    && req.data == Some(map[ACTION_KEY := JsonString("buy"), SYMBOL_KEY := JsonString("BTCUSDT")])
    && req.price == Price(40000.0)
    && req.reply == Answered(200, true)
  }

  lemma AcceptedBuyIsTradable(req: Request)
    requires AcceptedBuy(req)
    ensures Tradable(req) && ActionOf(req) == "buy" && Interpret(req.reply) == Accepted
  {
    QuantityAtFortyThousand();
    LowerOfLowerCase("buy");
  }

  /**
   * With a ceiling of two, three accepted buys from a fresh start answer
   * "success", "success" and "Max erreicht", and leave two longs open.
   */
  lemma BuySaturation(signer: Signer, buy: Request)
    requires AcceptedBuy(buy)
    ensures Responses(0, 2, signer, [buy, buy, buy]) == [OPENED, OPENED, MAX_REACHED]
    ensures Run(0, 2, signer, [buy, buy, buy]) == 2
  {
    var o0 := Handle(0, 2, signer, buy);
    var o1 := Handle(1, 2, signer, buy);
    var o2 := Handle(2, 2, signer, buy);
    assert o0.response == OPENED && o0.count == 1 by {
      AcceptedBuyIsTradable(buy);
      BuyBelowCapacity(0, 2, signer, buy);
    }
    assert o1.response == OPENED && o1.count == 2 by {
      AcceptedBuyIsTradable(buy);
      BuyBelowCapacity(1, 2, signer, buy);
    }
    assert o2.response == MAX_REACHED && o2.count == 2 by {
      AcceptedBuyIsTradable(buy);
      BuyAtCapacity(2, 2, signer, buy);
    }
    assert [buy, buy, buy][1..] == [buy, buy];
    assert [buy, buy][1..] == [buy];
    assert Responses(2, 2, signer, [buy]) == [MAX_REACHED];
    assert Responses(1, 2, signer, [buy, buy]) == [OPENED, MAX_REACHED];
    assert Run(2, 2, signer, [buy]) == 2;
    assert Run(1, 2, signer, [buy, buy]) == 2;
  }

  /** The same scenario on the server object itself. */
  method SaturationScenario(signer: Signer) returns (first: Response, second: Response, third: Response, open: int)
    ensures first == OPENED && second == OPENED && third == MAX_REACHED && open == 2
  {
    var server := new Server(signer);
    var data := Some(map[ACTION_KEY := JsonString("buy"), SYMBOL_KEY := JsonString("BTCUSDT")]);
    var accepted := Answered(200, true);
    var buy := Request(data, Price(40000.0), accepted, 0);
    AcceptedBuyIsTradable(buy);
    BuyBelowCapacity(0, 2, signer, buy);
    BuyBelowCapacity(1, 2, signer, buy);
    BuyAtCapacity(2, 2, signer, buy);
    var effects;
    first, effects := server.Webhook(data, Price(40000.0), accepted, 0);
    second, effects := server.Webhook(data, Price(40000.0), accepted, 0);
    third, effects := server.Webhook(data, Price(40000.0), accepted, 0);
    open := server.openPositions;
  }
}
