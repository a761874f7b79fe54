/** The authenticated request pipeline (trading.go): `tradingApiRequest` and
    the endpoint wrappers that build parameters conditionally or post-process
    the decoded result in place.

    Foreign code is passed in: `Net` bundles the form encoder
    (`url.Values.Encode`), HMAC-SHA512 and the POST; `Json` the three
    `json.Unmarshal` calls; `wait` is what `limiter.Wait` returned and `nonce`
    the clock reading `time.Now().UnixNano()`. */
module Trading {
  import opened Wrappers
  import opened Scalars
  import opened Decimals
  import Hex
  import opened Pool
  import opened Client
  import opened Public

  const ServerResponse: string := "\nServer response: "
  const NotSuccessful: string := "result is not successful"

  /** `Trade` (trading.go:66-77); `id` is a `convertibleUint`. */
  datatype Trade = Trade(
    globalTradeId: nat, id: nat, orderNumber: nat, currencyPair: string, kind: string,
    rate: Decimal, amount: Decimal, total: Decimal, fee: Decimal, date: string)

  const ZeroTrade: Trade := Trade(0, 0, 0, "", "", Zero, Zero, Zero, Zero, "")

  /** What goes on the wire: the form body and the `Key` and `Sign` headers. */
  datatype Request = Request(form: Params, key: string, sign: string)

  /** `hmacSha512(secret, message)` is HMAC (RFC 2104) over SHA-512 (FIPS
      180-4); `post` sends a request and returns the body or the error. */
  datatype Net = Net(
    encode: Params -> string,
    hmacSha512: (string, string) -> seq<Hex.Byte>,
    post: Request -> Result<string, string>)

  /** Everything a call to `tradingApiRequest` determines: the result after
      the call, the error, the request sent (if any) and the pool's keys. */
  datatype Call<R> = Call(result: R, err: Option<string>, sent: Option<Request>, keys: seq<Key>)

  /** trading.go:325-332: the form, the key's id in `Key`, and in `Sign` the
      lowercase hex of the HMAC-SHA512 of the encoded form under the key's
      secret. The header decodes back to exactly that MAC, so equal secrets
      and equal encoded bodies give equal signatures and nothing else does. */
  function SignedRequest(form: Params, key: Key, net: Net): (req: Request)
    ensures req.form == form && req.key == key.id
    ensures Hex.Decode(req.sign) == Some(net.hmacSha512(key.secret, net.encode(form)))
    ensures forall i :: 0 <= i < |req.sign| ==> Hex.IsLowerHex(req.sign[i])
  {
    var mac := net.hmacSha512(key.secret, net.encode(form));
    Hex.DecodeEncode(mac);
    Request(form, key.id, Hex.Encode(mac))
  }

  /** The classification of trading.go:340-356: a non-null `error` fails with
      its text (whether or not that decode itself failed), then an empty JSON
      array succeeds, and only then is the body decoded into the result, a
      decode error getting the body appended. */
  function ClassifyTrading<R>(body: string, result: R, json: Json<R>): (r: Unmarshalled<R, string>)
  {
    var shape := json.errorShape(body);
    if shape.error.Some? then Unmarshalled(result, shape.error)
    else if json.isEmptyArray(body) then Unmarshalled(result, None)
    else
      var d := json.decode(result, body);
      Unmarshalled(d.value, if d.err.Some? then Some(d.err.value + ServerResponse + body) else None)
  }

  /** An error object wins over everything: its text is the error, the result
      is untouched, and neither the empty-array test nor the decoder is used. */
  lemma TradingApiErrorFirst<R>(body: string, result: R, j1: Json<R>, j2: Json<R>)
    requires j1.errorShape(body).error.Some? && j1.errorShape(body) == j2.errorShape(body)
    ensures ClassifyTrading(body, result, j1) == ClassifyTrading(body, result, j2)
    ensures ClassifyTrading(body, result, j1) == Unmarshalled(result, j1.errorShape(body).error)
  {
  }

  /** Without an error object, an empty array is a success that leaves the
      result as it was, whatever the decoder would have done. */
  lemma TradingEmptyArraySucceeds<R>(body: string, result: R, j1: Json<R>, j2: Json<R>)
    requires j1.errorShape(body).error.None? && j1.isEmptyArray(body)
    requires j2.errorShape(body).error.None? && j2.isEmptyArray(body)
    ensures ClassifyTrading(body, result, j1) == ClassifyTrading(body, result, j2) == Unmarshalled(result, None)
  {
  }

  /** A failing final decode reports the decoder's message followed by the
      body, and nothing else fails on this path. */
  lemma TradingDecodeFailureCarriesBody<R>(body: string, result: R, json: Json<R>)
    requires json.errorShape(body).error.None? && !json.isEmptyArray(body)
    ensures var r := ClassifyTrading(body, result, json);
      var d := json.decode(result, body);
      r.value == d.value && (r.err.Some? <==> d.err.Some?) &&
      (r.err.Some? ==> r.err.value[..|d.err.value|] == d.err.value &&
                       r.err.value[|d.err.value|..] == ServerResponse + body)
  {
  }

  /** Unlike the public path, the trading path ignores the error returned by
      the error-shape decode (trading.go:341 against public.go:106-110). */
  lemma TradingIgnoresShapeDecodeError<R>(body: string, result: R, j1: Json<R>, j2: Json<R>)
    requires j1.errorShape(body).error == j2.errorShape(body).error
    requires j1.isEmptyArray(body) == j2.isEmptyArray(body) && j1.decode(result, body) == j2.decode(result, body)
    ensures ClassifyTrading(body, result, j1) == ClassifyTrading(body, result, j2)
  {
  }

  /** The form sent for `command` with `params`: the merged parameters with
      `nonce` written last. */
  function SignedForm(command: string, params: seq<Params>, nonce: int): (form: Params)
    requires |params| <= 1
    ensures forall k :: k in form <==> k == "nonce" || k == "command" || (|params| == 1 && k in params[0])
    ensures form["nonce"] == FormatInt(nonce)
    ensures |params| == 1 ==> forall k :: k in params[0] && k != "nonce" ==> form[k] == params[0][k]
    ensures (|params| == 0 || "command" !in params[0]) ==> form["command"] == command
  {
    Overlay(command, params)["nonce" := FormatInt(nonce)]
  }

  /** Checking the first key out and back in keeps the pool's keys. */
  lemma RotationKeepsKeys(keys: seq<Key>)
    requires keys != []
    ensures multiset(keys[1..] + [keys[0]]) == multiset(keys)
  {
    assert keys == [keys[0]] + keys[1..];
  }

  /** `tradingApiRequest` (trading.go:300-357) as a function of the pool's
      keys before the call and of the outside world's answers. */
  function TradingApi<R>(keys: seq<Key>, result: R, command: string, params: seq<Params>, wait: Option<string>,
                         nonce: int, net: Net, json: Json<R>): (c: Call<R>)
    requires |params| > 1 || wait.Some? || keys != []
    ensures multiset(c.keys) == multiset(keys)
    ensures c.sent.None? <==> |params| > 1 || wait.Some?
    ensures c.sent.None? ==> c.keys == keys && c.result == result
    ensures |params| > 1 ==> c.err == Some(TooMuchArguments)
    ensures |params| <= 1 && wait.Some? ==> c.err == wait
    ensures c.sent.Some? ==>
      c.keys == keys[1..] + [keys[0]] &&
      c.sent.value == SignedRequest(SignedForm(command, params, nonce), keys[0], net)
    ensures c.sent.Some? && net.post(c.sent.value).Err? ==>
      c.result == result && c.err == Some(net.post(c.sent.value).error)
    ensures c.sent.Some? && net.post(c.sent.value).Ok? ==>
      Unmarshalled(c.result, c.err) == ClassifyTrading(net.post(c.sent.value).value, result, json)
  {
    if |params| > 1 then Call(result, Some(TooMuchArguments), None, keys)
    else if wait.Some? then Call(result, wait, None, keys)
    else
      var key := keys[0];
      var request := SignedRequest(SignedForm(command, params, nonce), key, net);
      var keys' := keys[1..] + [key];
      RotationKeepsKeys(keys);
      match net.post(request)
      case Err(e) => Call(result, Some(e), Some(request), keys')
      case Ok(body) =>
        var u := ClassifyTrading(body, result, json);
        Call(u.value, u.err, Some(request), keys')
  }

  /** `tradingApiRequest` on a client: the argument guard, the merge, the
      limiter, key checkout, nonce and signature, the POST, the unconditional
      check-in, then classification. */
  method TradingApiRequest<R>(client: Client, result: R, command: string, params: seq<Params>, wait: Option<string>,
                              nonce: int, net: Net, json: Json<R>)
    returns (res: R, err: Option<string>, sent: Option<Request>)
    requires client.Valid()
    requires |params| > 1 || wait.Some? || client.pool.keys != []
    modifies client.pool
    ensures client.Valid()
    ensures Call(res, err, sent, client.pool.keys) == TradingApi(old(client.pool.keys), result, command, params, wait, nonce, net, json)
  {
    if |params| > 1 {
      return result, Some(TooMuchArguments), None;
    }
    var form := MergeParams(command, params);
    if wait.Some? {
      return result, wait, None;
    }
    var key := client.pool.Get();
    form := form["nonce" := FormatInt(nonce)];
    var request := SignedRequest(form, key, net);
    sent := Some(request);
    var response := net.post(request);
    client.pool.Put(key);
    if response.Err? {
      return result, Some(response.error), sent;
    }
    var c := ClassifyTrading(response.value, result, json);
    res, err := c.value, c.err;
  }

  // ---------------------------------------------------------------------------
  // Endpoint wrappers
  // ---------------------------------------------------------------------------

  /** The time window of `DepositsWithdrawals` (trading.go:281-287): `start`
      and `end`, each only when positive, as its `%d`. */
  function RangeParams(start: int, end: int): (p: Params)
    ensures "start" in p <==> start > 0
    ensures "end" in p <==> end > 0
    ensures start > 0 ==> p["start"] == FormatInt(start)
    ensures end > 0 ==> p["end"] == FormatInt(end)
    ensures forall k :: k in p ==> k == "start" || k == "end"
  {
    var p := map[];
    var p := if start > 0 then p["start" := FormatInt(start)] else p;
    if end > 0 then p["end" := FormatInt(end)] else p
  }

  /** The parameters of `TradeHistory`/`TradeHistoryAll` (trading.go:80-89,
      101-110): the pair, and `start`/`end` only when positive. */
  function HistoryParams(pair: string, start: int, end: int): (p: Params)
    ensures "currencyPair" in p && p["currencyPair"] == pair
    ensures "start" in p <==> start > 0
    ensures "end" in p <==> end > 0
    ensures start > 0 ==> p["start"] == FormatInt(start)
    ensures end > 0 ==> p["end"] == FormatInt(end)
    ensures forall k :: k in p ==> k == "currencyPair" || k == "start" || k == "end"
  {
    RangeParams(start, end)["currencyPair" := pair]
  }

  /** Every trade stamped with `pair`, nothing else changed. */
  function WithCurrencyPair(trades: seq<Trade>, pair: string): (r: seq<Trade>)
    ensures |r| == |trades|
    ensures forall i :: 0 <= i < |r| ==> r[i].currencyPair == pair && r[i].(currencyPair := trades[i].currencyPair) == trades[i]
  {
    seq(|trades|, i requires 0 <= i < |trades| => trades[i].(currencyPair := pair))
  }

  /** Every trade stamped with `orderNumber`, nothing else changed. */
  function WithOrderNumber(trades: seq<Trade>, orderNumber: nat): (r: seq<Trade>)
    ensures |r| == |trades|
    ensures forall i :: 0 <= i < |r| ==> r[i].orderNumber == orderNumber && r[i].(orderNumber := trades[i].orderNumber) == trades[i]
  {
    seq(|trades|, i requires 0 <= i < |trades| => trades[i].(orderNumber := orderNumber))
  }

  /** Every list of trades stamped with the pair it is filed under. */
  function WithMapPairs(trades: map<string, seq<Trade>>): (r: map<string, seq<Trade>>)
    ensures r.Keys == trades.Keys
    ensures forall p :: p in r ==> r[p] == WithCurrencyPair(trades[p], p)
  {
    map p | p in trades :: WithCurrencyPair(trades[p], p)
  }

  /** The stamping loop of trading.go:93-95 and 114-118. */
  method StampCurrencyPair(trades: seq<Trade>, pair: string) returns (stamped: seq<Trade>)
    ensures stamped == WithCurrencyPair(trades, pair)
  {
    stamped := trades;
    var i := 0;
    while i < |stamped|
      invariant 0 <= i <= |stamped| == |trades|
      invariant forall k :: 0 <= k < i ==> stamped[k] == trades[k].(currencyPair := pair)
      invariant forall k :: i <= k < |stamped| ==> stamped[k] == trades[k]
    {
      stamped := stamped[i := stamped[i].(currencyPair := pair)];
      i := i + 1;
    }
  }

  /** The loop of trading.go:114-118 over every pair of the decoded map. */
  method StampMapPairs(decoded: map<string, seq<Trade>>) returns (trades: map<string, seq<Trade>>)
    ensures trades == WithMapPairs(decoded)
  {
    trades := decoded;
    var pending := decoded.Keys;
    while pending != {}
      invariant pending <= decoded.Keys && trades.Keys == decoded.Keys
      invariant forall p :: p in trades && p !in pending ==> trades[p] == WithCurrencyPair(decoded[p], p)
      invariant forall p :: p in pending ==> trades[p] == decoded[p]
      decreases pending
    {
      var pair :| pair in pending;
      var stamped := StampCurrencyPair(trades[pair], pair);
      trades := trades[pair := stamped];
      pending := pending - {pair};
    }
  }

  /** The loop of trading.go:127-129. */
  method StampOrderNumber(decoded: seq<Trade>, orderNumber: nat) returns (trades: seq<Trade>)
    ensures trades == WithOrderNumber(decoded, orderNumber)
  {
    trades := decoded;
    var i := 0;
    while i < |trades|
      invariant 0 <= i <= |trades| == |decoded|
      invariant forall k :: 0 <= k < i ==> trades[k] == decoded[k].(orderNumber := orderNumber)
      invariant forall k :: i <= k < |trades| ==> trades[k] == decoded[k]
    {
      trades := trades[i := trades[i].(orderNumber := orderNumber)];
      i := i + 1;
    }
  }

  /** `TradeHistory` (trading.go:79-98): the decoded trades, each stamped with
      the requested pair, even when the request failed part-way. */
  method TradeHistory(client: Client, pair: string, start: int, end: int, wait: Option<string>, nonce: int,
                      net: Net, json: Json<seq<Trade>>)
    returns (trades: seq<Trade>, err: Option<string>)
    requires client.Valid() && (wait.Some? || client.pool.keys != [])
    modifies client.pool
    ensures client.Valid()
    ensures var c := TradingApi(old(client.pool.keys), [], "returnTradeHistory", [HistoryParams(pair, start, end)], wait, nonce, net, json);
      trades == WithCurrencyPair(c.result, pair) && err == c.err && client.pool.keys == c.keys
  {
    var decoded, sent;
    decoded, err, sent := TradingApiRequest(client, [], "returnTradeHistory", [HistoryParams(pair, start, end)], wait, nonce, net, json);
    trades := StampCurrencyPair(decoded, pair);
  }

  /** `TradeHistoryAll` (trading.go:100-121): every trade stamped with the
      pair it is filed under. */
  method TradeHistoryAll(client: Client, start: int, end: int, wait: Option<string>, nonce: int,
                         net: Net, json: Json<map<string, seq<Trade>>>)
    returns (trades: map<string, seq<Trade>>, err: Option<string>)
    requires client.Valid() && (wait.Some? || client.pool.keys != [])
    modifies client.pool
    ensures client.Valid()
    ensures var c := TradingApi(old(client.pool.keys), map[], "returnTradeHistory", [HistoryParams("all", start, end)], wait, nonce, net, json);
      trades == WithMapPairs(c.result) && err == c.err && client.pool.keys == c.keys
  {
    var decoded, sent;
    decoded, err, sent := TradingApiRequest(client, map[], "returnTradeHistory", [HistoryParams("all", start, end)], wait, nonce, net, json);
    trades := StampMapPairs(decoded);
  }

  /** `OrderTrades` (trading.go:123-132): the decoded trades, each stamped with
      the requested order number. */
  method OrderTrades(client: Client, orderNumber: nat, wait: Option<string>, nonce: int,
                     net: Net, json: Json<seq<Trade>>)
    returns (trades: seq<Trade>, err: Option<string>)
    requires client.Valid() && (wait.Some? || client.pool.keys != [])
    modifies client.pool
    ensures client.Valid()
    ensures var c := TradingApi(old(client.pool.keys), [], "returnOrderTrades", [map["orderNumber" := FormatNat(orderNumber)]], wait, nonce, net, json);
      trades == WithOrderNumber(c.result, orderNumber) && err == c.err && client.pool.keys == c.keys
  {
    var decoded, sent;
    decoded, err, sent := TradingApiRequest(client, [], "returnOrderTrades", [map["orderNumber" := FormatNat(orderNumber)]], wait, nonce, net, json);
    trades := StampOrderNumber(decoded, orderNumber);
  }

  /** `DepositsWithdrawals` (trading.go:280-291): `returnDepositsWithdrawals`
      over the window of `RangeParams`. `R` is the response record, which is
      only decoded, and `empty` its zero value. */
  method DepositsWithdrawals<R>(client: Client, empty: R, start: int, end: int, wait: Option<string>, nonce: int,
                                net: Net, json: Json<R>)
    returns (response: R, err: Option<string>)
    requires client.Valid() && (wait.Some? || client.pool.keys != [])
    modifies client.pool
    ensures client.Valid()
    ensures var c := TradingApi(old(client.pool.keys), empty, "returnDepositsWithdrawals", [RangeParams(start, end)], wait, nonce, net, json);
      response == c.result && err == c.err && client.pool.keys == c.keys
  {
    var sent;
    response, err, sent := TradingApiRequest(client, empty, "returnDepositsWithdrawals", [RangeParams(start, end)], wait, nonce, net, json);
  }

  /** `UpdatedOrder` (trading.go:161-164); `orderNumber` is a `convertibleUint`. */
  datatype UpdatedOrder = UpdatedOrder(orderNumber: nat, resultingTrades: map<string, seq<Trade>>)

  /** The anonymous result of `MoveOrder`: `Success` next to the embedded order. */
  datatype MoveResult = MoveResult(success: bool, updated: UpdatedOrder)

  /** The parameters of `MoveOrder` (trading.go:222-229): `amount` only when
      it is greater than zero. */
  function MoveParams(orderNumber: nat, rate: Decimal, amount: Decimal, lib: DecimalLib): (p: Params)
    ensures "orderNumber" in p && p["orderNumber"] == FormatNat(orderNumber)
    ensures "rate" in p && p["rate"] == lib.format(rate)
    ensures "amount" in p <==> IsPositive(amount)
    ensures IsPositive(amount) ==> p["amount"] == lib.format(amount)
    ensures forall k :: k in p ==> k == "orderNumber" || k == "rate" || k == "amount"
  {
    var p := map["orderNumber" := FormatNat(orderNumber), "rate" := lib.format(rate)];
    if IsPositive(amount) then p["amount" := lib.format(amount)] else p
  }

  /** `MoveOrder` (trading.go:216-240): whenever `Success` did not come back
      true the error is "result is not successful", replacing any error of the
      request itself; the embedded order is returned in every case. */
  method MoveOrder(client: Client, orderNumber: nat, rate: Decimal, amount: Decimal, lib: DecimalLib,
                   wait: Option<string>, nonce: int, net: Net, json: Json<MoveResult>)
    returns (updated: UpdatedOrder, err: Option<string>)
    requires client.Valid() && (wait.Some? || client.pool.keys != [])
    modifies client.pool
    ensures client.Valid()
    ensures var c := TradingApi(old(client.pool.keys), MoveResult(false, UpdatedOrder(0, map[])), "moveOrder",
                                [MoveParams(orderNumber, rate, amount, lib)], wait, nonce, net, json);
      updated == c.result.updated && client.pool.keys == c.keys &&
      err == (if c.result.success then c.err else Some(NotSuccessful))
  {
    var result, sent;
    result, err, sent := TradingApiRequest(client, MoveResult(false, UpdatedOrder(0, map[])), "moveOrder",
                                           [MoveParams(orderNumber, rate, amount, lib)], wait, nonce, net, json);
    if !result.success {
      err := Some(NotSuccessful);
    }
    updated := result.updated;
  }

  /** The anonymous result of `NewAddress`. */
  datatype AddressResult = AddressResult(success: bool, response: string)

  /** The error `NewAddress` makes of an unsuccessful reply (trading.go:60). */
  function NewAddressFailure(currency: string, response: string): string {
    "generateNewAddress for currency " + currency + " success = false, response = " + response
  }

  /** `NewAddress` (trading.go:45-64): a request error is returned as is;
      otherwise a false `Success` is an error naming the currency and the
      response; the response text is returned in every case. */
  method NewAddress(client: Client, currency: string, wait: Option<string>, nonce: int,
                    net: Net, json: Json<AddressResult>)
    returns (address: string, err: Option<string>)
    requires client.Valid() && (wait.Some? || client.pool.keys != [])
    modifies client.pool
    ensures client.Valid()
    ensures var c := TradingApi(old(client.pool.keys), AddressResult(false, ""), "generateNewAddress",
                                [map["currency" := currency]], wait, nonce, net, json);
      address == c.result.response && client.pool.keys == c.keys &&
      err == (if c.err.Some? then c.err
              else if !c.result.success then Some(NewAddressFailure(currency, c.result.response))
              else None)
  {
    var result, sent;
    result, err, sent := TradingApiRequest(client, AddressResult(false, ""), "generateNewAddress",
                                           [map["currency" := currency]], wait, nonce, net, json);
    if err.Some? {
      return result.response, err;
    }
    if !result.success {
      return result.response, Some(NewAddressFailure(currency, result.response));
    }
    address := result.response;
  }

  /** `CancelOrder` (trading.go:206-214): `Success` and the request's error,
      both passed through. */
  method CancelOrder(client: Client, orderNumber: nat, wait: Option<string>, nonce: int,
                     net: Net, json: Json<bool>)
    returns (success: bool, err: Option<string>)
    requires client.Valid() && (wait.Some? || client.pool.keys != [])
    modifies client.pool
    ensures client.Valid()
    ensures var c := TradingApi(old(client.pool.keys), false, "cancelOrder",
                                [map["orderNumber" := FormatNat(orderNumber)]], wait, nonce, net, json);
      success == c.result && err == c.err && client.pool.keys == c.keys
  {
    var sent;
    success, err, sent := TradingApiRequest(client, false, "cancelOrder",
                                            [map["orderNumber" := FormatNat(orderNumber)]], wait, nonce, net, json);
  }

  /** `PlacedOrder` (trading.go:156-159); `orderNumber` is a `convertibleUint`. */
  datatype PlacedOrder = PlacedOrder(orderNumber: nat, resultingTrades: seq<Trade>)

  const NoPlacedOrder: PlacedOrder := PlacedOrder(0, [])

  /** The parameters of `Buy`, `Sell`, `BuyFOK` and `SellFOK`
      (trading.go:167-202): pair, rate and amount, plus `fillOrKill` = "1" for
      the fill-or-kill variants. */
  function OrderParams(pair: string, rate: Decimal, amount: Decimal, lib: DecimalLib, fillOrKill: bool): (p: Params)
    ensures "currencyPair" in p && p["currencyPair"] == pair
    ensures "rate" in p && p["rate"] == lib.format(rate)
    ensures "amount" in p && p["amount"] == lib.format(amount)
    ensures "fillOrKill" in p <==> fillOrKill
    ensures fillOrKill ==> p["fillOrKill"] == "1"
    ensures forall k :: k in p ==> k in {"currencyPair", "rate", "amount", "fillOrKill"}
  {
    var p := map["currencyPair" := pair, "rate" := lib.format(rate), "amount" := lib.format(amount)];
    if fillOrKill then p["fillOrKill" := "1"] else p
  }

  /** `Buy` (trading.go:166-173). */
  method Buy(client: Client, pair: string, rate: Decimal, amount: Decimal, lib: DecimalLib,
             wait: Option<string>, nonce: int, net: Net, json: Json<PlacedOrder>)
    returns (placed: PlacedOrder, err: Option<string>)
    requires client.Valid() && (wait.Some? || client.pool.keys != [])
    modifies client.pool
    ensures client.Valid()
    ensures var c := TradingApi(old(client.pool.keys), NoPlacedOrder, "buy", [OrderParams(pair, rate, amount, lib, false)], wait, nonce, net, json);
      placed == c.result && err == c.err && client.pool.keys == c.keys
  {
    var sent;
    placed, err, sent := TradingApiRequest(client, NoPlacedOrder, "buy", [OrderParams(pair, rate, amount, lib, false)], wait, nonce, net, json);
  }

  /** `Sell` (trading.go:175-182). */
  method Sell(client: Client, pair: string, rate: Decimal, amount: Decimal, lib: DecimalLib,
              wait: Option<string>, nonce: int, net: Net, json: Json<PlacedOrder>)
    returns (placed: PlacedOrder, err: Option<string>)
    requires client.Valid() && (wait.Some? || client.pool.keys != [])
    modifies client.pool
    ensures client.Valid()
    ensures var c := TradingApi(old(client.pool.keys), NoPlacedOrder, "sell", [OrderParams(pair, rate, amount, lib, false)], wait, nonce, net, json);
      placed == c.result && err == c.err && client.pool.keys == c.keys
  {
    var sent;
    placed, err, sent := TradingApiRequest(client, NoPlacedOrder, "sell", [OrderParams(pair, rate, amount, lib, false)], wait, nonce, net, json);
  }

  /** `BuyFOK` (trading.go:184-193): a buy with "Fill or Kill". */
  method BuyFOK(client: Client, pair: string, rate: Decimal, amount: Decimal, lib: DecimalLib,
                wait: Option<string>, nonce: int, net: Net, json: Json<PlacedOrder>)
    returns (placed: PlacedOrder, err: Option<string>)
    requires client.Valid() && (wait.Some? || client.pool.keys != [])
    modifies client.pool
    ensures client.Valid()
    ensures var c := TradingApi(old(client.pool.keys), NoPlacedOrder, "buy", [OrderParams(pair, rate, amount, lib, true)], wait, nonce, net, json);
      placed == c.result && err == c.err && client.pool.keys == c.keys
  {
    var sent;
    placed, err, sent := TradingApiRequest(client, NoPlacedOrder, "buy", [OrderParams(pair, rate, amount, lib, true)], wait, nonce, net, json);
  }

  /** `SellFOK` (trading.go:195-204): a sell with "Fill or Kill". */
  method SellFOK(client: Client, pair: string, rate: Decimal, amount: Decimal, lib: DecimalLib,
                 wait: Option<string>, nonce: int, net: Net, json: Json<PlacedOrder>)
    returns (placed: PlacedOrder, err: Option<string>)
    requires client.Valid() && (wait.Some? || client.pool.keys != [])
    modifies client.pool
    ensures client.Valid()
    ensures var c := TradingApi(old(client.pool.keys), NoPlacedOrder, "sell", [OrderParams(pair, rate, amount, lib, true)], wait, nonce, net, json);
      placed == c.result && err == c.err && client.pool.keys == c.keys
  {
    var sent;
    placed, err, sent := TradingApiRequest(client, NoPlacedOrder, "sell", [OrderParams(pair, rate, amount, lib, true)], wait, nonce, net, json);
  }
}
