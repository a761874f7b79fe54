# go-poloniex core, modelled in Dafny

This project models the logic of go-poloniex, a Go client for the Poloniex
exchange. It covers:

- **Loose JSON scalars.** `convertibleBool` and `convertibleUint` each decode
  a value that may be quoted or bare.
- **Authenticated trading requests.** `tradingApiRequest` checks its
  arguments and merges the form. It waits on the rate limiter, takes a key
  from the pool, adds the nonce and the signature, and POSTs. It returns the
  key to the pool, then classifies the response: error object first, then
  empty array, then decode. On top of it sit the endpoint wrappers that build
  parameters and post-process results.
- **Public GET requests.** `publicApiRequest` classifies errors first, and
  `Order.UnmarshalJSON` computes the rounded order total.
- **The key pool and client construction.** The pool is a bounded FIFO
  channel of keys. `NewClient` sets the limiter and fills the pool.
- **The market-event feed.** It checks each frame's `seq`, converts
  order-book and trade messages, and dispatches each frame onto the event and
  error channels.

Modules, one per concern:

| file | module | models |
|---|---|---|
| wrappers.dfy | `Wrappers` | `Option`, `Result` |
| scalars.dfy | `Scalars` | `strings.Trim`, `strings.Replace`, `%d`, `strconv.Atoi`, both scalar decoders |
| decimals.dfy | `Decimals` | decimals as mantissa × 10^exp, `Mul`, `Round` |
| hex.dfy | `Hex` | `hex.EncodeToString` and its inverse |
| pool.dfy | `Pool` | `keyPool` as a class over a `seq` of keys |
| client.dfy | `Client` | `NewKey`, `NewClient` (a constructor with a filling loop), the parameter merge loop |
| public.dfy | `Public` | `Order.UnmarshalJSON`, `publicApiRequest` |
| trading.dfy | `Trading` | `tradingApiRequest` and its endpoint wrappers |
| wamp.dfy | `Wamp` | `parseSequence`, `orderModification`, `newTrade`, the frame handler |

Code outside this model enters as parameters. This covers the HTTP transport,
HMAC-SHA512, `json.Unmarshal`, `mapstructure.Decode`,
`decimal.NewFromString`/`String` and `Order.CalculateTotal` (order.go is not
part of this model). Each is an opaque function value, so every property
below holds whatever those functions do. The limiter's `Wait` result is a
parameter (`None` for nil), and so is the clock's nonce. Blocking on the key
channel becomes a precondition. The two event channels are kept as one log
of outputs, which `Events`/`Errors` split into what each channel receives.

Two behaviours worth knowing, both taken from the code:

- A feed message whose type is neither `newTrade` nor one of the two
  order-book types is not dropped. It reaches `orderModification`, which
  reports an error (wamp.go:89-93, 117-118).
- public_test.go:51 expects the unrounded product as an order's total. The
  code rounds it to 8 places (public.go:56), and the model does too.

## Model

| member | source | states |
|---|---|---|
| Scalars.Trim | convertibleBool.go:13 | the result is the input with a run of quotes removed at each end, and it neither starts nor ends with a quote |
| Scalars.SkipQuotesForward | convertibleBool.go:13 | the index of the first non-quote from a position on: everything skipped is a quote |
| Scalars.SkipQuotesBackward | convertibleBool.go:13 | the index after the last non-quote before a position: everything skipped is a quote |
| Scalars.TrimIdempotent | convertibleBool.go:13 | trimming twice is trimming once |
| Scalars.TrimSurroundingQuotes | convertibleBool.go:13 | any number of quotes around a text with no quote at its ends gives back exactly that text, so inner quotes stay |
| Scalars.UnmarshalBool | convertibleBool.go:11-22 | success iff the trimmed text is "1", "true", "0" or "false"; true iff "1" or "true"; otherwise the receiver is unchanged and the error is "Boolean unmarshal error: invalid input " plus the trimmed text |
| Scalars.BoolQuotedOrBare | convertibleBool.go:13-17 | each literal decodes to the same value bare or inside any quotes, whatever the receiver held |
| Scalars.BoolRejectsOthers | convertibleBool.go:18-19 | any other text, bare or in any quotes, is refused with "Boolean unmarshal error: invalid input " plus that text, and the receiver is unchanged (bool_test.go:19) |
| Scalars.FormatNat | trading.go:125 | `%d` of a natural number is non-empty decimal digits with that value and no leading zero |
| Scalars.Atoi | uint.go:13 | a success is a text of an optional `+` or `-` and one or more digits, and its value is the number they spell, within Go's 64-bit `int`; a failure names its input |
| Scalars.AtoiReadsIntText | uint.go:13 | every optional sign followed by one or more digits parses: to its value when that fits Go's 64-bit `int`, to an error naming the text otherwise |
| Scalars.AtoiSucceedsIff | uint.go:13-16 | `Atoi` succeeds exactly on a signed or unsigned digit run whose value fits 64 bits, so every other text (empty, a lone sign, letters, 2^63) is an error |
| Scalars.AtoiFormatInt | uint.go:13 | `Atoi` reads back every 64-bit integer that `%d` writes |
| Scalars.AtoiRejectsQuote | uint.go:13-16 | no text holding a quote is a number |
| Scalars.RemoveQuotes | uint.go:12 | `strings.Replace(s, "\"", "", n)` deletes exactly min(n, quotes) quotes and keeps every other character in order |
| Scalars.RemoveQuotesFirst | uint.go:12 | the deleted quotes are the FIRST n: a prefix holding n quotes (or all of them) loses its quotes and the rest of the text is kept as it is |
| Scalars.ToUint64 | uint.go:18 | Go's `uint64(i)` on a 64-bit `int`: non-negative values are kept, negative ones wrap to i + 2^64, and the result always fits 64 bits |
| Scalars.UnmarshalUint | uint.go:10-20 | the value fits 64 bits; on error the receiver is unchanged and the error names the text left after removing two quotes |
| Scalars.UintThirdQuoteFails | uint.go:12-16 | with three or more quotes anywhere, decoding fails and the receiver is unchanged |
| Scalars.UintSucceedsIff | uint.go:10-20 | decoding succeeds iff the text left after removing the first two quotes is an optional sign and digits whose value fits Go's 64-bit `int`; the value is then that number as a `uint64` |
| Scalars.UintBare | uint.go:12-18 | a bare number within range decodes to itself (uint_test.go:16) |
| Scalars.UintQuoted | uint.go:12-18 | the same number in quotes decodes to itself (uint_test.go:15) |
| Scalars.UintNegativeWraps | uint.go:18 | `-n` decodes to 2^64 - n: the `int` is converted to `uint64` with wrap-around |
| Scalars.UintRejectsSlashes | uint.go:12-16 | `///` is refused and the receiver is unchanged (uint_test.go:17) |
| Decimals.RoundedQuotient | public.go:56 | the integer nearest m/q: twice its distance is at most q |
| Decimals.Round | public.go:56 | the result has exactly `places` fractional digits and lies within half a unit in its last place of the input; an input with no more digits keeps its value |
| Hex.Encode | trading.go:332 | two lowercase hex digits per byte |
| Hex.DecodeEncode | trading.go:332 | decoding the hex text gives back the bytes |
| Pool.KeyPool.constructor | client.go:42 | an empty pool with the given capacity |
| Pool.KeyPool.Put | pool.go:7-9 | on a pool that is not full, the key joins the back and the size stays within capacity |
| Pool.KeyPool.Get | pool.go:11-13 | on a non-empty pool, the oldest key is returned and the rest keep their order |
| Pool.PutThenGet | pool.go:7-13 | a key put into an empty pool is the next one taken, and the pool is empty again (trading_test.go:459-466) |
| Client.NewKey | client.go:25-31 | the key id and secret are kept unchanged |
| Client.Client.constructor | client.go:39-53 | the pool's capacity is the number of keys and it holds all of them in input order; the limiter is 6 requests per second with burst 1 |
| Client.Overlay | public.go:87-92 | the parameters are "command" plus the caller's keys; caller entries win, and "command" is the method name unless the caller overrides it |
| Client.MergeParams | trading.go:305-313 | the merge loop produces exactly `Overlay` |
| Public.UnmarshalOrder | public.go:47-59 | a failed array decode leaves the order unchanged and returns that error; otherwise rate is element 0, amount element 1, and the total is their product rounded to 8 fractional digits |
| Public.OrderTotalExample | public.go:54-56 | 0.00300888 × 0.03580906 is stored as 0.00010775 |
| Public.PublicErrorsBeforeDecode | public.go:106-114 | a body that fails the error-shape decode, or carries an error, returns that error, and the result is never decoded |
| Public.PublicApiRequest | public.go:82-118 | more than one parameter bag fails with "too much arguments" before the limiter is used; a limiter error means no request; the query is the overlay; a transport error is returned; otherwise the error-first classification applies |
| Trading.SignedRequest | trading.go:325-332 | the Key header is the key id, and the Sign header is lowercase hex that decodes to the HMAC of the encoded form under the key's secret |
| Trading.TradingApiErrorFirst | trading.go:340-344 | a non-null `error` fails with exactly that text, the result is untouched and never decoded |
| Trading.TradingEmptyArraySucceeds | trading.go:346-350 | without an error, an empty array succeeds with the result untouched, whatever the decoder would do |
| Trading.TradingDecodeFailureCarriesBody | trading.go:352-356 | a decode failure's message is the decoder's message, then "\nServer response: ", then the body |
| Trading.TradingIgnoresShapeDecodeError | trading.go:340-341 | unlike the public path, a failing error-shape decode does not change the outcome |
| Trading.SignedForm | trading.go:322-323 | "nonce" is the `%d` of the nonce, overriding any caller value; the keys are "nonce", "command" and the caller's; every other caller entry keeps its value, and "command" is the method name unless the caller sets it |
| Trading.TradingApi | trading.go:300-357 | the pool keeps the same keys; a request is sent iff the guard and the limiter pass; without a request the pool and result are unchanged and the error is "too much arguments" or the limiter's; with one, the first key is taken and put back at the end, the request is signed with it over the nonce-stamped overlay, a transport error leaves the result unchanged, and a delivered body is classified by `ClassifyTrading` (error text first, then the empty array, then the decode with the body appended to its error) |
| Trading.TradingApiRequest | trading.go:300-357 | the method on a client's pool computes exactly `TradingApi` and keeps the pool within capacity |
| Trading.RangeParams | trading.go:281-287 | "start" and "end" are present only when positive, as their `%d`, and nothing else is sent |
| Trading.HistoryParams | trading.go:80-89 | "currencyPair" is always present; "start" and "end" are present only when positive, as their `%d` |
| Trading.WithCurrencyPair | trading.go:93-95 | every trade gets the pair and nothing else changes |
| Trading.StampCurrencyPair | trading.go:93-95 | the stamping loop computes `WithCurrencyPair` |
| Trading.StampMapPairs | trading.go:114-118 | every trade in the map gets the pair it is filed under |
| Trading.StampOrderNumber | trading.go:127-129 | every trade gets the order number and nothing else changes |
| Trading.TradeHistory | trading.go:79-98 | the request is `returnTradeHistory` with `HistoryParams`; every returned trade is stamped with the pair, even after an error |
| Trading.TradeHistoryAll | trading.go:100-121 | the request uses pair "all"; each trade is stamped with its map key |
| Trading.OrderTrades | trading.go:123-132 | the request is `returnOrderTrades`; each returned trade is stamped with the order number |
| Trading.MoveParams | trading.go:222-229 | "amount" is sent only when the amount is greater than zero |
| Trading.MoveOrder | trading.go:216-240 | when `Success` is not true the error is "result is not successful", replacing any request error; otherwise the request error; the embedded order is returned in every case |
| Trading.DepositsWithdrawals | trading.go:280-291 | the request is `returnDepositsWithdrawals` with `RangeParams`; the decoded response, the error and the pool are exactly `TradingApi`'s |
| Trading.NewAddress | trading.go:45-64 | a request error is returned as is; otherwise a false `Success` gives an error naming the currency and the response; the response is returned in every case |
| Trading.CancelOrder | trading.go:206-214 | `Success` and the request error are passed through |
| Trading.OrderParams | trading.go:166-202 | pair, rate and amount are always sent; "fillOrKill" = "1" only for the fill-or-kill variants |
| Trading.Buy | trading.go:166-173 | command "buy", no fill-or-kill |
| Trading.Sell | trading.go:175-182 | command "sell", no fill-or-kill |
| Trading.BuyFOK | trading.go:184-193 | command "buy" with fill-or-kill |
| Trading.SellFOK | trading.go:195-204 | command "sell" with fill-or-kill |
| Wamp.ParseSequence | wamp.go:173-189 | a missing `seq` is `SeqNotFound` with the kwargs; a non-float `seq` is `SeqNotFloat` with its type and rendering; success iff present and a float, yielding its value |
| Wamp.SequenceErrorMessages | wamp.go:176-184 | the two messages for an empty kwargs and for a string `seq` (wamp_test.go:131-140) |
| Wamp.ToOrderModification | wamp.go:116-139 | other types fail with nothing set; side and sequence are set before the rate; a rate failure leaves the order zero; an empty amount leaves amount and total zero; a bad amount keeps the rate; a good amount sets the calculated total |
| Wamp.OrderModificationSucceeds | wamp.go:116-139 | success iff the type is an order-book type, the rate parses, and the amount is empty or parses |
| Wamp.ToNewTrade | wamp.go:141-171 | sequence, pair, side and date are always set; rate, amount, total and id are set in that order up to the first failure, which is the error; the total is the wire's; the id is `Atoi` modulo 2^64; success iff all four parse |
| Wamp.NewTradeNegativeIdWraps | wamp.go:164-168 | a trade id of -1 becomes 2^64 - 1 |
| Wamp.FrameOutputs | wamp.go:64-96 | a bad `seq` gives exactly one error; otherwise one output per argument, in argument order, each decoded with the frame's sequence and pair |
| Wamp.EventsAndErrorsPartition | wamp.go:71-96 | every output goes to exactly one of the two channels |
| Wamp.EventsAppend | wamp.go:85-95 | the event channel's log grows by the events among the new outputs |
| Wamp.ErrorsAppend | wamp.go:67-91 | the error channel's log grows by the errors among the new outputs |
| Wamp.SequenceErrorAlone | wamp.go:64-69 | a bad `seq` sends one error and no event, whatever the arguments |
| Wamp.FrameAccountsForEveryArgument | wamp.go:71-96 | with a good `seq`, events plus errors equal the number of arguments |
| Wamp.UnknownTypeIsError | wamp.go:78-95 | a decoded message of an unknown type becomes an error naming the type, not an event |
| Wamp.EventsCarryFrameSequence | wamp.go:72 | if the structure decoder keeps sequence and pair, every event has the frame's sequence and every trade the subscribed pair |
| Wamp.MarketHandler.constructor | wamp.go:62-63 | a handler for the pair that has sent nothing |
| Wamp.MarketHandler.Handle | wamp.go:63-97 | the handler's loop appends exactly the frame's outputs to what was sent before |
| Wamp.HandleKeepsChannels | wamp.go:67-95 | after a frame, each channel has received what it had before followed by its share of the frame |

## Left out

- HTTP transport, resty and TLS are left out; GET and POST are opaque functions from request to body or error.
- The WAMP connection and subscription (`NewWampClient`, `SubscribeToPair`) are I/O; only the handler's body is modelled.
- The rate limiter's token bucket and clock are left out, and so are `SetTimeout`, `SetTransport` and `SetRequestRateLimit`. `Wait` becomes a parameter holding its result.
- HMAC-SHA512, form encoding, `json.Unmarshal` and `mapstructure.Decode` are opaque library functions.
- The grammar of `decimal.NewFromString` and the text of `Decimal.String` are opaque functions, and so is `Order.CalculateTotal`, whose source is not part of this model.
- `Round` rounds halves away from zero; the library's own tie rule is not visible here.
- The nonce is a parameter, since it comes from the clock; the key's own `nonce` field is never read, so it is not modelled.
- Concurrency is left out: two goroutines sharing the pool, and blocking on a full or empty key channel (a precondition here).
- The float64 to `uint` conversion of `seq` is left out; a float `seq` is modelled as the natural number it holds.
- Wamp.Message: Go's `%v` of the kwargs map and the text of `strconv.Atoi`'s error are parameters, not rendered here.
- Scalars.Atoi: does not distinguish Go's syntax error from its range error; both are one `NumError` naming the input.
- `FeeInfo`, `Balances`, `DepositAddresses`, `OpenOrders`, `OpenOrdersAll`, `Withdraw`, `Ticker`, `OrderBook` and `OrderBookAll` each build a fixed parameter map (or none), make one call of a request function and return the decoded result or one of its fields, so they add nothing that `TradingApi` or `PublicApiRequest` do not already state; they are not modelled separately.
- Go's `int` is taken to be 64 bits wide (the platforms the client targets): `Atoi`'s accepted range and `ToUint64`'s wrap-around both rest on it; a 32-bit build is not modelled.
- Go's pointer aliasing between the caller's key slice and the pool (`&keys[i]`) is not modelled; keys are values.
