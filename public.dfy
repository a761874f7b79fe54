/** The unauthenticated path (public.go): decoding one order-book level and
    the GET request with its error-first response classification. */
module Public {
  import opened Wrappers
  import opened Decimals
  import opened Scalars
  import opened Client

  /** `digitsAfterPoint` (public.go:16). */
  const DigitsAfterPoint: nat := 8

  const TooMuchArguments: string := "too much arguments"

  /** One order-book level (public.go:41-45). */
  datatype Order = Order(rate: Decimal, amount: Decimal, total: Decimal)

  const ZeroOrder: Order := Order(Zero, Zero, Zero)

  /** `json.Unmarshal` of the body into `errorResponse` (trading.go:294-296):
      the `Error` field it leaves (None = nil) and the error it returns. */
  datatype ErrorShape = ErrorShape(error: Option<string>, err: Option<string>)

  /** The three uses of `json.Unmarshal` on a response body, as opaque library
      functions: into `errorResponse`, into `emptyArrayResponse` (true when that
      succeeds with an empty array), and into the caller's result, which it
      may have written even when it fails. */
  datatype Json<!R> = Json(
    errorShape: string -> ErrorShape,
    isEmptyArray: string -> bool,
    decode: (R, string) -> Unmarshalled<R, string>)

  /** `Order.UnmarshalJSON` (public.go:47-59). `decodePair` is `json.Unmarshal`
      into `[2]decimal.Decimal`; its elements 0 and 1 (`orderRateIndex`,
      `orderAmountIndex`) are the pair's two components. */
  function UnmarshalOrder(order: Order, data: string, decodePair: string -> Result<(Decimal, Decimal), string>): (r: Unmarshalled<Order, string>)
    ensures decodePair(data).Err? ==> r == Unmarshalled(order, Some(decodePair(data).error))
    ensures decodePair(data).Ok? ==>
      var pair := decodePair(data).value;
      r.err.None? && r.value.rate == pair.0 && r.value.amount == pair.1 &&
      RoundedTo(r.value.total, Mul(pair.0, pair.1), DigitsAfterPoint)
  {
    match decodePair(data)
    case Err(e) => Unmarshalled(order, Some(e))
    case Ok(pair) =>
      var rate := pair.0;
      var amount := pair.1;
      Unmarshalled(Order(rate, amount, Round(Mul(rate, amount), DigitsAfterPoint)), None)
  }

  /** public_test.go:45-51 with the code's rounding: 0.00300888 x 0.03580906 =
      0.0001077451644528, stored as 0.00010775. */
  lemma OrderTotalExample(data: string, decodePair: string -> Result<(Decimal, Decimal), string>)
    requires decodePair(data) == Ok((Decimal(300888, -8), Decimal(3580906, -8)))
    ensures UnmarshalOrder(ZeroOrder, data, decodePair).value.total == Decimal(10775, -8)
  {
    assert Pow10(8) == 100000000;
  }

  /** The response classification of public.go:106-117: a body that does not
      decode as the error shape fails with that decode error, then a non-null
      `error` fails with its text, and only then is the result decoded. */
  function ClassifyPublic<R>(body: string, result: R, json: Json<R>): (r: Unmarshalled<R, string>)
  {
    var shape := json.errorShape(body);
    if shape.err.Some? then Unmarshalled(result, shape.err)
    else if shape.error.Some? then Unmarshalled(result, shape.error)
    else json.decode(result, body)
  }

  /** When the body is not the error shape, or carries an error, the result is
      never decoded: any two decoders give the same outcome, the result is
      untouched, and the error is the shape's decode error, else its text. */
  lemma PublicErrorsBeforeDecode<R>(body: string, result: R, j1: Json<R>, j2: Json<R>)
    requires j1.errorShape(body) == j2.errorShape(body)
    requires j1.errorShape(body).err.Some? || j1.errorShape(body).error.Some?
    ensures ClassifyPublic(body, result, j1) == ClassifyPublic(body, result, j2)
    ensures ClassifyPublic(body, result, j1).value == result
    ensures ClassifyPublic(body, result, j1).err ==
      if j1.errorShape(body).err.Some? then j1.errorShape(body).err else j1.errorShape(body).error
  {
  }

  /** `publicApiRequest` (public.go:82-118). `wait` is what `limiter.Wait`
      returned (None = nil) and `get` the transport's GET, from query
      parameters to a body or an error. `query` is what was sent, if anything. */
  method PublicApiRequest<R>(result: R, command: string, params: seq<Params>, wait: Option<string>,
                             get: Params -> Result<string, string>, json: Json<R>)
    returns (res: R, err: Option<string>, query: Option<Params>)
    ensures |params| > 1 ==> res == result && err == Some(TooMuchArguments) && query.None?
    ensures |params| <= 1 && wait.Some? ==> res == result && err == wait && query.None?
    ensures query.Some? <==> |params| <= 1 && wait.None?
    ensures query.Some? ==> query.value == Overlay(command, params)
    ensures query.Some? && get(query.value).Err? ==> res == result && err == Some(get(query.value).error)
    ensures query.Some? && get(query.value).Ok? ==>
      Unmarshalled(res, err) == ClassifyPublic(get(query.value).value, result, json)
  {
    if |params| > 1 {
      return result, Some(TooMuchArguments), None;
    }
    var merged := MergeParams(command, params);
    if wait.Some? {
      return result, wait, None;
    }
    query := Some(merged);
    match get(merged)
    case Err(e) =>
      res, err := result, Some(e);
    case Ok(body) =>
      var c := ClassifyPublic(body, result, json);
      res, err := c.value, c.err;
  }
}
