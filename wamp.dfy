/** The real-time market-event decoder (wamp.go): the frame-level `seq`
    check, the two payload conversions, and the handler that turns each frame
    into a run of events and errors.

    The two Go channels the handler sends on are kept as one log of outputs,
    in the order they were sent; `Events` and `Errors` project it onto
    `messageChan` and `errChan`. `mapstructure.Decode` is passed in as
    `decode`, `decimal.NewFromString` as `lib.parse` and `Order.CalculateTotal`
    as `calculateTotal`. */
module Wamp {
  import opened Wrappers
  import opened Scalars
  import opened Decimals
  import opened Public
  import opened Trading

  const MessageTypeOrderBookRemove: string := "orderBookRemove"
  const MessageTypeOrderBookModify: string := "orderBookModify"
  const MessageTypeNewTrade: string := "newTrade"

  /** A dynamically typed value from a frame's `kwargs`. Only whether it is a
      `float64` matters; any other value keeps its Go type name (`%T`) and its
      Go-syntax rendering (`%#v`) for the error message. */
  datatype Dynamic = Float64(value: nat) | NonFloat(goType: string, goSyntax: string)

  /** The errors the handler sends on `errChan`. */
  datatype FeedError =
    | SeqNotFound(kwargs: map<string, Dynamic>)
    | SeqNotFloat(goType: string, goSyntax: string)
    | StructureDecode(message: string)
    | NotOrderModification(messageType: string)
    | FieldParse(operation: string, field: string, cause: string)
    | TradeIdParse(numError: NumError)

  /** The text of each error (wamp.go:118, 126, 132, 151, 156, 161, 166,
      178, 183). `showKwargs` is Go's `%v` of a map and `showNumError` the
      text of `strconv.Atoi`'s error. */
  function Message(e: FeedError, showKwargs: map<string, Dynamic> -> string, showNumError: NumError -> string): string {
    match e
    case SeqNotFound(kwargs) => "key 'seq' was not found in kwargs: " + showKwargs(kwargs)
    case SeqNotFloat(goType, goSyntax) => "sequence value (" + goSyntax + ") type is " + goType + ", expected float64"
    case StructureDecode(message) => message
    case NotOrderModification(t) => "can't convert marketMessage with type " + t + " to OrderModification"
    case FieldParse(operation, field, cause) => "marketMessage." + operation + "(), " + field + ": " + cause
    case TradeIdParse(numError) => "marketMessage.newTrade(), id: " + showNumError(numError)
  }

  /** `parseSequence` (wamp.go:173-189): the `seq` entry must be present and
      a `float64`. */
  function ParseSequence(kwargs: map<string, Dynamic>): (r: Result<nat, FeedError>)
    ensures "seq" !in kwargs <==> r == Err(SeqNotFound(kwargs))
    ensures "seq" in kwargs && kwargs["seq"].NonFloat? ==>
      r == Err(SeqNotFloat(kwargs["seq"].goType, kwargs["seq"].goSyntax))
    ensures r.Ok? <==> "seq" in kwargs && kwargs["seq"].Float64?
    ensures r.Ok? ==> r.value == kwargs["seq"].value
  {
    if "seq" !in kwargs then Err(SeqNotFound(kwargs))
    else match kwargs["seq"]
      case Float64(v) => Ok(v)
      case NonFloat(goType, goSyntax) => Err(SeqNotFloat(goType, goSyntax))
  }

  /** The two frame-level messages (wamp_test.go:131-140): a missing `seq`
      shows the whole kwargs, a non-float one its rendering and Go type. */
  lemma SequenceErrorMessages(kwargs: map<string, Dynamic>, showKwargs: map<string, Dynamic> -> string,
                              showNumError: NumError -> string)
    requires ParseSequence(kwargs).Err?
    ensures "seq" !in kwargs ==>
      Message(ParseSequence(kwargs).error, showKwargs, showNumError) == "key 'seq' was not found in kwargs: " + showKwargs(kwargs)
    ensures "seq" in kwargs ==>
      Message(ParseSequence(kwargs).error, showKwargs, showNumError) ==
      "sequence value (" + kwargs["seq"].goSyntax + ") type is " + kwargs["seq"].goType + ", expected float64"
  {
  }

  /** `marketMessageData` (wamp.go:107-114): every field as the wire's text. */
  datatype MarketMessageData = MarketMessageData(
    tradeId: string, kind: string, rate: string, amount: string, total: string, date: string)

  const EmptyData: MarketMessageData := MarketMessageData("", "", "", "", "", "")

  /** `marketMessage` (wamp.go:100-105). */
  datatype MarketMessage = MarketMessage(kind: string, sequence: nat, pair: string, data: MarketMessageData)

  /** `OrderModification` (wamp.go:25-29): `side` is its `Type`, ask or bid. */
  datatype OrderModification = OrderModification(side: string, sequence: nat, order: Order)

  const NoModification: OrderModification := OrderModification("", 0, ZeroOrder)

  /** `NewTrade` (wamp.go:31-34). */
  datatype NewTrade = NewTrade(sequence: nat, trade: Trade)

  /** What a conversion returns: the value built so far and the error, if any. */
  type Converted<T> = Unmarshalled<T, FeedError>

  /** `marketMessage.orderModification` (wamp.go:116-139). Only the two
      order-book types convert. The side and sequence are set first, then the
      rate is parsed; an empty amount (a removal) leaves amount and total at
      zero, any other amount is parsed and the total calculated from it. The
      first failure returns what was set so far. */
  function ToOrderModification(m: MarketMessage, lib: DecimalLib, calculateTotal: (Decimal, Decimal) -> Decimal)
    : (r: Converted<OrderModification>)
    ensures m.kind != MessageTypeOrderBookModify && m.kind != MessageTypeOrderBookRemove ==>
      r == Unmarshalled(NoModification, Some(NotOrderModification(m.kind)))
    ensures m.kind == MessageTypeOrderBookModify || m.kind == MessageTypeOrderBookRemove ==>
      var rate := lib.parse(m.data.rate);
      var amount := lib.parse(m.data.amount);
      r.value.side == m.data.kind && r.value.sequence == m.sequence &&
      (rate.Err? ==> r.value.order == ZeroOrder && r.err == Some(FieldParse("orderModification", "rate", rate.error))) &&
      (rate.Ok? && m.data.amount == "" ==> r.value.order == Order(rate.value, Zero, Zero) && r.err.None?) &&
      (rate.Ok? && m.data.amount != "" && amount.Err? ==>
         r.value.order == Order(rate.value, Zero, Zero) && r.err == Some(FieldParse("orderModification", "amount", amount.error))) &&
      (rate.Ok? && m.data.amount != "" && amount.Ok? ==>
         r.value.order == Order(rate.value, amount.value, calculateTotal(rate.value, amount.value)) && r.err.None?)
  {
    if m.kind != MessageTypeOrderBookModify && m.kind != MessageTypeOrderBookRemove then
      Unmarshalled(NoModification, Some(NotOrderModification(m.kind)))
    else
      var started := OrderModification(m.data.kind, m.sequence, ZeroOrder);
      match lib.parse(m.data.rate)
      case Err(e) => Unmarshalled(started, Some(FieldParse("orderModification", "rate", e)))
      case Ok(rate) =>
        var priced := started.(order := Order(rate, Zero, Zero));
        if m.data.amount == "" then Unmarshalled(priced, None)
        else match lib.parse(m.data.amount)
          case Err(e) => Unmarshalled(priced, Some(FieldParse("orderModification", "amount", e)))
          case Ok(amount) => Unmarshalled(priced.(order := Order(rate, amount, calculateTotal(rate, amount))), None)
  }

  /** An order-book message converts without error exactly when its rate
      parses and its amount is empty or parses. */
  lemma OrderModificationSucceeds(m: MarketMessage, lib: DecimalLib, calculateTotal: (Decimal, Decimal) -> Decimal)
    ensures ToOrderModification(m, lib, calculateTotal).err.None? <==>
      (m.kind == MessageTypeOrderBookModify || m.kind == MessageTypeOrderBookRemove) &&
      lib.parse(m.data.rate).Ok? && (m.data.amount == "" || lib.parse(m.data.amount).Ok?)
  {
  }

  /** `marketMessage.newTrade` (wamp.go:141-171). Sequence, date, side and the
      subscribed pair are set first; rate, amount, total and trade id are then
      parsed in that order, and the first failure returns the fields parsed
      before it with zero for the rest. The total is the wire's, not a
      product, and the id is `strconv.Atoi`'s `int` converted to `uint64`. */
  function ToNewTrade(m: MarketMessage, lib: DecimalLib): (r: Converted<NewTrade>)
    ensures r.value.sequence == m.sequence
    ensures var t := r.value.trade;
      t.currencyPair == m.pair && t.kind == m.data.kind && t.date == m.data.date &&
      t.globalTradeId == 0 && t.orderNumber == 0 && t.fee == Zero
    ensures var rate, amount, total, id := lib.parse(m.data.rate), lib.parse(m.data.amount),
                                           lib.parse(m.data.total), Atoi(m.data.tradeId);
      r.value.trade.rate == (if rate.Ok? then rate.value else Zero) &&
      r.value.trade.amount == (if rate.Ok? && amount.Ok? then amount.value else Zero) &&
      r.value.trade.total == (if rate.Ok? && amount.Ok? && total.Ok? then total.value else Zero) &&
      r.value.trade.id == (if rate.Ok? && amount.Ok? && total.Ok? && id.Ok? then ToUint64(id.value) else 0) &&
      (rate.Err? ==> r.err == Some(FieldParse("newTrade", "rate", rate.error))) &&
      (rate.Ok? && amount.Err? ==> r.err == Some(FieldParse("newTrade", "amount", amount.error))) &&
      (rate.Ok? && amount.Ok? && total.Err? ==> r.err == Some(FieldParse("newTrade", "total", total.error))) &&
      (rate.Ok? && amount.Ok? && total.Ok? && id.Err? ==> r.err == Some(TradeIdParse(id.error))) &&
      (r.err.None? <==> rate.Ok? && amount.Ok? && total.Ok? && id.Ok?)
  {
    var t0 := ZeroTrade.(date := m.data.date, kind := m.data.kind, currencyPair := m.pair);
    match lib.parse(m.data.rate)
    case Err(e) => Unmarshalled(NewTrade(m.sequence, t0), Some(FieldParse("newTrade", "rate", e)))
    case Ok(rate) =>
      var t1 := t0.(rate := rate);
      match lib.parse(m.data.amount)
      case Err(e) => Unmarshalled(NewTrade(m.sequence, t1), Some(FieldParse("newTrade", "amount", e)))
      case Ok(amount) =>
        var t2 := t1.(amount := amount);
        match lib.parse(m.data.total)
        case Err(e) => Unmarshalled(NewTrade(m.sequence, t2), Some(FieldParse("newTrade", "total", e)))
        case Ok(total) =>
          var t3 := t2.(total := total);
          match Atoi(m.data.tradeId)
          case Err(e) => Unmarshalled(NewTrade(m.sequence, t3), Some(TradeIdParse(e)))
          case Ok(id) => Unmarshalled(NewTrade(m.sequence, t3.(id := ToUint64(id))), None)
  }

  /** A trade id of `-1` on the wire becomes the largest `uint64`. */
  lemma NewTradeNegativeIdWraps(m: MarketMessage, lib: DecimalLib)
    requires lib.parse(m.data.rate).Ok? && lib.parse(m.data.amount).Ok? && lib.parse(m.data.total).Ok?
    requires m.data.tradeId == "-1"
    ensures ToNewTrade(m, lib) == Unmarshalled(ToNewTrade(m, lib).value, None)
    ensures ToNewTrade(m, lib).value.trade.id == Two64 - 1
  {
    assert FormatInt(-1) == "-1";
    AtoiFormatInt(-1);
  }

  /** An event the handler sends on `messageChan`. */
  datatype Event = Modification(modification: OrderModification) | Traded(newTrade: NewTrade)

  /** One send of the handler, on either channel. */
  datatype Output = EventOut(event: Event) | ErrorOut(error: FeedError)

  /** The message each item is decoded over: the frame's sequence and the
      subscribed pair, everything else zero (wamp.go:72). */
  function Blank(sequence: nat, pair: string): MarketMessage {
    MarketMessage("", sequence, pair, EmptyData)
  }

  /** The one output an argument produces (wamp.go:72-95): a structure-decode
      error, or the `newTrade` conversion for that type, or the
      order-modification conversion for every other type. */
  function ItemOutput<A>(sequence: nat, pair: string, arg: A, decode: (MarketMessage, A) -> Result<MarketMessage, string>,
                         lib: DecimalLib, calculateTotal: (Decimal, Decimal) -> Decimal): Output
  {
    match decode(Blank(sequence, pair), arg)
    case Err(e) => ErrorOut(StructureDecode(e))
    case Ok(m) =>
      if m.kind == MessageTypeNewTrade then
        var c := ToNewTrade(m, lib);
        if c.err.Some? then ErrorOut(c.err.value) else EventOut(Traded(c.value))
      else
        var c := ToOrderModification(m, lib, calculateTotal);
        if c.err.Some? then ErrorOut(c.err.value) else EventOut(Modification(c.value))
  }

  /** Every output of one frame: a single error when `seq` is bad, otherwise
      one output per argument, in argument order. */
  function FrameOutputs<A>(pair: string, args: seq<A>, kwargs: map<string, Dynamic>,
                           decode: (MarketMessage, A) -> Result<MarketMessage, string>,
                           lib: DecimalLib, calculateTotal: (Decimal, Decimal) -> Decimal): (r: seq<Output>)
    ensures ParseSequence(kwargs).Err? ==> r == [ErrorOut(ParseSequence(kwargs).error)]
    ensures ParseSequence(kwargs).Ok? ==>
      |r| == |args| &&
      forall i :: 0 <= i < |args| ==> r[i] == ItemOutput(ParseSequence(kwargs).value, pair, args[i], decode, lib, calculateTotal)
  {
    match ParseSequence(kwargs)
    case Err(e) => [ErrorOut(e)]
    case Ok(sequence) =>
      seq(|args|, i requires 0 <= i < |args| => ItemOutput(sequence, pair, args[i], decode, lib, calculateTotal))
  }

  /** What `messageChan` receives of a run of outputs. */
  function Events(outs: seq<Output>): seq<Event> {
    if outs == [] then []
    else (if outs[0].EventOut? then [outs[0].event] else []) + Events(outs[1..])
  }

  /** What `errChan` receives of a run of outputs. */
  function Errors(outs: seq<Output>): seq<FeedError> {
    if outs == [] then []
    else (if outs[0].ErrorOut? then [outs[0].error] else []) + Errors(outs[1..])
  }

  /** Every output goes to exactly one of the two channels. */
  lemma {:induction false} EventsAndErrorsPartition(outs: seq<Output>)
    ensures |Events(outs)| + |Errors(outs)| == |outs|
  {
    if outs != [] {
      EventsAndErrorsPartition(outs[1..]);
    }
  }

  /** `messageChan` of a run that is extended receives what it received
      before, then its share of the extension. */
  lemma {:induction false} EventsAppend(a: seq<Output>, b: seq<Output>)
    ensures Events(a + b) == Events(a) + Events(b)
  {
    if a == [] {
      assert a + b == b;
    } else {
      assert (a + b)[0] == a[0] && (a + b)[1..] == a[1..] + b;
      EventsAppend(a[1..], b);
    }
  }

  /** Likewise for `errChan`. */
  lemma {:induction false} ErrorsAppend(a: seq<Output>, b: seq<Output>)
    ensures Errors(a + b) == Errors(a) + Errors(b)
  {
    if a == [] {
      assert a + b == b;
    } else {
      assert (a + b)[0] == a[0] && (a + b)[1..] == a[1..] + b;
      ErrorsAppend(a[1..], b);
    }
  }

  /** A bad `seq` sends exactly one error and no event, whatever the
      arguments (wamp.go:64-69). */
  lemma SequenceErrorAlone<A>(pair: string, args: seq<A>, kwargs: map<string, Dynamic>,
                              decode: (MarketMessage, A) -> Result<MarketMessage, string>,
                              lib: DecimalLib, calculateTotal: (Decimal, Decimal) -> Decimal)
    requires ParseSequence(kwargs).Err?
    ensures Events(FrameOutputs(pair, args, kwargs, decode, lib, calculateTotal)) == []
    ensures Errors(FrameOutputs(pair, args, kwargs, decode, lib, calculateTotal)) == [ParseSequence(kwargs).error]
  {
    var outs := FrameOutputs(pair, args, kwargs, decode, lib, calculateTotal);
    assert outs[1..] == [];
  }

  /** With a good `seq`, the events and errors of a frame add up to its
      arguments: no argument is dropped or doubled. */
  lemma FrameAccountsForEveryArgument<A>(pair: string, args: seq<A>, kwargs: map<string, Dynamic>,
                                         decode: (MarketMessage, A) -> Result<MarketMessage, string>,
                                         lib: DecimalLib, calculateTotal: (Decimal, Decimal) -> Decimal)
    requires ParseSequence(kwargs).Ok?
    ensures var outs := FrameOutputs(pair, args, kwargs, decode, lib, calculateTotal);
      |Events(outs)| + |Errors(outs)| == |args|
  {
    EventsAndErrorsPartition(FrameOutputs(pair, args, kwargs, decode, lib, calculateTotal));
  }

  /** A decoded message of any type other than the three known ones is sent
      as an error, never dropped and never an event (wamp.go:89-93, 117-118). */
  lemma UnknownTypeIsError<A>(sequence: nat, pair: string, arg: A, decode: (MarketMessage, A) -> Result<MarketMessage, string>,
                              lib: DecimalLib, calculateTotal: (Decimal, Decimal) -> Decimal)
    requires decode(Blank(sequence, pair), arg).Ok?
    requires var t := decode(Blank(sequence, pair), arg).value.kind;
      t != MessageTypeNewTrade && t != MessageTypeOrderBookModify && t != MessageTypeOrderBookRemove
    ensures ItemOutput(sequence, pair, arg, decode, lib, calculateTotal)
         == ErrorOut(NotOrderModification(decode(Blank(sequence, pair), arg).value.kind))
  {
  }

  /** When the structure decoder keeps the sequence and pair it is given,
      every event of a frame carries the frame's sequence, and every trade
      the subscribed pair (wamp.go:72, 142-146, 122). */
  lemma EventsCarryFrameSequence<A>(pair: string, args: seq<A>, kwargs: map<string, Dynamic>,
                                    decode: (MarketMessage, A) -> Result<MarketMessage, string>,
                                    lib: DecimalLib, calculateTotal: (Decimal, Decimal) -> Decimal)
    requires ParseSequence(kwargs).Ok?
    requires forall m: MarketMessage, a: A :: decode(m, a).Ok? ==>
      decode(m, a).value.sequence == m.sequence && decode(m, a).value.pair == m.pair
    ensures var outs := FrameOutputs(pair, args, kwargs, decode, lib, calculateTotal);
      forall i :: 0 <= i < |outs| && outs[i].EventOut? ==>
        match outs[i].event
        case Modification(om) => om.sequence == ParseSequence(kwargs).value
        case Traded(nt) => nt.sequence == ParseSequence(kwargs).value && nt.trade.currencyPair == pair
  {
    var sequence := ParseSequence(kwargs).value;
    var outs := FrameOutputs(pair, args, kwargs, decode, lib, calculateTotal);
    forall i | 0 <= i < |outs| && outs[i].EventOut?
      ensures match outs[i].event
        case Modification(om) => om.sequence == sequence
        case Traded(nt) => nt.sequence == sequence && nt.trade.currencyPair == pair
    {
      var m := decode(Blank(sequence, pair), args[i]).value;
      assert m.sequence == sequence && m.pair == pair;
    }
  }

  /** The closure `marketMessageHandler` returns (wamp.go:62-98), subscribed
      to one pair; `outputs` is everything it has sent, oldest first. */
  class MarketHandler {
    const pair: string
    var outputs: seq<Output>

    /** `marketMessageHandler(messageChan, errChan, pair)`: nothing sent yet. */
    constructor (pair: string)
      ensures this.pair == pair && outputs == []
    {
      this.pair := pair;
      outputs := [];
    }

    /** What `messageChan` has received. */
    function SentEvents(): seq<Event>
      reads this
    {
      Events(outputs)
    }

    /** What `errChan` has received. */
    function SentErrors(): seq<FeedError>
      reads this
    {
      Errors(outputs)
    }

    /** Handles one frame: checks `seq`, then decodes and converts each
      argument in order, sending one event or one error for each. */
    method Handle<A>(args: seq<A>, kwargs: map<string, Dynamic>, decode: (MarketMessage, A) -> Result<MarketMessage, string>,
                     lib: DecimalLib, calculateTotal: (Decimal, Decimal) -> Decimal)
      modifies this
      ensures outputs == old(outputs) + FrameOutputs(pair, args, kwargs, decode, lib, calculateTotal)
    {
      var parsed := ParseSequence(kwargs);
      if parsed.Err? {
        outputs := outputs + [ErrorOut(parsed.error)];
        return;
      }
      var sequence := parsed.value;
      ghost var frame := FrameOutputs(pair, args, kwargs, decode, lib, calculateTotal);
      ghost var before := outputs;
      var i := 0;
      while i < |args|
        invariant 0 <= i <= |args|
        invariant outputs == before + frame[..i]
      {
        var out: Output;
        match decode(Blank(sequence, pair), args[i]) {
          case Err(e) =>
            out := ErrorOut(StructureDecode(e));
          case Ok(message) =>
            if message.kind == MessageTypeNewTrade {
              var converted := ToNewTrade(message, lib);
              out := if converted.err.Some? then ErrorOut(converted.err.value) else EventOut(Traded(converted.value));
            } else {
              var converted := ToOrderModification(message, lib, calculateTotal);
              out := if converted.err.Some? then ErrorOut(converted.err.value) else EventOut(Modification(converted.value));
            }
        }
        assert out == frame[i];
        outputs := outputs + [out];
        assert frame[..i + 1] == frame[..i] + [frame[i]];
        i := i + 1;
      }
      assert frame[..|args|] == frame;
    }
  }

  /** Each channel receives, frame after frame, its share of every frame. */
  method HandleKeepsChannels<A>(handler: MarketHandler, args: seq<A>, kwargs: map<string, Dynamic>,
                                decode: (MarketMessage, A) -> Result<MarketMessage, string>,
                                lib: DecimalLib, calculateTotal: (Decimal, Decimal) -> Decimal)
    modifies handler
    ensures var frame := FrameOutputs(handler.pair, args, kwargs, decode, lib, calculateTotal);
      handler.SentEvents() == old(handler.SentEvents()) + Events(frame) &&
      handler.SentErrors() == old(handler.SentErrors()) + Errors(frame)
  {
    handler.Handle(args, kwargs, decode, lib, calculateTotal);
    EventsAppend(old(handler.outputs), FrameOutputs(handler.pair, args, kwargs, decode, lib, calculateTotal));
    ErrorsAppend(old(handler.outputs), FrameOutputs(handler.pair, args, kwargs, decode, lib, calculateTotal));
  }
}
