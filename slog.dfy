/** The `log/slog` values the handler consumes: levels, times, caller
    positions, the closed set of value kinds, attributes, records, and the
    resolution of lazily computed (`LogValuer`) values. */
module Slog {
  import opened Text

  /** `slog.Level` is an integer; these are its four named values. */
  type Level = int
  const LevelDebug: Level := -4
  const LevelInfo: Level := 0
  const LevelWarn: Level := 4
  const LevelError: Level := 8

  /** The reserved keys of the built-in attributes. */
  const TimeKey: Text := "time"
  const LevelKey: Text := "level"
  const SourceKey: Text := "source"
  const MessageKey: Text := "msg"

  /** An instant, as nanoseconds after Go's zero time (January 1, year 1,
      UTC); the zero instant is the one `Time.IsZero` reports. */
  datatype Time = Time(nanos: int) {
    predicate IsZero() { nanos == 0 }
  }

  /** A caller position (`slog.Source`): function name, file path, line. */
  datatype Source = Source(fn: Text, file: Text, line: int)

  /** The Go values a `KindAny` value can hold that the handler tells apart. */
  datatype Any =
    | Nil                                  // the nil interface
    | LevelAny(level: Level)               // a slog.Level
    | SourceAny(source: Source)            // a *slog.Source
    | ErrorAny(message: Text)              // any error; `message` is err.Error()
    | MarshalerAny(marshaled: Option<Text>) // an encoding.TextMarshaler; None when MarshalText fails
    | BytesAny(bytes: Text)                // a []byte
    | OtherAny(text: Text)                 // anything else; `text` is its fmt "%s" form

  /** `slog.Value`, by kind. A `LogValuerValue` holds the name of its Go type
      (as fmt's `%T` prints it) and what its `LogValue` method returns (a
      panicking LogValue returns an error value). */
  datatype Value =
    | StringValue(str: Text)
    | Int64Value(i: int)
    | Uint64Value(u: nat)
    | Float64Value(bits: nat)
    | BoolValue(b: bool)
    | DurationValue(nanos: int)
    | TimeValue(t: Time)
    | GroupValue(attrs: seq<Attr>)
    | LogValuerValue(typeName: Text, logValue: Value)
    | AnyValue(any: Any)

  datatype Attr = Attr(key: Text, value: Value)

  /** `slog.Any("", nil)`, equal to the zero `slog.Attr{}`. */
  const EmptyAttr: Attr := Attr([], AnyValue(Nil))

  /** `attr.Equal(slog.Any("", nil))`: the empty key and a nil value. */
  predicate IsEmptyAttr(a: Attr)
  {
    a.key == [] && a.value.AnyValue? && a.value.any.Nil?
  }

  /** A record as `Handle` receives it. `caller` is the frame that
      `runtime.CallersFrames` yields for the record's program counter. */
  datatype Record = Record(time: Time, level: Level, message: Text, caller: Source, attrs: seq<Attr>)

  /** Resolution gives up after this many `LogValue` calls. */
  const MaxLogValues: nat := 100

  const TooManyLogValues: Text := "LogValue called too many times" + " on Value of type "

  /** The error a too long `LogValue` chain resolves to; `typeName` is the
      type of the value `Resolve` started from. */
  function TooMany(typeName: Text): (r: Value)
    ensures r.AnyValue? && r.any.ErrorAny? && TooManyLogValues <= r.any.message
  {
    AnyValue(ErrorAny(TooManyLogValues + typeName))
  }

  predicate IsResolved(v: Value) { !v.LogValuerValue? }

  /** The loop of `Value.Resolve` with `budget` iterations left, started
      from a value of type `origin`. */
  function ResolveWithin(v: Value, budget: nat, origin: Text): (r: Value)
    ensures IsResolved(r)
    ensures IsResolved(v) && budget > 0 ==> r == v
  {
    if budget == 0 then TooMany(origin)
    else if !v.LogValuerValue? then v
    else ResolveWithin(v.logValue, budget - 1, origin)
  }

  /** `Value.Resolve`: calls `LogValue` until the value is not a LogValuer,
      at most `MaxLogValues` times. */
  function Resolve(v: Value): (r: Value)
    ensures IsResolved(r)
  {
    ResolveWithin(v, MaxLogValues, if v.LogValuerValue? then v.typeName else [])
  }

  /** Resolving twice is resolving once; a resolved value stays as it is. */
  lemma ResolveIdempotent(v: Value)
    ensures Resolve(Resolve(v)) == Resolve(v)
    ensures IsResolved(v) ==> Resolve(v) == v
  {
  }

  /** A chain of `k` LogValuers of type `t` around `v`. */
  function Lazy(k: nat, t: Text, v: Value): Value
  {
    if k == 0 then v else LogValuerValue(t, Lazy(k - 1, t, v))
  }

  /** Fewer `LogValue` calls than the budget resolve to the innermost value;
      a chain as long as the budget or longer resolves to the error naming
      the type resolution started from. */
  lemma {:induction false} ResolveChain(k: nat, t: Text, v: Value, budget: nat, origin: Text)
    requires IsResolved(v)
    ensures k < budget ==> ResolveWithin(Lazy(k, t, v), budget, origin) == v
    ensures k >= budget ==> ResolveWithin(Lazy(k, t, v), budget, origin) == TooMany(origin)
  {
    if k > 0 && budget > 0 {
      ResolveChain(k - 1, t, v, budget - 1, origin);
    }
  }

  /** Up to 99 `LogValue` calls resolve to the innermost value; a chain of
      `MaxLogValues` or more LogValuers of type `t` resolves to the error
      naming `t`. */
  lemma ResolveLazy(k: nat, t: Text, v: Value)
    requires IsResolved(v)
    ensures k < MaxLogValues ==> Resolve(Lazy(k, t, v)) == v
    ensures k >= MaxLogValues ==> Resolve(Lazy(k, t, v)) == TooMany(t)
  {
    ResolveChain(k, t, v, MaxLogValues, if k > 0 then t else []);
  }
}
