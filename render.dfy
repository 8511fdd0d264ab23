/** What the handler of handler.go appends, as functions: the text each
    `append*` method adds to the buffer, the attribute walker `appendAttr`,
    the whole line `Handle` prints, and the arguments the rewrite hook
    (`ReplaceAttr`) receives. The class in module Cli is proved to append
    exactly this text. */
module Render {
  import opened Text
  import opened Decimal
  import opened Quoting
  import opened Slog

  /** The ANSI sequences the handler uses. */
  const Reset: Text := "\U{1B}[0m"
  const Faint: Text := "\U{1B}[2m"
  const FgRed: Text := "\U{1B}[31m"
  const FgYellow: Text := "\U{1B}[33m"
  const FgBlue: Text := "\U{1B}[34m"

  /** The standard-library formatting the handler calls but does not
      define. */
  datatype Foreign = Foreign(
    formatTime: (Time, Text) -> Text,  // Time.Format(layout)
    timeString: Time -> Text,          // Time.String()
    durationString: int -> Text,       // Duration.String()
    floatString: nat -> Text,          // strconv.AppendFloat(f, 'g', -1, 64) of the IEEE bits
    levelString: Level -> Text,        // Level.String()
    sprint: Value -> Text)             // fmt's default form, used by Value.String() for groups and KindAny

  /** `ReplaceAttr`: open group names and an attribute to its replacement. */
  type Hook = (seq<Text>, Attr) -> Attr

  /** The configuration fields of a handler. */
  datatype Config = Config(
    addSource: bool,
    level: Level,
    replaceAttr: Option<Hook>,
    timeFormat: Text,
    noColor: bool,
    foreign: Foreign)

  /** The accreted fields of a handler. */
  datatype Prefixes = Prefixes(attrsPrefix: Text, groupPrefix: Text, groups: seq<Text>)

  /** Why rendering panicked. `StackExhausted` stands for a nesting of groups
      (possibly produced by the hook) deeper than `MaxDepth`. */
  datatype PanicReason = NilValue | NotTime | NotLevel | NotSource | StackExhausted

  datatype Outcome<T> = Done(value: T) | Panic(reason: PanicReason)

  /** Nesting depth at which the model stops the recursion of `appendAttr`. */
  const MaxDepth: nat := 10000

  /** Sequential composition of two appends: the second does not run when
      the first panics. */
  function Then(a: Outcome<Text>, b: Outcome<Text>): (r: Outcome<Text>)
    ensures r.Done? <==> a.Done? && b.Done?
    ensures r.Done? ==> r.value == a.value + b.value
    ensures a.Panic? ==> r == a
  {
    if a.Panic? then a else if b.Panic? then b else Done(a.value + b.value)
  }

  /** `Enabled`. */
  predicate Enabled(c: Config, l: Level)
  {
    l >= c.level
  }

  /** `appendANSI`. */
  function Ansi(noColor: bool, color: Text): Text
  {
    if noColor then [] else color
  }

  /** The level tokens of `appendLevel`, all five characters wide. */
  const DebugToken: Text := "DEBUG"
  const InfoToken: Text := " INFO"
  const WarnToken: Text := " WARN"
  const ErrorToken: Text := "ERROR"

  /** `appendLevel`. */
  function LevelText(c: Config, l: Level): Text
  {
    if l == LevelDebug then Coloured(c.noColor, FgBlue, DebugToken)
    else if l == LevelInfo then InfoToken
    else if l == LevelWarn then Coloured(c.noColor, FgYellow, WarnToken)
    else if l == LevelError then Coloured(c.noColor, FgRed, ErrorToken)
    else c.foreign.levelString(l)
  }

  /** A coloured level token between its colour and the reset. */
  function Coloured(noColor: bool, color: Text, token: Text): Text
  {
    Ansi(noColor, color) + token + Ansi(noColor, Reset)
  }

  // ---- file paths (Unix `path/filepath`) ----

  /** Index just after the last '/' of `s`, or 0. */
  function AfterLastSlash(s: Text): (k: nat)
    ensures k <= |s|
    ensures k > 0 ==> s[k - 1] == '/'
    ensures forall i :: k <= i < |s| ==> s[i] != '/'
  {
    if s == [] then 0 else if s[|s| - 1] == '/' then |s| else AfterLastSlash(s[..|s| - 1])
  }

  function TrimTrailingSlashes(s: Text): (r: Text)
    ensures |r| <= |s| && r == s[..|r|] && (r == [] || r[|r| - 1] != '/')
  {
    if s != [] && s[|s| - 1] == '/' then TrimTrailingSlashes(s[..|s| - 1]) else s
  }

  /** `filepath.Base`. */
  function Base(p: Text): Text
  {
    if p == [] then "."
    else
      var q := TrimTrailingSlashes(p);
      if q == [] then "/" else q[AfterLastSlash(q)..]
  }

  /** `filepath.Join(b, f)` for `b` a path element as `Base` returns it and
      `f` free of '/', including the `Clean` that Join applies. */
  function JoinElement(b: Text, f: Text): Text
  {
    if f == [] then b
    else if f == "." then b
    else if f == ".." then
      (if b == "/" then "/" else if b == "." then ".." else if b == ".." then "../.." else ".")
    else if b == "/" then "/" + f
    else if b == "." then f
    else b + "/" + f
  }

  /** The path `appendSource` prints: `filepath.Split` the file, then
      `filepath.Join(filepath.Base(dir), file)`. */
  function SourcePath(file: Text): Text
  {
    var k := AfterLastSlash(file);
    JoinElement(Base(file[..k]), file[k..])
  }

  /** `appendSource`. */
  function SourceText(noColor: bool, src: Source): Text
  {
    Ansi(noColor, Faint) + SourcePath(src.file) + ":" + Signed(src.line) + Ansi(noColor, Reset)
  }

  /** `appendKey`. */
  /** What `appendKey` prints for the empty key. */
  const EmptyKey: Text := "\"\""

  function KeyText(noColor: bool, key: Text, prefix: Text): Text
  {
    Ansi(noColor, Faint) + (if |key| == 0 then EmptyKey else AutoQuote(prefix + key)) + "=" + Ansi(noColor, Reset)
  }

  /** `appendError`. */
  function ErrorText(noColor: bool, message: Text, key: Text, prefix: Text): Text
  {
    Ansi(noColor, Faint) + Ansi(noColor, FgRed) + AutoQuote(prefix + key) + "=" + Ansi(noColor, Reset) + Quote(message)
  }

  /** `appendValue`; a nil value fails the type assertion to string. */
  function ValueText(c: Config, v: Value): Outcome<Text>
  {
    match v
    case StringValue(s) => Done(Quote(s))
    case Int64Value(i) => Done(Signed(i))
    case Uint64Value(u) => Done(Digits(u))
    case Float64Value(bits) => Done(c.foreign.floatString(bits))
    case BoolValue(b) => Done(if b then "true" else "false")
    case DurationValue(d) => Done(Quote(c.foreign.durationString(d)))
    case TimeValue(t) => Done(Quote(c.foreign.timeString(t)))
    case GroupValue(_) => Done([])
    case LogValuerValue(_, _) => Done([])
    case AnyValue(a) =>
      match a
      case LevelAny(l) => Done(LevelText(c, l))
      case MarshalerAny(m) => Done(if m.Some? then Quote(m.value) else [])
      case SourceAny(s) => Done(SourceText(c.noColor, s))
      case BytesAny(b) => Done(AutoQuote(b))
      case Nil => Panic(NilValue)
      case ErrorAny(m) => Done("\"" + m + "\"")
      case OtherAny(t) => Done("\"" + t + "\"")
  }

  /** `Value.String()`. */
  function ValueString(f: Foreign, v: Value): Text
  {
    match v
    case StringValue(s) => s
    case Int64Value(i) => Signed(i)
    case Uint64Value(u) => Digits(u)
    case Float64Value(bits) => f.floatString(bits)
    case BoolValue(b) => if b then "true" else "false"
    case DurationValue(d) => f.durationString(d)
    case TimeValue(t) => f.timeString(t)
    case _ => f.sprint(v)
  }

  /** The attribute `appendAttr` renders: a non-group attribute goes through
      the hook with its value resolved, then the value is resolved again. */
  function Rewritten(c: Config, attr: Attr, groups: seq<Text>): (a: Attr)
    ensures IsResolved(a.value)
  {
    var b := if c.replaceAttr.Some? && !attr.value.GroupValue?
      then c.replaceAttr.value(groups, attr.(value := Resolve(attr.value)))
      else attr;
    b.(value := Resolve(b.value))
  }

  function GroupPrefix(prefix: Text, key: Text): Text
  {
    if key != [] then prefix + key + "." else prefix
  }

  function OpenGroups(groups: seq<Text>, key: Text): seq<Text>
  {
    if key != [] then groups + [key] else groups
  }

  predicate IsErrorValue(v: Value) { v.AnyValue? && v.any.ErrorAny? }

  /** What `appendAttr` appends for a resolved attribute whose value is not
      a group: dispatch on the lower-cased key, then errors, then key=value. */
  function EmitLeaf(c: Config, a: Attr, prefix: Text): Outcome<Text>
  {
    var key := ToLower(a.key);
    if key == TimeKey then
      (if a.value.TimeValue? then Done(c.foreign.formatTime(a.value.t, c.timeFormat) + " ") else Panic(NotTime))
    else if key == LevelKey then
      (if a.value.AnyValue? && a.value.any.LevelAny? then Done(LevelText(c, a.value.any.level) + " ") else Panic(NotLevel))
    else if key == SourceKey then
      (if a.value.AnyValue? && a.value.any.SourceAny? then Done(SourceText(c.noColor, a.value.any.source) + " ") else Panic(NotSource))
    else if key == MessageKey then
      Done(ValueString(c.foreign, a.value) + " ")
    else if IsErrorValue(a.value) then
      Done(ErrorText(c.noColor, a.value.any.message, a.key, prefix) + " ")
    else
      Then(Then(Done(KeyText(c.noColor, a.key, prefix)), ValueText(c, a.value)), Done(" "))
  }

  /** `appendAttr(buf, attr, prefix, groups)` with `fuel` levels of group
      nesting left. */
  function Emit(c: Config, attr: Attr, prefix: Text, groups: seq<Text>, fuel: nat): Outcome<Text>
    decreases fuel, 0
  {
    var a := Rewritten(c, attr, groups);
    if IsEmptyAttr(a) then Done([])
    else if a.value.GroupValue? then
      (if fuel == 0 then Panic(StackExhausted)
       else EmitAll(c, a.value.attrs, GroupPrefix(prefix, a.key), OpenGroups(groups, a.key), fuel - 1))
    else EmitLeaf(c, a, prefix)
  }

  /** `appendAttr` on each attribute of a list, in order. */
  function EmitAll(c: Config, attrs: seq<Attr>, prefix: Text, groups: seq<Text>, fuel: nat): Outcome<Text>
    decreases fuel, |attrs| + 1
  {
    if attrs == [] then Done([])
    else Then(EmitAll(c, attrs[..|attrs| - 1], prefix, groups, fuel), Emit(c, attrs[|attrs| - 1], prefix, groups, fuel))
  }

  /** The built-in attributes `Handle` passes through `appendAttr` when a
      hook is configured (time only when non-zero, source only when asked
      for and known). */
  function BuiltinAttrs(c: Config, r: Record): seq<Attr>
  {
    (if r.time.IsZero() then [] else [Attr(TimeKey, TimeValue(r.time))])
    + [Attr(LevelKey, AnyValue(LevelAny(r.level)))]
    + (if c.addSource && r.caller.file != [] then [Attr(SourceKey, AnyValue(SourceAny(r.caller)))] else [])
    + [Attr(MessageKey, StringValue(r.message))]
  }

  /** One built-in attribute of `Handle`: nothing when absent, the text
      `direct` when no hook is configured, otherwise `appendAttr` on the
      attribute outside any group. */
  function BuiltinPart(c: Config, p: Prefixes, present: bool, a: Attr, direct: Text): Outcome<Text>
  {
    if !present then Done([])
    else if c.replaceAttr.None? then Done(direct)
    else Emit(c, a, p.groupPrefix, [], MaxDepth)
  }

  /** The built-in part of the line: time, level, source, message. */
  function Builtins(c: Config, p: Prefixes, r: Record): Outcome<Text>
  {
    Then(Then(Then(
      BuiltinPart(c, p, !r.time.IsZero(), Attr(TimeKey, TimeValue(r.time)),
        c.foreign.formatTime(r.time, c.timeFormat) + " "),
      BuiltinPart(c, p, true, Attr(LevelKey, AnyValue(LevelAny(r.level))), LevelText(c, r.level) + " ")),
      BuiltinPart(c, p, c.addSource && r.caller.file != [], Attr(SourceKey, AnyValue(SourceAny(r.caller))),
        SourceText(c.noColor, r.caller) + " ")),
      BuiltinPart(c, p, true, Attr(MessageKey, StringValue(r.message)), r.message + " "))
  }

  /** The line `Handle` prints (without its newline). */
  function Line(c: Config, p: Prefixes, r: Record): Outcome<Text>
  {
    Assemble(Builtins(c, p, r), p.attrsPrefix, EmitAll(c, r.attrs, p.groupPrefix, p.groups, MaxDepth))
  }

  /** The built-in part, the handler's preformatted attributes and the
      record's attributes, with the trailing spaces removed. */
  function Assemble(builtins: Outcome<Text>, attrsPrefix: Text, attrs: Outcome<Text>): (r: Outcome<Text>)
    ensures builtins.Panic? ==> r == builtins
    ensures builtins.Done? && attrs.Panic? ==> r == attrs
    ensures builtins.Done? && attrs.Done? ==> r == Done(TrimRight(builtins.value + attrsPrefix + attrs.value))
  {
    var body := Then(Then(builtins, Done(attrsPrefix)), attrs);
    if body.Done? then Done(TrimRight(body.value)) else body
  }

  /** `Line` assembled from the outcomes of its three parts. */
  lemma LineParts(c: Config, p: Prefixes, r: Record)
    ensures Builtins(c, p, r).Panic? ==> Line(c, p, r) == Builtins(c, p, r)
    ensures Builtins(c, p, r).Done? && EmitAll(c, r.attrs, p.groupPrefix, p.groups, MaxDepth).Panic? ==>
      Line(c, p, r) == EmitAll(c, r.attrs, p.groupPrefix, p.groups, MaxDepth)
    ensures Builtins(c, p, r).Done? && EmitAll(c, r.attrs, p.groupPrefix, p.groups, MaxDepth).Done? ==>
      Line(c, p, r) == Done(TrimRight(Builtins(c, p, r).value + p.attrsPrefix
        + EmitAll(c, r.attrs, p.groupPrefix, p.groups, MaxDepth).value))
  {
  }

  /** The accreted fields after `WithGroup(name)`. */
  function WithGroupPrefixes(p: Prefixes, name: Text): Prefixes
  {
    if name == [] then p else Prefixes(p.attrsPrefix, p.groupPrefix + name + ".", p.groups + [name])
  }

  /** The `attrsPrefix` that `WithAttrs(attrs)` gives the derived handler. */
  function WithAttrsPrefix(c: Config, p: Prefixes, attrs: seq<Attr>): Outcome<Text>
  {
    Then(Done(p.attrsPrefix), EmitAll(c, attrs, p.groupPrefix, p.groups, MaxDepth))
  }

  // ---- the calls the rewrite hook receives ----

  datatype Call = Call(groups: seq<Text>, attr: Attr)

  /** The calls to the hook while `appendAttr` renders `attr` to the end. */
  function Calls(c: Config, attr: Attr, groups: seq<Text>, fuel: nat): seq<Call>
    decreases fuel, 0
  {
    var own := if c.replaceAttr.Some? && !attr.value.GroupValue?
      then [Call(groups, attr.(value := Resolve(attr.value)))] else [];
    var a := Rewritten(c, attr, groups);
    own + (if !IsEmptyAttr(a) && a.value.GroupValue? && fuel > 0
           then CallsAll(c, a.value.attrs, OpenGroups(groups, a.key), fuel - 1) else [])
  }

  function CallsAll(c: Config, attrs: seq<Attr>, groups: seq<Text>, fuel: nat): seq<Call>
    decreases fuel, |attrs| + 1
  {
    if attrs == [] then []
    else CallsAll(c, attrs[..|attrs| - 1], groups, fuel) + Calls(c, attrs[|attrs| - 1], groups, fuel)
  }

  /** The calls to the hook while `Handle` renders every part of `r` to the
      end, ignoring panics: when `Line(c, p, r)` panics, Go stops at that
      part and makes none of the later calls. */
  function LineCalls(c: Config, p: Prefixes, r: Record): seq<Call>
  {
    if c.replaceAttr.None? then []
    else CallsAll(c, BuiltinAttrs(c, r), [], MaxDepth) + CallsAll(c, r.attrs, p.groups, MaxDepth)
  }

  /** Once an attribute panics, the attributes after it change nothing. */
  lemma {:induction false} EmitAllPanicStays(c: Config, attrs: seq<Attr>, prefix: Text, groups: seq<Text>, fuel: nat, j: nat)
    requires j <= |attrs| && EmitAll(c, attrs[..j], prefix, groups, fuel).Panic?
    ensures EmitAll(c, attrs, prefix, groups, fuel) == EmitAll(c, attrs[..j], prefix, groups, fuel)
    decreases |attrs|
  {
    if j < |attrs| {
      var init := attrs[..|attrs| - 1];
      assert init[..j] == attrs[..j];
      EmitAllPanicStays(c, init, prefix, groups, fuel, j);
    } else {
      assert attrs[..j] == attrs;
    }
  }
}
