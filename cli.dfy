/** The handler of handler.go as a class. Each `append*` method writes to a
    `Buffer` and is proved to append exactly the text the corresponding
    function of module Render describes; `Handle` is proved to print
    `Render.Line`, and `WithAttrs`/`WithGroup` to derive a new handler
    without touching the receiver. */
module Cli {
  import opened Text
  import opened Decimal
  import Quoting
  import opened Slog
  import opened Render
  import opened Buffers

  /** `time.DateTime`, the default time layout. */
  const DateTime: Text := "2006-01-02 15:04:05"

  /** The level a handler logs from when the options name none. */
  const DefaultLevel: Level := LevelInfo

  /** `HandlerOptions`; `level` is `None` for a nil `Leveler`. */
  datatype HandlerOptions = HandlerOptions(
    addSource: bool,
    level: Option<Level>,
    replaceAttr: Option<Hook>,
    timeFormat: Text,
    noColor: bool)

  /** The configuration `NewHandler` derives from the options: a missing
      options value is the zero options value, a missing level is
      `DefaultLevel`, an empty time format is `DateTime`. */
  function OptionsConfig(opts: Option<HandlerOptions>, foreign: Foreign): Config
  {
    var o := if opts.Some? then opts.value else HandlerOptions(false, None, None, [], false);
    Config(o.addSource, if o.level.Some? then o.level.value else DefaultLevel,
      o.replaceAttr, if o.timeFormat != [] then o.timeFormat else DateTime, o.noColor, foreign)
  }

  /** A write that ends in `o`: on success the buffer grew by `o`'s text
      and no panic is reported; otherwise the panic is `o`'s. */
  predicate Appended(o: Outcome<Text>, before: seq<byte>, after: seq<byte>, panic: Option<PanicReason>)
  {
    match o
    case Done(t) => panic == None && after == before + t
    case Panic(r) => panic == Some(r)
  }

  /** Appending a piece to a buffer that already holds `start + acc`. */
  lemma Grow(start: seq<byte>, acc: Text, piece: Text)
    ensures start + acc + piece == start + (acc + piece)
  {
  }

  /** `needsQuotes`: stops at the first character that forces quoting. */
  method NeedsQuotes(s: Text) returns (b: bool)
    ensures b <==> s == [] || exists i :: 0 <= i < |s| && Quoting.ForcesQuotes(s[i])
    ensures b == Quoting.NeedsQuotes(s)
  {
    Quoting.NeedsQuotesIff(s);
    if |s| == 0 {
      return true;
    }
    var i := 0;
    while i < |s|
      invariant 0 <= i <= |s|
      invariant forall k :: 0 <= k < i ==> !Quoting.ForcesQuotes(s[k])
    {
      var r := s[i];
      // U+0085 and U+00A0 are in the source's list too; they are not ASCII.
      if r == ' ' || r == '"' || r == '=' || r == '\t' || r == '\n'
        || r as int == 11 || r as int == 12 || r == '\r'
      {
        return true;
      }
      if !Quoting.IsPrint(r) {
        return true;
      }
      i := i + 1;
    }
    return false;
  }

  /** `appendQuote`. */
  method AppendQuote(buf: Buffer, s: Text)
    requires buf.Valid()
    modifies buf
    ensures buf.Valid()
    ensures buf.bytes == old(buf.bytes) + Quoting.Quote(s)
  {
    buf.WriteString(Quoting.Quote(s));
  }

  /** `appendAutoQuote`; its unquoted branch is `appendString`. */
  method AppendAutoQuote(buf: Buffer, s: Text)
    requires buf.Valid()
    modifies buf
    ensures buf.Valid()
    ensures buf.bytes == old(buf.bytes) + Quoting.AutoQuote(s)
  {
    var q := NeedsQuotes(s);
    if q {
      AppendQuote(buf, s);
    } else {
      buf.WriteString(s);
    }
  }

  /** `NewHandler`: the writer and the inner text handler are not modelled. */
  method NewHandler(opts: Option<HandlerOptions>, foreign: Foreign) returns (h: Handler)
    ensures fresh(h)
    ensures h.Settings() == OptionsConfig(opts, foreign)
    ensures h.Accreted() == Prefixes([], [], [])
  {
    var o := if opts.Some? then opts.value else HandlerOptions(false, None, None, [], false);
    var level := DefaultLevel;
    var timeFormat := DateTime;
    if o.level.Some? {
      level := o.level.value;
    }
    if o.timeFormat != [] {
      timeFormat := o.timeFormat;
    }
    h := new Handler(Config(o.addSource, level, o.replaceAttr, timeFormat, o.noColor, foreign), Prefixes([], [], []));
  }

  class Handler {
    /** Text of the attributes added by `WithAttrs`, already rendered. */
    var attrsPrefix: Text
    /** The open groups of `WithGroup`, each followed by '.'. */
    var groupPrefix: Text
    /** The open groups of `WithGroup`, as the hook receives them. */
    var groups: seq<Text>
    var level: Level

    const addSource: bool
    const replaceAttr: Option<Hook>
    const timeFormat: Text
    const noColor: bool
    /** The standard-library formatting the handler relies on. */
    const foreign: Foreign

    function Settings(): Config
      reads this
    {
      Config(addSource, level, replaceAttr, timeFormat, noColor, foreign)
    }

    function Accreted(): Prefixes
      reads this
    {
      Prefixes(attrsPrefix, groupPrefix, groups)
    }

    constructor (settings: Config, accreted: Prefixes)
      ensures Settings() == settings && Accreted() == accreted
    {
      attrsPrefix := accreted.attrsPrefix;
      groupPrefix := accreted.groupPrefix;
      groups := accreted.groups;
      level := settings.level;
      addSource := settings.addSource;
      replaceAttr := settings.replaceAttr;
      timeFormat := settings.timeFormat;
      noColor := settings.noColor;
      foreign := settings.foreign;
    }

    /** `clone`: a new handler with the same fields. */
    method Clone() returns (h2: Handler)
      ensures fresh(h2)
      ensures h2.Settings() == Settings() && h2.Accreted() == Accreted()
    {
      h2 := new Handler(Settings(), Accreted());
    }

    /** `Enabled`. */
    predicate Enabled(l: Level)
      reads this
    {
      Render.Enabled(Settings(), l)
    }

    /** `SetLogLoggerLevel`: replaces the minimum level, nothing else. */
    method SetLogLoggerLevel(l: Level)
      modifies this
      ensures Settings() == old(Settings()).(level := l)
      ensures Accreted() == old(Accreted())
    {
      level := l;
    }

    /** `appendANSI`. */
    method AppendANSI(buf: Buffer, color: Text)
      requires buf.Valid()
      modifies buf
      ensures buf.Valid()
      ensures buf.bytes == old(buf.bytes) + Ansi(noColor, color)
    {
      if !noColor {
        buf.WriteString(color);
      }
    }

    /** `appendLevel`. */
    method AppendLevel(buf: Buffer, l: Level)
      requires buf.Valid()
      modifies buf
      ensures buf.Valid()
      ensures buf.bytes == old(buf.bytes) + LevelText(Settings(), l)
    {
      if l == LevelDebug {
        AppendColoured(buf, FgBlue, DebugToken);
      } else if l == LevelInfo {
        buf.WriteString(InfoToken);
      } else if l == LevelWarn {
        AppendColoured(buf, FgYellow, WarnToken);
      } else if l == LevelError {
        AppendColoured(buf, FgRed, ErrorToken);
      } else {
        buf.WriteString(foreign.levelString(l));
      }
    }

    /** The colour, a level token and the reset, as `appendLevel` writes them. */
    method AppendColoured(buf: Buffer, color: Text, token: Text)
      requires buf.Valid()
      modifies buf
      ensures buf.Valid()
      ensures buf.bytes == old(buf.bytes) + Coloured(noColor, color, token)
    {
      ghost var start := buf.bytes;
      AppendANSI(buf, color);
      buf.WriteString(token);
      Grow(start, Ansi(noColor, color), token);
      AppendANSI(buf, Reset);
      Grow(start, Ansi(noColor, color) + token, Ansi(noColor, Reset));
    }

    /** `appendSource`. */
    method AppendSource(buf: Buffer, src: Source)
      requires buf.Valid()
      modifies buf
      ensures buf.Valid()
      ensures buf.bytes == old(buf.bytes) + SourceText(noColor, src)
    {
      ghost var start := buf.bytes;
      AppendANSI(buf, Faint);
      ghost var acc: Text := Ansi(noColor, Faint);
      buf.WriteString(SourcePath(src.file));
      Grow(start, acc, SourcePath(src.file));
      acc := acc + SourcePath(src.file);
      var _ := buf.WriteByte(':');
      Grow(start, acc, ":");
      acc := acc + ":";
      buf.WriteString(Signed(src.line));
      Grow(start, acc, Signed(src.line));
      acc := acc + Signed(src.line);
      AppendANSI(buf, Reset);
      Grow(start, acc, Ansi(noColor, Reset));
    }

    /** `appendKey`. */
    method AppendKey(buf: Buffer, key: Text, prefix: Text)
      requires buf.Valid()
      modifies buf
      ensures buf.Valid()
      ensures buf.bytes == old(buf.bytes) + KeyText(noColor, key, prefix)
    {
      ghost var start := buf.bytes;
      AppendANSI(buf, Faint);
      ghost var acc: Text := Ansi(noColor, Faint);
      ghost var k: Text := if |key| == 0 then EmptyKey else Quoting.AutoQuote(prefix + key);
      if |key| == 0 {
        buf.WriteString(EmptyKey);
      } else {
        AppendAutoQuote(buf, prefix + key);
      }
      Grow(start, acc, k);
      acc := acc + k;
      var _ := buf.WriteByte('=');
      Grow(start, acc, "=");
      acc := acc + "=";
      AppendANSI(buf, Reset);
      Grow(start, acc, Ansi(noColor, Reset));
    }

    /** `appendError`; `message` is what the error's `Error` method returns. */
    method AppendError(buf: Buffer, message: Text, key: Text, prefix: Text)
      requires buf.Valid()
      modifies buf
      ensures buf.Valid()
      ensures buf.bytes == old(buf.bytes) + ErrorText(noColor, message, key, prefix)
    {
      ghost var start := buf.bytes;
      AppendANSI(buf, Faint);
      ghost var acc: Text := Ansi(noColor, Faint);
      AppendANSI(buf, FgRed);
      Grow(start, acc, Ansi(noColor, FgRed));
      acc := acc + Ansi(noColor, FgRed);
      AppendAutoQuote(buf, prefix + key);
      Grow(start, acc, Quoting.AutoQuote(prefix + key));
      acc := acc + Quoting.AutoQuote(prefix + key);
      var _ := buf.WriteByte('=');
      Grow(start, acc, "=");
      acc := acc + "=";
      AppendANSI(buf, Reset);
      Grow(start, acc, Ansi(noColor, Reset));
      acc := acc + Ansi(noColor, Reset);
      AppendQuote(buf, message);
      Grow(start, acc, Quoting.Quote(message));
    }

    /** `appendValue`. */
    method AppendValue(buf: Buffer, v: Value) returns (panic: Option<PanicReason>)
      requires buf.Valid()
      modifies buf
      ensures buf.Valid()
      ensures Appended(ValueText(Settings(), v), old(buf.bytes), buf.bytes, panic)
    {
      panic := None;
      match v {
        case StringValue(s) => AppendQuote(buf, s);
        case Int64Value(i) => var _, _ := buf.Write(Signed(i));
        case Uint64Value(u) => var _, _ := buf.Write(Digits(u));
        case Float64Value(bits) => var _, _ := buf.Write(foreign.floatString(bits));
        case BoolValue(b) => var _, _ := buf.Write(if b then "true" else "false");
        case DurationValue(d) => AppendQuote(buf, foreign.durationString(d));
        case TimeValue(t) => AppendQuote(buf, foreign.timeString(t));
        case GroupValue(_) =>
        case LogValuerValue(_, _) =>
        case AnyValue(a) =>
          match a {
            case LevelAny(l) => AppendLevel(buf, l);
            case MarshalerAny(m) =>
              if m.Some? {
                AppendQuote(buf, m.value);
              }
            case SourceAny(s) => AppendSource(buf, s);
            case BytesAny(b) => AppendAutoQuote(buf, b);
            case Nil =>
              // the type assertion `v.Any().(string)` fails
              panic := Some(NilValue);
            case ErrorAny(m) => buf.WriteString("\"" + m + "\"");
            case OtherAny(t) => buf.WriteString("\"" + t + "\"");
          }
      }
    }

    /** `appendAttr`, with `fuel` levels of group nesting left. */
    method AppendAttr(buf: Buffer, attr: Attr, prefix: Text, groups: seq<Text>, fuel: nat)
      returns (panic: Option<PanicReason>)
      requires buf.Valid()
      modifies buf
      ensures buf.Valid()
      ensures Appended(Emit(Settings(), attr, prefix, groups, fuel), old(buf.bytes), buf.bytes, panic)
      decreases fuel, 0
    {
      var a := attr;
      if replaceAttr.Some? && !a.value.GroupValue? {
        // resolved before the hook sees it
        a := a.(value := Resolve(a.value));
        a := replaceAttr.value(groups, a);
      }
      a := a.(value := Resolve(a.value));
      assert a == Rewritten(Settings(), attr, groups);
      if IsEmptyAttr(a) {
        return None;
      }
      if a.value.GroupValue? {
        if fuel == 0 {
          return Some(StackExhausted);
        }
        var groupsPrefix, open := prefix, groups;
        if a.key != [] {
          groupsPrefix := groupsPrefix + a.key + ".";
          open := open + [a.key];
        }
        panic := AppendAll(buf, a.value.attrs, groupsPrefix, open, fuel - 1);
      } else {
        panic := AppendLeaf(buf, a, prefix);
      }
    }

    /** The branches of `appendAttr` for a resolved, non-group attribute:
        the reserved keys (compared lower-cased), then errors, then
        `key=value`. */
    method AppendLeaf(buf: Buffer, a: Attr, prefix: Text) returns (panic: Option<PanicReason>)
      requires buf.Valid()
      modifies buf
      ensures buf.Valid()
      ensures Appended(EmitLeaf(Settings(), a, prefix), old(buf.bytes), buf.bytes, panic)
    {
      ghost var start := buf.bytes;
      ghost var e := EmitLeaf(Settings(), a, prefix);
      var key := ToLower(a.key);
      if key == TimeKey {
        if !a.value.TimeValue? {
          return Some(NotTime);
        }
        buf.WriteString(foreign.formatTime(a.value.t, timeFormat));
        var _ := buf.WriteByte(' ');
        Grow(start, foreign.formatTime(a.value.t, timeFormat), " ");
        panic := None;
      } else if key == LevelKey {
        if !(a.value.AnyValue? && a.value.any.LevelAny?) {
          return Some(NotLevel);
        }
        AppendLevel(buf, a.value.any.level);
        var _ := buf.WriteByte(' ');
        Grow(start, LevelText(Settings(), a.value.any.level), " ");
        panic := None;
      } else if key == SourceKey {
        if !(a.value.AnyValue? && a.value.any.SourceAny?) {
          return Some(NotSource);
        }
        AppendSource(buf, a.value.any.source);
        var _ := buf.WriteByte(' ');
        Grow(start, SourceText(noColor, a.value.any.source), " ");
        panic := None;
      } else if key == MessageKey {
        buf.WriteString(ValueString(foreign, a.value));
        var _ := buf.WriteByte(' ');
        Grow(start, ValueString(foreign, a.value), " ");
        panic := None;
      } else if IsErrorValue(a.value) {
        AppendError(buf, a.value.any.message, a.key, prefix);
        var _ := buf.WriteByte(' ');
        Grow(start, ErrorText(noColor, a.value.any.message, a.key, prefix), " ");
        panic := None;
      } else {
        assert e == Then(Then(Done(KeyText(noColor, a.key, prefix)), ValueText(Settings(), a.value)), Done(" "));
        AppendKey(buf, a.key, prefix);
        panic := AppendValue(buf, a.value);
        if panic.Some? {
          return;
        }
        ghost var v := ValueText(Settings(), a.value).value;
        Grow(start, KeyText(noColor, a.key, prefix), v);
        var _ := buf.WriteByte(' ');
        Grow(start, KeyText(noColor, a.key, prefix) + v, " ");
      }
    }

    /** The loop `for _, attr := range attrs { h.appendAttr(buf, attr, …) }`
        that `Handle`, `WithAttrs` and `appendAttr` itself run. */
    method AppendAll(buf: Buffer, attrs: seq<Attr>, prefix: Text, groups: seq<Text>, fuel: nat)
      returns (panic: Option<PanicReason>)
      requires buf.Valid()
      modifies buf
      ensures buf.Valid()
      ensures Appended(EmitAll(Settings(), attrs, prefix, groups, fuel), old(buf.bytes), buf.bytes, panic)
      decreases fuel, 1
    {
      panic := None;
      var i := 0;
      while i < |attrs|
        invariant 0 <= i <= |attrs| && buf.Valid() && panic == None
        invariant EmitAll(Settings(), attrs[..i], prefix, groups, fuel).Done?
        invariant buf.bytes == old(buf.bytes) + EmitAll(Settings(), attrs[..i], prefix, groups, fuel).value
      {
        assert attrs[..i + 1][..i] == attrs[..i];
        panic := AppendAttr(buf, attrs[i], prefix, groups, fuel);
        if panic.Some? {
          EmitAllPanicStays(Settings(), attrs, prefix, groups, fuel, i + 1);
          return;
        }
        i := i + 1;
      }
      assert attrs[..i] == attrs;
    }

    /** The time block of `Handle`: only for a non-zero time. */
    method AppendTimeBuiltin(buf: Buffer, r: Record) returns (panic: Option<PanicReason>)
      requires buf.Valid()
      modifies buf
      ensures buf.Valid()
      ensures Appended(BuiltinPart(Settings(), Accreted(), !r.time.IsZero(), Attr(TimeKey, TimeValue(r.time)),
        foreign.formatTime(r.time, timeFormat) + " "), old(buf.bytes), buf.bytes, panic)
    {
      panic := None;
      if !r.time.IsZero() {
        if replaceAttr.None? {
          buf.WriteString(foreign.formatTime(r.time, timeFormat));
          var _ := buf.WriteByte(' ');
          Grow(old(buf.bytes), foreign.formatTime(r.time, timeFormat), " ");
        } else {
          panic := AppendAttr(buf, Attr(TimeKey, TimeValue(r.time)), groupPrefix, [], MaxDepth);
        }
      }
    }

    /** The level block of `Handle`. */
    method AppendLevelBuiltin(buf: Buffer, r: Record) returns (panic: Option<PanicReason>)
      requires buf.Valid()
      modifies buf
      ensures buf.Valid()
      ensures Appended(BuiltinPart(Settings(), Accreted(), true, Attr(LevelKey, AnyValue(LevelAny(r.level))),
        LevelText(Settings(), r.level) + " "), old(buf.bytes), buf.bytes, panic)
    {
      panic := None;
      if replaceAttr.None? {
        AppendLevel(buf, r.level);
        var _ := buf.WriteByte(' ');
        Grow(old(buf.bytes), LevelText(Settings(), r.level), " ");
      } else {
        panic := AppendAttr(buf, Attr(LevelKey, AnyValue(LevelAny(r.level))), groupPrefix, [], MaxDepth);
      }
    }

    /** The source block of `Handle`: only when asked for and the caller's
        file is known. */
    method AppendSourceBuiltin(buf: Buffer, r: Record) returns (panic: Option<PanicReason>)
      requires buf.Valid()
      modifies buf
      ensures buf.Valid()
      ensures Appended(BuiltinPart(Settings(), Accreted(), addSource && r.caller.file != [],
        Attr(SourceKey, AnyValue(SourceAny(r.caller))), SourceText(noColor, r.caller) + " "),
        old(buf.bytes), buf.bytes, panic)
    {
      panic := None;
      if addSource {
        if r.caller.file != [] {
          if replaceAttr.None? {
            AppendSource(buf, r.caller);
            var _ := buf.WriteByte(' ');
            Grow(old(buf.bytes), SourceText(noColor, r.caller), " ");
          } else {
            panic := AppendAttr(buf, Attr(SourceKey, AnyValue(SourceAny(r.caller))), groupPrefix, [], MaxDepth);
          }
        }
      }
    }

    /** The message block of `Handle`: the message as is, unquoted. */
    method AppendMessageBuiltin(buf: Buffer, r: Record) returns (panic: Option<PanicReason>)
      requires buf.Valid()
      modifies buf
      ensures buf.Valid()
      ensures Appended(BuiltinPart(Settings(), Accreted(), true, Attr(MessageKey, StringValue(r.message)),
        r.message + " "), old(buf.bytes), buf.bytes, panic)
    {
      panic := None;
      if replaceAttr.None? {
        buf.WriteString(r.message);
        var _ := buf.WriteByte(' ');
        Grow(old(buf.bytes), r.message, " ");
      } else {
        panic := AppendAttr(buf, Attr(MessageKey, StringValue(r.message)), groupPrefix, [], MaxDepth);
      }
    }

    /** The built-in attributes of `Handle`, in order. */
    method AppendBuiltins(buf: Buffer, r: Record) returns (panic: Option<PanicReason>)
      requires buf.Valid()
      modifies buf
      ensures buf.Valid()
      ensures Appended(Builtins(Settings(), Accreted(), r), old(buf.bytes), buf.bytes, panic)
    {
      ghost var c, p := Settings(), Accreted();
      ghost var t := BuiltinPart(c, p, !r.time.IsZero(), Attr(TimeKey, TimeValue(r.time)),
        c.foreign.formatTime(r.time, c.timeFormat) + " ");
      ghost var lv := BuiltinPart(c, p, true, Attr(LevelKey, AnyValue(LevelAny(r.level))), LevelText(c, r.level) + " ");
      ghost var sc := BuiltinPart(c, p, c.addSource && r.caller.file != [], Attr(SourceKey, AnyValue(SourceAny(r.caller))),
        SourceText(c.noColor, r.caller) + " ");
      ghost var m := BuiltinPart(c, p, true, Attr(MessageKey, StringValue(r.message)), r.message + " ");
      assert Builtins(c, p, r) == Then(Then(Then(t, lv), sc), m);
      ghost var b0 := buf.bytes;
      panic := AppendTimeBuiltin(buf, r);
      if panic.Some? {
        return;
      }
      panic := AppendLevelBuiltin(buf, r);
      if panic.Some? {
        return;
      }
      Grow(b0, t.value, lv.value);
      panic := AppendSourceBuiltin(buf, r);
      if panic.Some? {
        return;
      }
      Grow(b0, t.value + lv.value, sc.value);
      panic := AppendMessageBuiltin(buf, r);
      if panic.Some? {
        return;
      }
      Grow(b0, t.value + lv.value + sc.value, m.value);
    }

    /** `Handle`: renders the record into a fresh buffer and prints the
        buffer without its trailing spaces; the error is always nil. */
    method Handle(r: Record) returns (line: Outcome<Text>, err: Option<Text>)
      ensures line == Line(Settings(), Accreted(), r)
      ensures err == None
    {
      err := None;
      LineParts(Settings(), Accreted(), r);
      var buf := new Buffer();
      // time, level, source, message; they are not in a group
      var panic := AppendBuiltins(buf, r);
      if panic.Some? {
        return Panic(panic.value), None;
      }
      ghost var builtins := buf.bytes;
      ghost var bo := Builtins(Settings(), Accreted(), r);
      assert Appended(bo, [], builtins, panic);
      assert bo.Done?;
      assert [] + bo.value == bo.value;
      assert bo.value == builtins;

      // handler attributes
      if |attrsPrefix| > 0 {
        buf.WriteString(attrsPrefix);
      }
      ghost var head := buf.bytes;
      assert head == builtins + attrsPrefix;

      // record attributes
      ghost var e := EmitAll(Settings(), r.attrs, groupPrefix, groups, MaxDepth);
      panic := AppendAll(buf, r.attrs, groupPrefix, groups, MaxDepth);
      if panic.Some? {
        return Panic(panic.value), None;
      }
      assert e.Done? && buf.bytes == builtins + attrsPrefix + e.value;

      var s := buf.String();
      line := Done(TrimRight(s));
      var _ := buf.Free();
    }

    /** `WithAttrs`: the receiver itself for no attributes; otherwise a
        clone whose `attrsPrefix` has the attributes rendered onto it. */
    method WithAttrs(attrs: seq<Attr>) returns (h: Outcome<Handler>)
      ensures attrs == [] ==> h == Done(this)
      ensures attrs != [] ==> (h.Done? <==> WithAttrsPrefix(Settings(), Accreted(), attrs).Done?)
      ensures attrs != [] && h.Done? ==>
        fresh(h.value) && h.value.Settings() == Settings()
        && h.value.Accreted() == Accreted().(attrsPrefix := WithAttrsPrefix(Settings(), Accreted(), attrs).value)
      ensures h.Panic? ==> WithAttrsPrefix(Settings(), Accreted(), attrs) == Panic(h.reason)
    {
      if |attrs| == 0 {
        return Done(this);
      }
      ghost var o := EmitAll(Settings(), attrs, groupPrefix, groups, MaxDepth);
      assert WithAttrsPrefix(Settings(), Accreted(), attrs) == Then(Done(attrsPrefix), o);
      var h2 := Clone();
      var buf := new Buffer();
      var panic := h2.AppendAll(buf, attrs, h2.groupPrefix, h2.groups, MaxDepth);
      if panic.Some? {
        return Panic(panic.value);
      }
      assert o.Done? && buf.bytes == o.value;
      var rendered := buf.String();
      var s: Text := rendered;
      h2.attrsPrefix := attrsPrefix + s;
      var _ := buf.Free();
      return Done(h2);
    }

    /** `WithGroup`: the receiver itself for the empty name; otherwise a
        clone with the group opened. */
    method WithGroup(name: Text) returns (h: Handler)
      ensures name == [] ==> h == this
      ensures name != [] ==>
        fresh(h) && h.Settings() == Settings() && h.Accreted() == WithGroupPrefixes(Accreted(), name)
    {
      if name == [] {
        return this;
      }
      var h2 := Clone();
      h2.groupPrefix := h2.groupPrefix + name + ".";
      h2.groups := h2.groups + [name];
      return h2;
    }
  }
}
