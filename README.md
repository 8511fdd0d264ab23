# A model of the slog CLI handler

The Go package models a `log/slog` handler that writes one human-readable
line per record. This project models its core in Dafny: the pooled byte
buffer (buffer.go) and the handler (handler.go).

A line holds these parts, in order:

- the built-in attributes: the time (left out when it is zero), the
  five-character level token, the caller position (only when `AddSource` is
  set) and the message;
- the attributes already rendered by `WithAttrs`;
- the record's attributes, each as `key=value` followed by a space.

Trailing spaces are then trimmed. Groups are flattened with `name.`
prefixes. An optional rewrite hook (`ReplaceAttr`) may change or drop each
non-group attribute. Keys and values are quoted as the code decides. ANSI
colours are added unless `NoColor` is set.

The modules:

- `Text`, `Decimal`, `Quoting`: ASCII text, decimal digits with padding, and
  Go's `strconv.Quote` with the handler's `needsQuotes`/auto-quoting, each
  with the round trip that makes its output readable back.
- `Slog`: the `log/slog` values the handler consumes (levels, times,
  sources, the kinds of `Value`, attributes, records) and `Value.Resolve`.
- `Buffers`: the `buffer` type as a class over `seq<byte>` with a capacity.
  `WritePosIntWidth` keeps the source's 20-byte scratch array and its
  back-to-front loop.
- `Render`: the text every `append*` method of the handler appends, as
  functions. This covers the recursive attribute walker `appendAttr`, the
  whole line of `Handle`, the prefixes of `WithAttrs`/`WithGroup`, and the
  list of hook calls a line causes.
- `Cli`: the handler as a class with the fields of handler.go. Its methods
  are proved to append exactly the text `Render` describes. `Handle` is
  proved to print `Render.Line`. `WithAttrs` and `WithGroup` return the
  receiver or a fresh clone and leave the receiver unchanged.
- `HandlerProperties`: what the design promises, proved about `Render`.
  This covers:
  - the level tokens and colours, and `Enabled`;
  - group flattening, inline and empty groups;
  - dropped attributes and a hook that drops everything;
  - what the hook is and is not called with;
  - case-insensitive reserved keys, and quoting and value rendering;
  - `WithAttrs` behaving like the record's own leading attributes.
- `HandlerScenarios`: the expected lines of the package's own test cases,
  derived from the model.

A panic of the source (a nil value under a key, a `time`/`level`/`source`
attribute of the wrong type, a negative integer in `WritePosIntWidth`, the
scratch array overflowing) is an explicit failure: `Outcome.Panic(reason)`
or `ok == false`. The model then states that nothing is printed or no byte
is written.

Ways the model follows the code rather than the tests or the comments:

- handler_test.go:178 expects a user attribute `time` to be printed as
  `time="…"`. The code lower-cases every key and sends `time` down the
  built-in path (handler.go:325, handler.go:334-336), which prints the
  formatted time without its key. `HandlerProperties.UserTimeAttr` states
  what the code does.
- handler_test.go:305-314 expects a struct value without quotes. The code
  writes every other `KindAny` value as `"%s"` with quotes
  (handler.go:397-407). `HandlerProperties.OtherValue` states what the
  code does.
- handler.go:87-88 says that `ReplaceAttr` is never called for groups. The
  code checks the kind before resolving (handler.go:314), so a LogValuer
  that resolves to a group does reach the hook, already resolved.
  `HandlerProperties.LogValuerGroupReachesHook` states it.
- `Handle` always returns a nil error (handler.go:262). The line it
  prints contains no newline here, because the newline is added by the
  logger.

## Model

| member | source | states |
|---|---|---|
| Text.ToLower | handler.go:325 | lower-casing keeps the length and lower-cases each ASCII letter, leaving every other character |
| Text.TrimRight | handler.go:260 | the result is a prefix of the input that does not end in a space, and everything cut off is a space |
| Text.LowerOfUpper | handler_test.go:388-391 | lower-casing undoes `strings.ToUpper` on text without upper-case letters |
| Decimal.DigitsRoundTrip | handler.go:371-372 | the decimal digits of a natural number read back as that number |
| Decimal.DigitsInjective | handler.go:371-372 | different numbers have different decimal texts |
| Decimal.ZeroPaddedLength | buffer.go:54-55 | a padded number is exactly `max(width, digit count)` characters long, at least one |
| Decimal.ZeroPaddedNoPadding | buffer.go:50-52 | a width not above the digit count adds no padding, so width 0 is the plain digits |
| Decimal.ZeroPaddedRoundTrip | buffer.go:54-55 | a padded number consists of digits only and reads back as the number |
| Decimal.SignedRoundTrip | handler.go:370-371 | `strconv.AppendInt` text is an optional '-' then digits, and reads back as the integer |
| Quoting.QuoteRoundTrip | handler.go:443-446 | `strconv.Quote` output unquotes back to the original text |
| Quoting.QuotePrintable | handler.go:443-446 | quoted text starts and ends with '"' and holds only printable characters |
| Quoting.NeedsQuotesIff | handler.go:457-472 | quoting is needed exactly for the empty text or text holding a space, '"', '=', a control or another unprintable character; '.' and '\\' do not need it |
| Quoting.AutoQuoteRoundTrip | handler.go:449-455 | auto-quoted text reads back as the original, and it is left bare only when no character needs quoting |
| Slog.ResolveChain | handler.go:314-319 | with a budget of `b` calls, a chain of fewer than `b` LogValuers resolves to the innermost value and one of `b` or more to the "too many" error naming the type resolution started from |
| Slog.ResolveLazy | handler.go:316-319 | a chain of fewer than 100 LogValuers of type `t` resolves to the innermost value; one of 100 or more resolves to the error "LogValue called too many times on Value of type `t`" |
| Slog.TooMany | handler.go:316-319 | the "too many" error is an error value whose message starts with the fixed text |
| Slog.Resolve | handler.go:316-319 | definition: `Value.Resolve`, at most 100 `LogValue` calls |
| Decimal.Digits | handler.go:373-374 | definition: `strconv.AppendUint` in base 10; it has `DigitCount(n)` characters, all digits |
| Decimal.Signed | handler.go:371-372 | definition: `strconv.AppendInt`/`strconv.Itoa` in base 10 |
| Decimal.ZeroPadded | buffer.go:56-77 | definition: the digits of `n` with zeros in front up to `width` characters |
| Quoting.Quote | handler.go:443-445 | definition: `strconv.Quote` on ASCII text |
| Quoting.AutoQuote | handler.go:449-455 | definition: the quoted text when `needsQuotes`, the text itself otherwise |
| Quoting.NeedsQuotes | handler.go:457-472 | definition: the empty text, or a character that forces quotes |
| Render.Enabled | handler.go:183-185 | definition: the level is at least the configured level |
| Render.Ansi | handler.go:431-435 | definition: the colour sequence, or nothing when colour is off |
| Render.LevelText | handler.go:292-311 | definition: the text `appendLevel` appends |
| Render.Coloured | handler.go:295-297 | definition: colour, token, reset |
| Render.Base | handler.go:425 | definition: `filepath.Base` on a Unix path |
| Render.JoinElement | handler.go:425 | definition: `filepath.Join` of a base name and a file name, cleaned |
| Render.SourcePath | handler.go:422-425 | definition: `filepath.Join(filepath.Base(dir), file)` after `filepath.Split` |
| Render.SourceText | handler.go:421-429 | definition: the text `appendSource` appends |
| Render.KeyText | handler.go:356-365 | definition: the text `appendKey` appends |
| Render.ErrorText | handler.go:412-419 | definition: the text `appendError` appends |
| Render.ValueText | handler.go:367-410 | definition: the text `appendValue` appends, or its panic for a nil value |
| Render.ValueString | handler.go:343-344 | definition: `Value.String()` |
| Render.EmitLeaf | handler.go:324-353 | definition: what `appendAttr` appends for a resolved attribute that is not a group |
| Render.Emit | handler.go:313-354 | definition: what `appendAttr` appends, or its panic |
| Render.EmitAll | handler.go:331-333 | definition: `appendAttr` on each attribute of a list in order, stopping at the first panic |
| Render.BuiltinAttrs | handler.go:200-245 | definition: the built-in attributes passed to the hook |
| Render.BuiltinPart | handler.go:200-245 | definition: one built-in part, direct without a hook and through `appendAttr` with one |
| Render.Builtins | handler.go:195-245 | definition: the time, level, source and message parts in order |
| Render.Line | handler.go:191-263 | definition: the line `Handle` prints, or its panic |
| Render.WithAttrsPrefix | handler.go:265-280 | definition: the `attrsPrefix` of the handler `WithAttrs` derives |
| Render.WithGroupPrefixes | handler.go:282-290 | definition: the group prefix and groups of the handler `WithGroup` derives |
| Render.Calls | handler.go:314-318 | definition: the hook calls `appendAttr` makes for one attribute and its members, to the end |
| Render.CallsAll | handler.go:331-333 | definition: the hook calls for each attribute of a list in order |
| Render.LineCalls | handler.go:195-258 | definition: the hook calls of the built-ins and then of the record's attributes, to the end |
| Cli.OptionsConfig | handler.go:130-161 | definition: the settings `NewHandler` takes from the options |
| Render.Rewritten | handler.go:313-319 | the attribute `appendAttr` renders has a resolved value |
| Render.Assemble | handler.go:247-260 | a line panics with the first panicking part; otherwise it is the built-ins, the preformatted attributes and the record's attributes, with the trailing spaces trimmed |
| Render.EmitAllPanicStays | handler.go:253-257 | once an attribute panics, later attributes do not change the outcome |
| Buffers.Buffer.constructor | buffer.go:12-21 | a new buffer is empty with capacity 1024 |
| Buffers.Buffer.Free | buffer.go:23-30 | a buffer of capacity at most 16 KiB is emptied and recycled; a larger one is left alone |
| Buffers.Buffer.Reset | buffer.go:32-34 | the contents become empty and the capacity stays |
| Buffers.Buffer.Write | buffer.go:36-39 | appends exactly the given bytes and returns their count and no error |
| Buffers.Buffer.WriteString | buffer.go:41-43 | appends exactly the given bytes |
| Buffers.Buffer.WriteByte | buffer.go:45-48 | appends exactly one byte and returns no error |
| Buffers.Buffer.WritePosInt | buffer.go:50-52 | succeeds exactly for a non-negative number of at most 20 digits and then appends its digits; otherwise writes nothing |
| Buffers.Buffer.WritePosIntWidth | buffer.go:56-77 | succeeds exactly when `i >= 0` and the padded text fits the 20-byte scratch array, then appends `i` zero-padded to `width`; a panic writes nothing |
| Buffers.Buffer.String | buffer.go:79-81 | returns the contents |
| Buffers.HelloWorld | buffer_test.go:5-18 | the buffer holds "hello, world0017" |
| Cli.NeedsQuotes | handler.go:457-472 | the loop reports quoting exactly when the text is empty or has a character that forces quotes |
| Cli.AppendQuote | handler.go:443-446 | appends the quoted text |
| Cli.AppendAutoQuote | handler.go:449-455 | appends the text, quoted exactly when it needs quotes |
| Cli.NewHandler | handler.go:130-161 | a fresh handler with no prefixes or groups; the level is Info unless given, the time layout is `time.DateTime` unless given, the other options are copied |
| Cli.Handler.constructor | handler.go:115-128 | the handler's settings and accreted prefixes are the given ones |
| Cli.Handler.Clone | handler.go:163-175 | a fresh handler with the same settings and prefixes |
| Cli.Handler.SetLogLoggerLevel | handler.go:187-189 | only the minimum level changes |
| Cli.Handler.AppendANSI | handler.go:431-435 | appends the colour sequence unless colour is off |
| Cli.Handler.AppendLevel | handler.go:292-311 | appends the level token, coloured for DEBUG, WARN and ERROR, and `Level.String` for other levels |
| Cli.Handler.AppendColoured | handler.go:295-297 | appends the colour, the token and the reset, colours only when enabled |
| Cli.Handler.AppendSource | handler.go:421-429 | appends `Base(dir)/file:line` between faint and reset |
| Cli.Handler.AppendKey | handler.go:356-365 | appends `""=` for the empty key, otherwise the auto-quoted prefixed key and '=', between faint and reset |
| Cli.Handler.AppendError | handler.go:412-419 | appends the red auto-quoted prefixed key, '=' and the quoted error text |
| Cli.Handler.AppendValue | handler.go:367-410 | appends the value's text by kind, and panics exactly for a nil value |
| Cli.Handler.AppendAttr | handler.go:313-354 | appends what `Render.Emit` describes, or panics with its reason |
| Cli.Handler.AppendLeaf | handler.go:325-353 | appends what `Render.EmitLeaf` describes for a resolved non-group attribute |
| Cli.Handler.AppendAll | handler.go:253-257 | appends each attribute in order, as `Render.EmitAll` describes |
| Cli.Handler.AppendTimeBuiltin | handler.go:200-209 | the time part: nothing for the zero time, the formatted time without a hook, the hook's rewrite otherwise |
| Cli.Handler.AppendLevelBuiltin | handler.go:211-217 | the level part, directly or through the hook |
| Cli.Handler.AppendSourceBuiltin | handler.go:219-237 | the source part, only with `AddSource` and a known file |
| Cli.Handler.AppendMessageBuiltin | handler.go:239-245 | the message part, directly or through the hook |
| Cli.Handler.AppendBuiltins | handler.go:195-245 | the four built-in parts in order, stopping at the first panic |
| Cli.Handler.Handle | handler.go:191-263 | prints `Render.Line` of the handler's state and the record, and returns a nil error |
| Cli.Handler.WithAttrs | handler.go:265-280 | no attributes return the receiver; otherwise a fresh clone whose `attrsPrefix` has the attributes rendered onto it, or the panic of rendering them |
| Cli.Handler.WithGroup | handler.go:282-290 | the empty name returns the receiver; otherwise a fresh clone with `name.` added to the group prefix and `name` to the groups |
| HandlerProperties.ThenAssoc | handler.go:191-263 | appending in sequence is associative, panics included |
| HandlerProperties.EmitAllAppend | handler.go:253-257 | rendering `xs + ys` is rendering `xs` then `ys` |
| HandlerProperties.EmitAllSingle | handler.go:253-257 | rendering a one-element list is rendering the element |
| HandlerProperties.LevelTokens | handler.go:292-311 | INFO is " INFO" and never coloured; without colour DEBUG, WARN and ERROR are "DEBUG", " WARN", "ERROR"; with colour they sit between blue, yellow or red and the reset |
| HandlerProperties.KeysWithoutColour | handler.go:356-365 | without colour a key and an error key hold only printable characters; with colour the key is the same text between faint and reset |
| HandlerProperties.PlainKeyPrintable | handler.go:356-365 | a key without colour is printable |
| HandlerProperties.PlainErrorPrintable | handler.go:412-419 | an error key and value without colour are printable |
| HandlerProperties.AutoQuotePrintable | handler.go:449-455 | auto-quoted text is printable |
| HandlerProperties.EnabledThreshold | handler.go:183-185 | a handler enabled for a level is enabled for every higher level |
| HandlerProperties.DefaultOptions | handler.go:130-161 | with no options, or options with neither a level nor a time layout, DEBUG is disabled and INFO, WARN and ERROR are enabled |
| HandlerProperties.GivenOptions | handler.go:130-161 | a given level, a non-empty time layout, the colour, source and hook options are taken as given |
| HandlerProperties.GroupFlattens | handler.go:326-333 | a group renders its members under `key.` and with `key` opened, or inline for the empty key; an empty group renders nothing; the hook is called on the members, not on the group |
| HandlerProperties.WithGroupIsGroup | handler.go:282-290 | attributes logged after `WithGroup(name)` render as the group `name` holding them would |
| HandlerProperties.WithEmptyGroup | handler.go:283-285 | `WithGroup("")` changes no prefix |
| HandlerProperties.WithAttrsLikeRecordAttrs | handler.go:265-280 | a line after `WithAttrs(pre)` is the line of the record with `pre` in front of its attributes |
| HandlerProperties.AssembleShift | handler.go:247-260 | moving rendered text from the attributes to the preformatted part does not change the line |
| HandlerProperties.BuiltinsIgnoreAttrs | handler.go:195-245 | the built-in part depends only on the time, level, message, caller and group prefix |
| HandlerProperties.WithAttrsTwice | handler.go:265-280 | `WithAttrs(xs)` then `WithAttrs(ys)` gives the prefix of `WithAttrs(xs + ys)` |
| HandlerProperties.AttrsDepth | handler.go:326-333 | the nesting depth of a list bounds the depth of each member |
| HandlerProperties.EmptyAttrDropped | handler.go:321-323 | `Any("", nil)` that the hook keeps renders nothing |
| HandlerProperties.DropEverythingEmit | handler.go:80 | a hook that returns the zero attribute removes an attribute of any shape |
| HandlerProperties.DropEverythingEmitAll | handler.go:80 | such a hook removes every attribute of a list |
| HandlerProperties.DropEverythingBuiltins | handler.go:195-245 | such a hook removes the built-in part |
| HandlerProperties.DropEverythingLine | handler_test.go:170-174 | such a hook makes `WithAttrs` add nothing and, without preformatted text, the line empty |
| HandlerProperties.CallsShape | handler.go:78-88 | every hook call receives a resolved value and the open groups extended by the enclosing groups |
| HandlerProperties.CallsAllShape | handler.go:78-88 | the same for every attribute of a list |
| HandlerProperties.OwnCall | handler.go:314-318 | the first call for a non-group attribute is on that attribute, resolved, with the open groups |
| HandlerProperties.NoHookNoCalls | handler.go:314 | without a hook there are no calls |
| HandlerProperties.LogValuerGroupReachesHook | handler.go:314-318 | a LogValuer that resolves to a group reaches the hook as that group |
| HandlerProperties.PlainCall | handler.go:314-318 | an ordinary attribute causes exactly one call, with the open groups |
| HandlerProperties.HookSeesOpenGroups | handler.go:90-97 | `a`, `g{b}`, `c` cause the calls `(gs, a)`, `(gs + [g], b)`, `(gs, c)` |
| HandlerProperties.ReplaceAttrGroupsExample | handler.go:90-97 | the calls under the groups g1 and g2 opened by `WithGroup` |
| HandlerProperties.BuiltinCalls | handler.go:82-84 | the built-ins reach the hook as time, level and message, with no open groups |
| HandlerProperties.ReservedKeysIgnoreCase | handler.go:325-345 | keys equal up to case that lower-case to a reserved key render the same |
| HandlerProperties.UpperCaseKeysReserved | handler_test.go:164-168 | an upper-cased reserved key still lower-cases to that reserved key |
| HandlerProperties.ReservedKeyValues | handler.go:334-345 | `time`, `level` and `source` print their value without the key and panic on any other type; `msg` prints the value's `String` form |
| HandlerProperties.ReservedKeysLower | handler.go:325 | the reserved keys are lower case and distinct |
| HandlerProperties.UserTimeAttr | handler.go:334-336 | a user attribute `time` without a hook prints as the built-in time does |
| HandlerProperties.NilValueAttr | handler.go:399-401 | a nil value under a non-empty ordinary key panics; under the empty key it is dropped |
| HandlerProperties.PlainLeaf | handler.go:349-353 | an ordinary attribute prints as key, value and a space |
| HandlerProperties.StringValueRoundTrip | handler.go:369-370 | a string value prints quoted and unquotes back |
| HandlerProperties.IntegerValueRoundTrip | handler.go:371-374 | signed and unsigned integers print as decimal digits that read back |
| HandlerProperties.BytesValueRoundTrip | handler.go:395-396 | a byte slice prints auto-quoted and reads back |
| HandlerProperties.OtherValues | handler.go:386-392 | a failing `MarshalText` prints the key with no value; a succeeding one prints the quoted text |
| HandlerProperties.FailedMarshaler | handler.go:388-391 | a failing `MarshalText` prints only the key |
| HandlerProperties.OtherValue | handler.go:397-407 | any other value prints as `"%s"` between quotes |
| HandlerProperties.SourcePathKeepsLastDirectory | handler.go:422-425 | for a file in at least one directory, with no empty, "." or ".." element, the printed path is the last directory, '/' and the file name |
| HandlerProperties.SourcePathExample | handler.go:422-425 | "a/b/c.go" prints as "b/c.go" |
| HandlerProperties.SourcePathNoDirectory | handler.go:422-425 | a file name without a directory prints as itself |
| HandlerScenarios.RemoveReservedKeepsOrdinary | handler_test.go:377-386 | `removeKeys` of reserved keys keeps every other attribute |
| HandlerScenarios.EmitAllOfTwo | handler.go:253-257 | a two-attribute list renders its attributes in order |
| HandlerScenarios.EmitAllOfThree | handler.go:253-257 | a three-attribute list renders its attributes in order |
| HandlerScenarios.Leaf | handler.go:349-353 | an ordinary attribute with a key that needs no quotes prints as `prefix + key = value ` |
| HandlerScenarios.PlainBuiltins | handler.go:200-245 | without hook and source, the built-ins are the time unless zero, the level and the message, each with a space |
| HandlerScenarios.RemovedBuiltins | handler.go:206-245 | `removeKeys` of time and level keeps only the message, or nothing when the message key is removed too |
| HandlerScenarios.NoAttrsLine | handler_test.go:62-64 | " INFO message" |
| HandlerScenarios.AttrsLine | handler_test.go:66-69 | " INFO message a=1 b=\"two\"" |
| HandlerScenarios.PreformattedLine | handler_test.go:71-75 | `WithAttrs(pre=0)` renders "pre=0 " and the line is " INFO message pre=0 a=1 b=\"two\"" |
| HandlerScenarios.GroupsAttrs | handler_test.go:77-86 | the nested groups render as "a=1 g.b=2 g.h.c=3 g.d=4 e=5 " |
| HandlerScenarios.GroupsLine | handler_test.go:77-87 | " INFO message a=1 g.b=2 g.h.c=3 g.d=4 e=5" |
| HandlerScenarios.GroupLine | handler_test.go:89-93 | `WithGroup("s")` after `WithAttrs(pre=0)` gives " INFO message pre=0 s.a=1 s.b=\"two\"" |
| HandlerScenarios.PreformattedGroupsPrefixes | handler_test.go:95-101 | the prefixes after `WithAttrs(p1=1)`, `WithGroup("s1")`, `WithAttrs(p2=2)`, `WithGroup("s2")` |
| HandlerScenarios.PreformattedGroupsLine | handler_test.go:95-104 | " INFO message p1=1 s1.p2=2 s1.s2.a=1 s1.s2.b=\"two\"" |
| HandlerScenarios.TwoWithGroupsLine | handler_test.go:106-114 | " INFO message p1=1 s1.s2.a=1 s1.s2.b=\"two\"" |
| HandlerScenarios.CliAttrsEmit | handler_test.go:141 | `a="one"`, `b=2` and `Any("", nil)` render as `a="one" b=2 ` |
| HandlerScenarios.RemoveBuiltinLine | handler_test.go:204-208 | removing the time, level and message keys gives `a="one" b=2` |
| HandlerScenarios.EmptyGroupLine | handler_test.go:230-234 | an empty group disappears: "message h.a=1" |
| HandlerScenarios.InlineGroupLine | handler_test.go:317-325 | a group with the empty key adds no prefix: "message a=1 b=2 c=3 d=4" |

## Left out

- The output writer: `colorable.NewColorable` for terminals, the
  `log.Logger` that adds the newline, and the inner `slog.TextHandler`.
  `Handle` returns the line and the logger is not modelled.
- `SetAsDefault` (handler.go:177-181) and the files cli.go and cli-log.go,
  which only install the handler as the default logger.
- `sync.Pool` (buffer.go:12-21): `newBuffer` is a fresh buffer of capacity
  1024, and `Free` reports whether the buffer would be recycled. Go's
  slice growth is modelled as doubling to at least the needed length.
- Concurrency, the `context.Context` arguments, and a dynamic
  `slog.Leveler`. The level is read once, as when a `LevelVar` does not
  change.
- Time, duration, float and `Level.String` formatting, `fmt`'s `%s`/`%+v`
  forms, `err.Error()` and `MarshalText`. They are functions of a `Foreign`
  parameter, or data of the value.
- Non-ASCII text. Keys and values are ASCII, so the check for U+0085 and
  U+00A0 in `needsQuotes` and Unicode escapes in `strconv.Quote` do not
  arise.
- The `reflect.TypeOf` test of `appendValue` (handler.go:399-407). A value
  of any other type is `OtherAny` with its `%s` text, and a nil interface
  is `Nil`.
- Render.Emit: nesting deeper than `MaxDepth` (10000) groups ends in
  `Panic(StackExhausted)`. It stands for Go's stack overflow, since a hook
  can build groups without bound.
- Cli.Handler.WithGroup: Go's `append(h2.groups, name)` may share the
  parent's backing array between sibling handlers, so the hook of one could
  see the other's group name. The model keeps `groups` as a value and does
  not capture that aliasing.
- `r.Time.Round(0)` (handler.go:202) strips the monotonic clock reading.
  Times here have no monotonic reading.
- Buffers.Buffer.WritePosIntWidth: `i` and `width` are Go `int`s of 64
  bits and are unbounded here. The wrap of `width--` at `math.MinInt64` is
  not modelled: for a width at most `math.MinInt64 + DigitCount(i) - 2`, Go's
  loop runs on until the scratch index goes below 0 and panics, while the
  model appends the digits.
- Buffers.Buffer.WritePosInt: `i` is unbounded here. The 20-digit overflow
  that makes it return `false` for a non-negative `i` cannot happen for a Go
  `int`, whose largest value has 19 digits.
- Render.LineCalls: it lists the calls of every part rendered to the end.
  When a part panics, Go makes no later call, and the list does not stop
  there.
- The hook is a pure function: a hook with side effects, or one that keeps
  the groups slice, is not modelled.
