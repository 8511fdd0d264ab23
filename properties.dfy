/** What the handler promises, stated about the functions of module Render:
    the layout of a line, level tokens and colour, group flattening, dropped
    attributes, the calls the rewrite hook receives, reserved keys, quoting
    and value rendering, and how derived handlers relate to records. */
module HandlerProperties {
  import opened Text
  import opened Decimal
  import opened Quoting
  import opened Slog
  import opened Render
  import Cli

  // ---- composition ----

  lemma ThenAssoc(a: Outcome<Text>, b: Outcome<Text>, d: Outcome<Text>)
    ensures Then(Then(a, b), d) == Then(a, Then(b, d))
  {
    if a.Done? && b.Done? && d.Done? {
      assert a.value + b.value + d.value == a.value + (b.value + d.value);
    }
  }

  /** Rendering a concatenation of attribute lists renders one list after
      the other; a panic in the first list stops the second. */
  lemma {:induction false} EmitAllAppend(c: Config, xs: seq<Attr>, ys: seq<Attr>, prefix: Text, groups: seq<Text>, fuel: nat)
    ensures EmitAll(c, xs + ys, prefix, groups, fuel)
      == Then(EmitAll(c, xs, prefix, groups, fuel), EmitAll(c, ys, prefix, groups, fuel))
    decreases |ys|
  {
    if ys == [] {
      assert xs + ys == xs;
      var e := EmitAll(c, xs, prefix, groups, fuel);
      if e.Done? {
        assert e.value + [] == e.value;
      }
    } else {
      var zs := xs + ys;
      var init, last := ys[..|ys| - 1], ys[|ys| - 1];
      assert zs[..|zs| - 1] == xs + init;
      assert zs[|zs| - 1] == last;
      var x, i, l := EmitAll(c, xs, prefix, groups, fuel), EmitAll(c, init, prefix, groups, fuel),
        Emit(c, last, prefix, groups, fuel);
      assert EmitAll(c, zs, prefix, groups, fuel) == Then(EmitAll(c, xs + init, prefix, groups, fuel), l);
      assert EmitAll(c, ys, prefix, groups, fuel) == Then(i, l);
      EmitAllAppend(c, xs, init, prefix, groups, fuel);
      ThenAssoc(x, i, l);
    }
  }

  /** `EmitAll` of one attribute is `Emit` of it. */
  lemma EmitAllSingle(c: Config, a: Attr, prefix: Text, groups: seq<Text>, fuel: nat)
    ensures EmitAll(c, [a], prefix, groups, fuel) == Emit(c, a, prefix, groups, fuel)
  {
    assert [a][..0] == [];
    var e := Emit(c, a, prefix, groups, fuel);
    if e.Done? {
      assert [] + e.value == e.value;
    }
  }

  // ---- levels and colour ----

  /** The level tokens: five characters for the four named levels, in
      blue, yellow and red for DEBUG, WARN and ERROR when colour is on;
      INFO is never coloured; other levels print `Level.String()`. */
  lemma LevelTokens(c: Config)
    ensures LevelText(c, LevelInfo) == " INFO"
    ensures c.noColor ==>
      LevelText(c, LevelDebug) == "DEBUG" && LevelText(c, LevelWarn) == " WARN" && LevelText(c, LevelError) == "ERROR"
    ensures !c.noColor ==>
      LevelText(c, LevelDebug) == FgBlue + "DEBUG" + Reset
      && LevelText(c, LevelWarn) == FgYellow + " WARN" + Reset
      && LevelText(c, LevelError) == FgRed + "ERROR" + Reset
    ensures forall l :: l !in {LevelDebug, LevelInfo, LevelWarn, LevelError} ==> LevelText(c, l) == c.foreign.levelString(l)
  {
  }

  /** Without colour, keys and error keys are printable text: no escape
      sequence can appear in them. With colour, a key is wrapped in the
      faint sequence and the reset sequence. */
  lemma KeysWithoutColour(key: Text, prefix: Text, message: Text)
    ensures Printable(KeyText(true, key, prefix))
    ensures Printable(ErrorText(true, message, key, prefix))
    ensures KeyText(false, key, prefix) == Faint + KeyText(true, key, prefix) + Reset
  {
    PlainKeyPrintable(key, prefix);
    PlainErrorPrintable(key, prefix, message);
    var nothing: Text := [];
    var q: Text := if |key| == 0 then EmptyKey else AutoQuote(prefix + key);
    assert KeyText(true, key, prefix) == nothing + q + "=" + nothing == q + "=";
    assert KeyText(false, key, prefix) == Faint + q + "=" + Reset;
  }

  lemma PlainKeyPrintable(key: Text, prefix: Text)
    ensures Printable(KeyText(true, key, prefix))
  {
    var nothing: Text := [];
    var q: Text := if |key| == 0 then EmptyKey else AutoQuote(prefix + key);
    AutoQuotePrintable(prefix + key);
    assert Printable(EmptyKey) && Printable("=");
    assert KeyText(true, key, prefix) == nothing + q + "=" + nothing == q + "=";
    PrintableConcat(q, "=");
  }

  lemma PlainErrorPrintable(key: Text, prefix: Text, message: Text)
    ensures Printable(ErrorText(true, message, key, prefix))
  {
    var nothing: Text := [];
    var a := AutoQuote(prefix + key);
    AutoQuotePrintable(prefix + key);
    QuotePrintable(message);
    assert Printable("=");
    assert ErrorText(true, message, key, prefix) == nothing + nothing + a + "=" + nothing + Quote(message);
    assert nothing + nothing + a + "=" + nothing + Quote(message) == a + "=" + Quote(message);
    PrintableConcat(a, "=");
    PrintableConcat(a + "=", Quote(message));
  }

  /** Auto-quoted text is printable. */
  lemma AutoQuotePrintable(s: Text)
    ensures Printable(AutoQuote(s))
  {
    NeedsQuotesIff(s);
    if NeedsQuotes(s) {
      QuotePrintable(s);
    } else {
      forall i | 0 <= i < |s| ensures IsPrint(s[i]) {
        assert !ForcesQuotes(s[i]);
      }
    }
  }

  /** `Enabled` is a threshold: it holds from the configured level up. */
  lemma EnabledThreshold(c: Config, l: Level, m: Level)
    requires Enabled(c, l) && l <= m
    ensures Enabled(c, m)
  {
  }

  /** A handler built without a level logs INFO, WARN and ERROR but not
      DEBUG, and a handler built without a time format uses `time.DateTime`. */
  lemma DefaultOptions(opts: Option<Cli.HandlerOptions>, f: Foreign)
    requires opts.None? || (opts.value.level.None? && opts.value.timeFormat == [])
    ensures !Enabled(Cli.OptionsConfig(opts, f), LevelDebug)
    ensures Enabled(Cli.OptionsConfig(opts, f), LevelInfo) && Enabled(Cli.OptionsConfig(opts, f), LevelWarn)
      && Enabled(Cli.OptionsConfig(opts, f), LevelError)
    ensures Cli.OptionsConfig(opts, f).timeFormat == "2006-01-02 15:04:05"
    ensures opts.None? ==>
      Cli.OptionsConfig(opts, f).replaceAttr.None? && !Cli.OptionsConfig(opts, f).noColor
      && !Cli.OptionsConfig(opts, f).addSource
  {
  }

  /** Options that are given override the defaults. */
  lemma GivenOptions(o: Cli.HandlerOptions, f: Foreign)
    ensures o.level.Some? ==> Cli.OptionsConfig(Some(o), f).level == o.level.value
    ensures o.timeFormat != [] ==> Cli.OptionsConfig(Some(o), f).timeFormat == o.timeFormat
    ensures Cli.OptionsConfig(Some(o), f).noColor == o.noColor && Cli.OptionsConfig(Some(o), f).addSource == o.addSource
    ensures Cli.OptionsConfig(Some(o), f).replaceAttr == o.replaceAttr
  {
  }

  // ---- groups ----

  /** A group attribute is not passed to the hook: with a non-empty key its
      members render with `key.` added to the prefix and the key added to
      the open groups; with the empty key they render inline; an empty
      group renders nothing; with no nesting left it panics. */
  lemma GroupFlattens(c: Config, key: Text, members: seq<Attr>, prefix: Text, groups: seq<Text>, fuel: nat)
    ensures Emit(c, Attr(key, GroupValue(members)), prefix, groups, fuel + 1)
      == EmitAll(c, members, if key == [] then prefix else prefix + key + ".", if key == [] then groups else groups + [key], fuel)
    ensures Calls(c, Attr(key, GroupValue(members)), groups, fuel + 1)
      == CallsAll(c, members, if key == [] then groups else groups + [key], fuel)
    ensures members == [] ==> Emit(c, Attr(key, GroupValue(members)), prefix, groups, fuel + 1) == Done([])
    ensures Emit(c, Attr(key, GroupValue(members)), prefix, groups, 0) == Panic(StackExhausted)
  {
    assert Rewritten(c, Attr(key, GroupValue(members)), groups) == Attr(key, GroupValue(members));
  }

  /** Inside `WithGroup(name)` attributes render, and reach the hook, as the
      members of a group attribute named `name` would; the attributes
      already added stay as they were. */
  lemma WithGroupIsGroup(c: Config, p: Prefixes, name: Text, attrs: seq<Attr>, fuel: nat)
    requires name != []
    ensures WithGroupPrefixes(p, name).attrsPrefix == p.attrsPrefix
    ensures EmitAll(c, attrs, WithGroupPrefixes(p, name).groupPrefix, WithGroupPrefixes(p, name).groups, fuel)
      == Emit(c, Attr(name, GroupValue(attrs)), p.groupPrefix, p.groups, fuel + 1)
    ensures CallsAll(c, attrs, WithGroupPrefixes(p, name).groups, fuel)
      == Calls(c, Attr(name, GroupValue(attrs)), p.groups, fuel + 1)
  {
    GroupFlattens(c, name, attrs, p.groupPrefix, p.groups, fuel);
  }

  /** `WithGroup("")` changes nothing. */
  lemma WithEmptyGroup(p: Prefixes)
    ensures WithGroupPrefixes(p, []) == p
  {
  }

  // ---- derived handlers ----

  /** A handler derived by `WithAttrs(pre)` prints what its parent prints
      for the record with `pre` put before the record's own attributes. */
  lemma WithAttrsLikeRecordAttrs(c: Config, p: Prefixes, pre: seq<Attr>, r: Record)
    requires WithAttrsPrefix(c, p, pre).Done?
    ensures Line(c, p.(attrsPrefix := WithAttrsPrefix(c, p, pre).value), r) == Line(c, p, r.(attrs := pre + r.attrs))
  {
    var p2 := p.(attrsPrefix := WithAttrsPrefix(c, p, pre).value);
    var r2 := r.(attrs := pre + r.attrs);
    BuiltinsIgnoreAttrs(c, p2, p, r, r2);
    var b := Builtins(c, p, r2);
    var e1 := EmitAll(c, pre, p.groupPrefix, p.groups, MaxDepth);
    var e2 := EmitAll(c, r.attrs, p.groupPrefix, p.groups, MaxDepth);
    EmitAllAppend(c, pre, r.attrs, p.groupPrefix, p.groups, MaxDepth);
    assert p2.attrsPrefix == p.attrsPrefix + e1.value;
    assert EmitAll(c, r2.attrs, p.groupPrefix, p.groups, MaxDepth) == Then(e1, e2);
    assert Line(c, p2, r) == Assemble(b, p2.attrsPrefix, e2);
    assert Line(c, p, r2) == Assemble(b, p.attrsPrefix, Then(e1, e2));
    AssembleShift(b, p.attrsPrefix, e1, e2);
  }

  lemma AssembleShift(b: Outcome<Text>, x: Text, e1: Outcome<Text>, e2: Outcome<Text>)
    requires e1.Done?
    ensures Assemble(b, x + e1.value, e2) == Assemble(b, x, Then(e1, e2))
  {
    if b.Done? && e2.Done? {
      assert b.value + (x + e1.value) + e2.value == b.value + x + (e1.value + e2.value);
    }
  }

  /** The built-in attributes depend on the handler only through its group
      prefix, and not on the record's attributes. */
  lemma BuiltinsIgnoreAttrs(c: Config, p: Prefixes, q: Prefixes, r: Record, s: Record)
    requires p.groupPrefix == q.groupPrefix
    requires r.time == s.time && r.level == s.level && r.message == s.message && r.caller == s.caller
    ensures Builtins(c, p, r) == Builtins(c, q, s)
  {
  }

  /** Two `WithAttrs` calls add what one call with both lists adds. */
  lemma WithAttrsTwice(c: Config, p: Prefixes, xs: seq<Attr>, ys: seq<Attr>)
    requires WithAttrsPrefix(c, p, xs).Done?
    ensures WithAttrsPrefix(c, p.(attrsPrefix := WithAttrsPrefix(c, p, xs).value), ys) == WithAttrsPrefix(c, p, xs + ys)
  {
    EmitAllAppend(c, xs, ys, p.groupPrefix, p.groups, MaxDepth);
    var e1 := EmitAll(c, xs, p.groupPrefix, p.groups, MaxDepth);
    var e2 := EmitAll(c, ys, p.groupPrefix, p.groups, MaxDepth);
    if e2.Done? {
      assert p.attrsPrefix + e1.value + e2.value == p.attrsPrefix + (e1.value + e2.value);
    }
  }

  // ---- dropped attributes ----

  /** Nesting depth of groups in a value, looking through LogValuers. */
  function ValueDepth(v: Value): nat
    decreases v
  {
    match v
    case GroupValue(members) => 1 + AttrsDepth(members)
    case LogValuerValue(_, w) => ValueDepth(w)
    case _ => 0
  }

  function AttrsDepth(attrs: seq<Attr>): (d: nat)
    decreases attrs
    ensures forall i :: 0 <= i < |attrs| ==> ValueDepth(attrs[i].value) <= d
  {
    if attrs == [] then 0 else Max(AttrsDepth(attrs[..|attrs| - 1]), ValueDepth(attrs[|attrs| - 1].value))
  }

  /** A hook that returns the zero attribute for everything. */
  ghost predicate DropsEverything(c: Config)
  {
    c.replaceAttr.Some? && forall gs, a :: c.replaceAttr.value(gs, a) == EmptyAttr
  }

  /** `slog.Any("", nil)` renders nothing, with or without a hook that keeps it. */
  lemma EmptyAttrDropped(c: Config, prefix: Text, groups: seq<Text>, fuel: nat)
    requires c.replaceAttr.None? || c.replaceAttr.value(groups, EmptyAttr) == EmptyAttr
    ensures Emit(c, EmptyAttr, prefix, groups, fuel) == Done([])
  {
  }

  lemma {:induction false} DropEverythingEmit(c: Config, a: Attr, prefix: Text, groups: seq<Text>, fuel: nat)
    requires DropsEverything(c) && ValueDepth(a.value) <= fuel
    ensures Emit(c, a, prefix, groups, fuel) == Done([])
    decreases fuel, 0
  {
    if a.value.GroupValue? {
      assert Rewritten(c, a, groups) == a;
      DropEverythingEmitAll(c, a.value.attrs, GroupPrefix(prefix, a.key), OpenGroups(groups, a.key), fuel - 1);
    } else {
      assert Rewritten(c, a, groups) == EmptyAttr;
    }
  }

  lemma {:induction false} DropEverythingEmitAll(c: Config, attrs: seq<Attr>, prefix: Text, groups: seq<Text>, fuel: nat)
    requires DropsEverything(c) && AttrsDepth(attrs) <= fuel
    ensures EmitAll(c, attrs, prefix, groups, fuel) == Done([])
    decreases fuel, |attrs| + 1
  {
    if attrs != [] {
      DropEverythingEmitAll(c, attrs[..|attrs| - 1], prefix, groups, fuel);
      DropEverythingEmit(c, attrs[|attrs| - 1], prefix, groups, fuel);
      var nothing: Text := []; assert nothing + nothing == nothing;
    }
  }

  /** A hook that drops every attribute drops the built-in attributes too. */
  lemma DropEverythingBuiltins(c: Config, p: Prefixes, r: Record)
    requires DropsEverything(c)
    ensures Builtins(c, p, r) == Done([])
  {
    var t := Attr(TimeKey, TimeValue(r.time));
    var l := Attr(LevelKey, AnyValue(LevelAny(r.level)));
    var src := Attr(SourceKey, AnyValue(SourceAny(r.caller)));
    var m := Attr(MessageKey, StringValue(r.message));
    DropEverythingEmit(c, t, p.groupPrefix, [], MaxDepth);
    DropEverythingEmit(c, l, p.groupPrefix, [], MaxDepth);
    DropEverythingEmit(c, src, p.groupPrefix, [], MaxDepth);
    DropEverythingEmit(c, m, p.groupPrefix, [], MaxDepth);
    var nothing: Text := [];
    assert nothing + nothing == nothing;
  }

  /** A hook that drops every attribute leaves an empty line, also for a
      handler whose `WithAttrs` attributes went through the same hook. */
  lemma DropEverythingLine(c: Config, p: Prefixes, pre: seq<Attr>, r: Record)
    requires DropsEverything(c) && AttrsDepth(pre) <= MaxDepth && AttrsDepth(r.attrs) <= MaxDepth
    ensures WithAttrsPrefix(c, p, pre) == Done(p.attrsPrefix)
    ensures p.attrsPrefix == [] ==> Line(c, p, r) == Done([])
  {
    DropEverythingEmitAll(c, pre, p.groupPrefix, p.groups, MaxDepth);
    DropEverythingEmitAll(c, r.attrs, p.groupPrefix, p.groups, MaxDepth);
    DropEverythingBuiltins(c, p, r);
    assert p.attrsPrefix + [] == p.attrsPrefix;
    assert TrimRight([]) == [];
  }

  // ---- the hook ----

  /** Every call of the hook receives a resolved value and the groups open
      where the attribute sits, which extend the groups open at the start. */
  lemma {:induction false} CallsShape(c: Config, attr: Attr, groups: seq<Text>, fuel: nat)
    ensures forall k :: 0 <= k < |Calls(c, attr, groups, fuel)| ==>
      IsResolved(Calls(c, attr, groups, fuel)[k].attr.value) && groups <= Calls(c, attr, groups, fuel)[k].groups
    decreases fuel, 0
  {
    var a := Rewritten(c, attr, groups);
    if !IsEmptyAttr(a) && a.value.GroupValue? && fuel > 0 {
      CallsAllShape(c, a.value.attrs, OpenGroups(groups, a.key), fuel - 1);
    }
  }

  lemma {:induction false} CallsAllShape(c: Config, attrs: seq<Attr>, groups: seq<Text>, fuel: nat)
    ensures forall k :: 0 <= k < |CallsAll(c, attrs, groups, fuel)| ==>
      IsResolved(CallsAll(c, attrs, groups, fuel)[k].attr.value) && groups <= CallsAll(c, attrs, groups, fuel)[k].groups
    decreases fuel, |attrs| + 1
  {
    if attrs != [] {
      CallsAllShape(c, attrs[..|attrs| - 1], groups, fuel);
      CallsShape(c, attrs[|attrs| - 1], groups, fuel);
    }
  }

  /** With a hook, an attribute whose kind is not group is the first thing
      passed to it, resolved and with the open groups; when what the hook
      returns does not resolve to a group, that is the only call. */
  lemma OwnCall(c: Config, attr: Attr, groups: seq<Text>, fuel: nat)
    requires c.replaceAttr.Some? && !attr.value.GroupValue?
    ensures |Calls(c, attr, groups, fuel)| >= 1
    ensures Calls(c, attr, groups, fuel)[0] == Call(groups, attr.(value := Resolve(attr.value)))
    ensures !Rewritten(c, attr, groups).value.GroupValue? ==>
      Calls(c, attr, groups, fuel) == [Call(groups, attr.(value := Resolve(attr.value)))]
  {
  }

  /** Without a hook nothing is called. */
  lemma {:induction false} NoHookNoCalls(c: Config, attrs: seq<Attr>, groups: seq<Text>, fuel: nat)
    requires c.replaceAttr.None?
    ensures CallsAll(c, attrs, groups, fuel) == []
    decreases fuel, |attrs| + 1
  {
    if attrs != [] {
      NoHookNoCalls(c, attrs[..|attrs| - 1], groups, fuel);
      var x := attrs[|attrs| - 1];
      var a := Rewritten(c, x, groups);
      if !IsEmptyAttr(a) && a.value.GroupValue? && fuel > 0 {
        NoHookNoCalls(c, a.value.attrs, OpenGroups(groups, a.key), fuel - 1);
      }
    }
  }

  /** Contrary to the comment on `ReplaceAttr`, the kind is checked before
      resolving: a LogValuer whose value is a group reaches the hook, as a
      group. */
  lemma LogValuerGroupReachesHook(c: Config, key: Text, t: Text, members: seq<Attr>, groups: seq<Text>, fuel: nat)
    requires c.replaceAttr.Some?
    ensures Calls(c, Attr(key, LogValuerValue(t, GroupValue(members))), groups, fuel)[0]
      == Call(groups, Attr(key, GroupValue(members)))
  {
  }

  /** A hook that returns what it is given. */
  ghost predicate IdentityHook(c: Config)
  {
    c.replaceAttr.Some? && forall gs, a :: c.replaceAttr.value(gs, a) == a
  }

  predicate IsPlain(a: Attr)
  {
    IsResolved(a.value) && !a.value.GroupValue? && !IsEmptyAttr(a)
  }

  lemma PlainCall(c: Config, a: Attr, groups: seq<Text>, fuel: nat)
    requires IdentityHook(c) && IsPlain(a)
    ensures Calls(c, a, groups, fuel) == [Call(groups, a)]
  {
    assert Rewritten(c, a, groups) == a;
  }

  /** The hook sees a group's members with the group's name added to the
      open groups, and the attributes around the group without it. */
  lemma HookSeesOpenGroups(c: Config, groups: seq<Text>, x: Attr, g: Text, y: Attr, z: Attr)
    requires IdentityHook(c) && g != [] && IsPlain(x) && IsPlain(y) && IsPlain(z)
    ensures CallsAll(c, [x, Attr(g, GroupValue([y])), z], groups, MaxDepth)
      == [Call(groups, x), Call(groups + [g], y), Call(groups, z)]
  {
    var gy := Attr(g, GroupValue([y]));
    PlainCall(c, x, groups, MaxDepth);
    PlainCall(c, y, groups + [g], MaxDepth - 1);
    PlainCall(c, z, groups, MaxDepth);
    assert Rewritten(c, gy, groups) == gy;
    assert CallsAll(c, [y], groups + [g], MaxDepth - 1) == [Call(groups + [g], y)] by {
      assert [y][..0] == [];
    }
    assert Calls(c, gy, groups, MaxDepth) == [Call(groups + [g], y)];
    assert [x, gy, z][..2] == [x, gy];
    assert [x, gy][..1] == [x];
    assert [x][..0] == [];
    assert CallsAll(c, [x], groups, MaxDepth) == [Call(groups, x)];
    assert CallsAll(c, [x, gy], groups, MaxDepth) == [Call(groups, x), Call(groups + [g], y)];
  }

  /** The calls `TestReplaceAttrGroups` expects for the record's own
      attributes, under `WithGroup("g1")` and `WithGroup("g2")`. */
  lemma ReplaceAttrGroupsExample(c: Config)
    requires IdentityHook(c)
    ensures WithGroupPrefixes(WithGroupPrefixes(Prefixes([], [], []), "g1"), "g2").groups == ["g1", "g2"]
    ensures CallsAll(c, [Attr("f", Int64Value(6)), Attr("g4", GroupValue([Attr("h", Int64Value(7))])), Attr("i", Int64Value(8))],
      ["g1", "g2"], MaxDepth)
      == [Call(["g1", "g2"], Attr("f", Int64Value(6))), Call(["g1", "g2", "g4"], Attr("h", Int64Value(7))),
          Call(["g1", "g2"], Attr("i", Int64Value(8)))]
  {
    HookSeesOpenGroups(c, ["g1", "g2"], Attr("f", Int64Value(6)), "g4", Attr("h", Int64Value(7)), Attr("i", Int64Value(8)));
    assert ["g1", "g2"] + ["g4"] == ["g1", "g2", "g4"];
  }

  /** The built-in attributes reach the hook with no open groups, in the
      order time, level, source, message. */
  lemma BuiltinCalls(c: Config, r: Record)
    requires IdentityHook(c) && !r.time.IsZero() && !c.addSource
    ensures CallsAll(c, BuiltinAttrs(c, r), [], MaxDepth)
      == [Call([], Attr(TimeKey, TimeValue(r.time))), Call([], Attr(LevelKey, AnyValue(LevelAny(r.level)))),
          Call([], Attr(MessageKey, StringValue(r.message)))]
  {
    var t := Attr(TimeKey, TimeValue(r.time));
    var l := Attr(LevelKey, AnyValue(LevelAny(r.level)));
    var m := Attr(MessageKey, StringValue(r.message));
    assert BuiltinAttrs(c, r) == [t, l, m];
    PlainCall(c, t, [], MaxDepth);
    PlainCall(c, l, [], MaxDepth);
    PlainCall(c, m, [], MaxDepth);
    assert [t, l, m][..2] == [t, l];
    assert [t, l][..1] == [t];
    assert [t][..0] == [];
    assert CallsAll(c, [t], [], MaxDepth) == [Call([], t)];
    assert CallsAll(c, [t, l], [], MaxDepth) == [Call([], t), Call([], l)];
  }

  // ---- reserved keys ----

  const ReservedKeys: set<Text> := {TimeKey, LevelKey, SourceKey, MessageKey}

  /** A reserved key is recognised in any letter case; how it is spelled
      and the group prefix it sits under do not show in the output. */
  lemma ReservedKeysIgnoreCase(c: Config, k1: Text, k2: Text, v: Value, prefix1: Text, prefix2: Text)
    requires ToLower(k1) == ToLower(k2) && ToLower(k1) in ReservedKeys
    ensures EmitLeaf(c, Attr(k1, v), prefix1) == EmitLeaf(c, Attr(k2, v), prefix2)
  {
  }

  /** Upper-casing a reserved key, as the tests' `upperCaseKey` hook does
      ("TIME", "LEVEL", "SOURCE", "MSG"), leaves a key that lower-cases to
      the same built-in key, so the built-in rendering still applies. */
  lemma UpperCaseKeysReserved(k: Text)
    requires k in ReservedKeys
    ensures ToLower(ToUpper(k)) == k
  {
    assert ToLower(k) == k by {
      ReservedKeysLower();
      assert k == TimeKey || k == LevelKey || k == SourceKey || k == MessageKey;
    }
    LowerFixedPoint(k);
  }

  /** A reserved key demands its value's type: time, level and source
      render without their key and panic on any other type; msg renders
      any value by its `String` form. */
  lemma ReservedKeyValues(c: Config, v: Value, prefix: Text)
    ensures EmitLeaf(c, Attr(TimeKey, v), prefix)
      == if v.TimeValue? then Done(c.foreign.formatTime(v.t, c.timeFormat) + " ") else Panic(NotTime)
    ensures EmitLeaf(c, Attr(LevelKey, v), prefix)
      == if v.AnyValue? && v.any.LevelAny? then Done(LevelText(c, v.any.level) + " ") else Panic(NotLevel)
    ensures EmitLeaf(c, Attr(SourceKey, v), prefix)
      == if v.AnyValue? && v.any.SourceAny? then Done(SourceText(c.noColor, v.any.source) + " ") else Panic(NotSource)
    ensures EmitLeaf(c, Attr(MessageKey, v), prefix) == Done(ValueString(c.foreign, v) + " ")
  {
    ReservedKeysLower();
  }

  /** The reserved keys are lower case and distinct. */
  lemma ReservedKeysLower()
    ensures ToLower(TimeKey) == TimeKey && ToLower(LevelKey) == LevelKey
    ensures ToLower(SourceKey) == SourceKey && ToLower(MessageKey) == MessageKey
    ensures TimeKey != LevelKey && TimeKey != SourceKey && TimeKey != MessageKey
    ensures LevelKey != SourceKey && LevelKey != MessageKey && SourceKey != MessageKey
  {
    LowerIdentity(TimeKey);
    LowerIdentity(LevelKey);
    LowerIdentity(SourceKey);
    LowerIdentity(MessageKey);
  }

  /** A user attribute named `time` prints exactly as the record's own time
      does when there is no hook: formatted, unquoted and without its key. */
  lemma UserTimeAttr(c: Config, p: Prefixes, t: Time, groups: seq<Text>, fuel: nat)
    requires c.replaceAttr.None?
    ensures Emit(c, Attr(TimeKey, TimeValue(t)), p.groupPrefix, groups, fuel)
      == BuiltinPart(c, p, true, Attr(TimeKey, TimeValue(t)), c.foreign.formatTime(t, c.timeFormat) + " ")
  {
    assert Rewritten(c, Attr(TimeKey, TimeValue(t)), groups) == Attr(TimeKey, TimeValue(t));
  }

  /** A nil value under a non-empty, non-reserved key panics; under the
      empty key it is the dropped empty attribute. */
  lemma NilValueAttr(c: Config, k: Text, prefix: Text, groups: seq<Text>, fuel: nat)
    requires c.replaceAttr.None? && ToLower(k) !in ReservedKeys
    ensures k != [] ==> Emit(c, Attr(k, AnyValue(Nil)), prefix, groups, fuel) == Panic(NilValue)
    ensures k == [] ==> Emit(c, Attr(k, AnyValue(Nil)), prefix, groups, fuel) == Done([])
  {
    assert Rewritten(c, Attr(k, AnyValue(Nil)), groups) == Attr(k, AnyValue(Nil));
  }

  // ---- values ----

  /** What an ordinary attribute that the hook, if any, keeps renders: the
      key, '=', the value, a space. */
  lemma PlainLeaf(c: Config, a: Attr, prefix: Text, groups: seq<Text>, fuel: nat)
    requires c.replaceAttr.None? || c.replaceAttr.value(groups, a) == a
    requires IsPlain(a) && !IsErrorValue(a.value) && ToLower(a.key) !in ReservedKeys
    ensures Emit(c, a, prefix, groups, fuel)
      == Then(Then(Done(KeyText(c.noColor, a.key, prefix)), ValueText(c, a.value)), Done(" "))
  {
    assert Rewritten(c, a, groups) == a;
  }

  /** String values are always quoted, and the quoted text reads back. */
  lemma StringValueRoundTrip(c: Config, s: Text)
    ensures ValueText(c, StringValue(s)).Done?
    ensures Unquote(ValueText(c, StringValue(s)).value) == Some(s)
  {
    QuoteRoundTrip(s);
  }

  /** Integers print in decimal, with a '-' when negative, and read back. */
  lemma IntegerValueRoundTrip(c: Config, i: int, u: nat)
    ensures ValueText(c, Int64Value(i)).Done? && ValueText(c, Uint64Value(u)).Done?
    ensures var t := ValueText(c, Int64Value(i)).value;
      t != [] && (forall k :: 0 < k < |t| ==> IsDigit(t[k])) && (t[0] == '-' || IsDigit(t[0]))
      && SignedValueOf(t) == i
    ensures ValueOf(ValueText(c, Uint64Value(u)).value) == u
  {
    SignedRoundTrip(i);
    DigitsRoundTrip(u);
  }

  /** Byte slices are quoted only when needed, and read back. */
  lemma BytesValueRoundTrip(c: Config, b: Text)
    ensures ValueText(c, AnyValue(BytesAny(b))).Done?
    ensures ReadAutoQuoted(ValueText(c, AnyValue(BytesAny(b))).value) == Some(b)
  {
    AutoQuoteRoundTrip(b);
  }

  /** A text marshaler that fails leaves only the key behind and a marshaled
      text is quoted with escapes; any other value is put between quotes as
      its `%s` text is, without escaping; an error goes to `appendError`,
      which quotes its message with escapes. */
  lemma OtherValues(c: Config, k: Text, m: Text, t: Text, prefix: Text, groups: seq<Text>, fuel: nat)
    requires c.replaceAttr.None? && ToLower(k) !in ReservedKeys
    ensures Emit(c, Attr(k, AnyValue(MarshalerAny(None))), prefix, groups, fuel) == Done(KeyText(c.noColor, k, prefix) + " ")
    ensures Emit(c, Attr(k, AnyValue(MarshalerAny(Some(m)))), prefix, groups, fuel)
      == Done(KeyText(c.noColor, k, prefix) + Quote(m) + " ")
    ensures Emit(c, Attr(k, AnyValue(OtherAny(t))), prefix, groups, fuel)
      == Done(KeyText(c.noColor, k, prefix) + "\"" + t + "\"" + " ")
    ensures Emit(c, Attr(k, AnyValue(ErrorAny(m))), prefix, groups, fuel)
      == Done(ErrorText(c.noColor, m, k, prefix) + " ")
  {
    FailedMarshaler(c, k, prefix, groups, fuel);
    PlainLeaf(c, Attr(k, AnyValue(MarshalerAny(Some(m)))), prefix, groups, fuel);
    OtherValue(c, k, t, prefix, groups, fuel);
    assert Rewritten(c, Attr(k, AnyValue(ErrorAny(m))), groups) == Attr(k, AnyValue(ErrorAny(m)));
  }

  lemma FailedMarshaler(c: Config, k: Text, prefix: Text, groups: seq<Text>, fuel: nat)
    requires c.replaceAttr.None? && ToLower(k) !in ReservedKeys
    ensures Emit(c, Attr(k, AnyValue(MarshalerAny(None))), prefix, groups, fuel) == Done(KeyText(c.noColor, k, prefix) + " ")
  {
    var key := KeyText(c.noColor, k, prefix);
    PlainLeaf(c, Attr(k, AnyValue(MarshalerAny(None))), prefix, groups, fuel);
    assert key + [] == key;
  }

  lemma OtherValue(c: Config, k: Text, t: Text, prefix: Text, groups: seq<Text>, fuel: nat)
    requires c.replaceAttr.None? && ToLower(k) !in ReservedKeys
    ensures Emit(c, Attr(k, AnyValue(OtherAny(t))), prefix, groups, fuel)
      == Done(KeyText(c.noColor, k, prefix) + "\"" + t + "\"" + " ")
  {
    var key := KeyText(c.noColor, k, prefix);
    PlainLeaf(c, Attr(k, AnyValue(OtherAny(t))), prefix, groups, fuel);
    assert key + ("\"" + t + "\"") + " " == key + "\"" + t + "\"" + " ";
  }

  // ---- caller positions ----

  /** Text after a '/' (or at the start) that holds no '/' is what follows
      the last slash. */
  lemma {:induction false} AfterLastSlashOf(x: Text, f: Text)
    requires x == [] || x[|x| - 1] == '/'
    requires forall i :: 0 <= i < |f| ==> f[i] != '/'
    ensures AfterLastSlash(x + f) == |x|
    decreases |f|
  {
    if f == [] {
      assert x + f == x;
    } else {
      var s := x + f;
      assert s[|s| - 1] == f[|f| - 1];
      assert s[..|s| - 1] == x + f[..|f| - 1];
      AfterLastSlashOf(x, f[..|f| - 1]);
    }
  }

  /** A path element: non-empty, without '/', and neither "." nor "..". */
  predicate IsName(e: Text)
  {
    e != [] && e != "." && e != ".." && forall i :: 0 <= i < |e| ==> e[i] != '/'
  }

  /** For a file in at least one named directory, `appendSource` keeps the
      last directory, a '/' and the file name, and drops the rest of the
      path. */
  lemma SourcePathKeepsLastDirectory(dirs: Text, d: Text, f: Text)
    requires dirs == [] || dirs[|dirs| - 1] == '/'
    requires IsName(d) && IsName(f)
    ensures SourcePath(dirs + d + "/" + f) == d + "/" + f
  {
    var x: Text := dirs + d + "/";
    assert x[|x| - 1] == '/';
    assert dirs + d + "/" + f == x + f;
    AfterLastSlashOf(x, f);
    assert (x + f)[..|x|] == x && (x + f)[|x|..] == f;
    var y: Text := dirs + d;
    assert x == y + "/" && x[..|x| - 1] == y;
    assert TrimTrailingSlashes(x) == y by {
      assert y[|y| - 1] == d[|d| - 1];
    }
    AfterLastSlashOf(dirs, d);
    assert y[|dirs|..] == d;
  }

  /** A file two directories deep prints as its last directory and name. */
  lemma SourcePathExample()
    ensures SourcePath("a/b/c.go") == "b/c.go"
  {
    SourcePathKeepsLastDirectory("a/", "b", "c.go");
    assert "a/" + "b" + "/" + "c.go" == "a/b/c.go";
  }

  /** A file in no directory prints as its name alone. */
  lemma SourcePathNoDirectory(f: Text)
    requires IsName(f)
    ensures SourcePath(f) == f
  {
    AfterLastSlashOf([], f);
    assert f[..0] == [] && f[0..] == f;
  }
}
