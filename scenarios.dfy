/** The lines and hook calls of the handler's own test cases, derived from
    the model: each lemma fixes a configuration and a record and states
    the exact text the handler prints. */
module HandlerScenarios {
  import opened Text
  import opened Decimal
  import opened Quoting
  import opened Slog
  import opened Render
  import opened HandlerProperties

  /** A fresh handler's accreted fields. */
  const NoPrefixes: Prefixes := Prefixes([], [], [])

  /** A record as the tests log it: level INFO, message "message". */
  predicate LoggedAs(r: Record, t: Time, attrs: seq<Attr>)
  {
    r.time == t && r.level == LevelInfo && r.message == "message" && r.attrs == attrs
  }

  /** `removeKeys` of the tests: drops the attributes with the given keys. */
  function RemoveKeys(keys: set<Text>): Hook
  {
    (gs: seq<Text>, a: Attr) => if a.key in keys then EmptyAttr else a
  }

  /** A hook that keeps every attribute whose key is not reserved, as
      `removeKeys` of reserved keys does. */
  ghost predicate KeepsOrdinary(c: Config)
  {
    c.replaceAttr.None? || forall gs: seq<Text>, a: Attr :: a.key !in ReservedKeys ==> c.replaceAttr.value(gs, a) == a
  }

  lemma RemoveReservedKeepsOrdinary(c: Config, keys: set<Text>)
    requires c.replaceAttr == Some(RemoveKeys(keys)) && keys <= ReservedKeys
    ensures KeepsOrdinary(c)
  {
  }

  // ---- building blocks ----

  lemma EmitAllOfTwo(c: Config, x: Attr, y: Attr, prefix: Text, groups: seq<Text>, fuel: nat)
    ensures EmitAll(c, [x, y], prefix, groups, fuel)
      == Then(Emit(c, x, prefix, groups, fuel), Emit(c, y, prefix, groups, fuel))
  {
    assert [x, y][..1] == [x];
    EmitAllSingle(c, x, prefix, groups, fuel);
  }

  lemma EmitAllOfThree(c: Config, x: Attr, y: Attr, z: Attr, prefix: Text, groups: seq<Text>, fuel: nat)
    ensures EmitAll(c, [x, y, z], prefix, groups, fuel)
      == Then(Then(Emit(c, x, prefix, groups, fuel), Emit(c, y, prefix, groups, fuel)), Emit(c, z, prefix, groups, fuel))
  {
    assert [x, y, z][..2] == [x, y];
    EmitAllOfTwo(c, x, y, prefix, groups, fuel);
  }

  /** An ordinary attribute that the hook, if any, keeps, under a key that
      needs no quotes. */
  lemma Leaf(c: Config, a: Attr, prefix: Text, groups: seq<Text>, fuel: nat)
    requires c.noColor && IsPlain(a) && !IsErrorValue(a.value) && ToLower(a.key) !in ReservedKeys
    requires a.key != [] && !NeedsQuotes(prefix + a.key) && ValueText(c, a.value).Done?
    requires c.replaceAttr.None? || c.replaceAttr.value(groups, a) == a
    ensures Emit(c, a, prefix, groups, fuel) == Done(prefix + a.key + "=" + ValueText(c, a.value).value + " ")
  {
    PlainLeaf(c, a, prefix, groups, fuel);
    PlainKey(a.key, prefix);
  }

  /** Without colour, a key that needs no quotes is printed as is. */
  lemma PlainKey(key: Text, prefix: Text)
    requires key != [] && !NeedsQuotes(prefix + key)
    ensures KeyText(true, key, prefix) == prefix + key + "="
  {
    var nothing: Text := [];
    assert KeyText(true, key, prefix) == nothing + (prefix + key) + "=" + nothing;
  }

  /** A line from the texts of its parts. */
  lemma LineOf(c: Config, p: Prefixes, r: Record, b: Text, e: Text)
    requires Builtins(c, p, r) == Done(b) && EmitAll(c, r.attrs, p.groupPrefix, p.groups, MaxDepth) == Done(e)
    ensures Line(c, p, r) == Done(TrimRight(b + p.attrsPrefix + e))
  {
  }

  /** The built-in part without a hook and without the source: the time
      unless it is zero, the level and the message, each with a space. */
  lemma PlainBuiltins(c: Config, p: Prefixes, r: Record)
    requires c.replaceAttr.None? && !c.addSource
    ensures Builtins(c, p, r)
      == Done((if r.time.IsZero() then [] else c.foreign.formatTime(r.time, c.timeFormat) + " ")
        + (LevelText(c, r.level) + " ") + (r.message + " "))
  {
    var nothing: Text := [];
    var t := if r.time.IsZero() then [] else c.foreign.formatTime(r.time, c.timeFormat) + " ";
    assert t + (LevelText(c, r.level) + " ") + nothing + (r.message + " ")
      == t + (LevelText(c, r.level) + " ") + (r.message + " ");
  }

  /** A hook that removes an attribute's key removes its built-in part. */
  lemma RemovedPart(c: Config, p: Prefixes, present: bool, a: Attr, direct: Text, keys: set<Text>)
    requires c.replaceAttr == Some(RemoveKeys(keys)) && a.key in keys && !a.value.GroupValue?
    ensures BuiltinPart(c, p, present, a, direct) == Done([])
  {
    if present {
      assert Rewritten(c, a, []) == EmptyAttr;
    }
  }

  /** The message survives a hook that keeps its key. */
  lemma KeptMessage(c: Config, p: Prefixes, m: Text, keys: set<Text>)
    requires c.replaceAttr == Some(RemoveKeys(keys)) && MessageKey !in keys
    ensures BuiltinPart(c, p, true, Attr(MessageKey, StringValue(m)), m + " ") == Done(m + " ")
  {
    assert Rewritten(c, Attr(MessageKey, StringValue(m)), []) == Attr(MessageKey, StringValue(m));
  }

  /** The built-in part under `removeKeys` of the time and level keys (and
      possibly the message key). */
  lemma RemovedBuiltins(c: Config, p: Prefixes, r: Record, keys: set<Text>)
    requires c.replaceAttr == Some(RemoveKeys(keys)) && !c.addSource && TimeKey in keys && LevelKey in keys
    ensures Builtins(c, p, r) == Done(if MessageKey in keys then [] else r.message + " ")
  {
    var nothing: Text := [];
    var t := Attr(TimeKey, TimeValue(r.time));
    var l := Attr(LevelKey, AnyValue(LevelAny(r.level)));
    var m := Attr(MessageKey, StringValue(r.message));
    RemovedPart(c, p, !r.time.IsZero(), t, c.foreign.formatTime(r.time, c.timeFormat) + " ", keys);
    RemovedPart(c, p, true, l, LevelText(c, r.level) + " ", keys);
    if MessageKey in keys {
      RemovedPart(c, p, true, m, r.message + " ", keys);
    } else {
      KeptMessage(c, p, r.message, keys);
      assert nothing + nothing + nothing + (r.message + " ") == r.message + " ";
    }
    assert BuiltinPart(c, p, c.addSource && r.caller.file != [], Attr(SourceKey, AnyValue(SourceAny(r.caller))),
      SourceText(c.noColor, r.caller) + " ") == Done(nothing);
    assert nothing + nothing + nothing == nothing;
  }

  // ---- TestAttrs: no hook, no colour, the zero time ----

  predicate TestAttrsConfig(c: Config)
  {
    c.replaceAttr.None? && c.noColor && !c.addSource
  }

  lemma ZeroTimeLine(c: Config, p: Prefixes, r: Record, e: Text)
    requires TestAttrsConfig(c) && r.time.IsZero() && r.level == LevelInfo
    requires EmitAll(c, r.attrs, p.groupPrefix, p.groups, MaxDepth) == Done(e)
    ensures Line(c, p, r) == Done(TrimRight(" INFO " + r.message + " " + p.attrsPrefix + e))
  {
    PlainBuiltins(c, p, r);
    InfoText(r.message);
    LineOf(c, p, r, " INFO " + r.message + " ", e);
  }

  /** The line when the attributes text is `u` plus the separating space. */
  lemma MessageLine(c: Config, p: Prefixes, r: Record, u: Text)
    requires TestAttrsConfig(c) && r.time.IsZero() && r.level == LevelInfo
    requires EmitAll(c, r.attrs, p.groupPrefix, p.groups, MaxDepth) == Done(u + " ")
    requires u != [] && u[|u| - 1] != ' '
    ensures Line(c, p, r) == Done(" INFO " + r.message + " " + p.attrsPrefix + u)
  {
    var h: Text := " INFO " + r.message + " " + p.attrsPrefix;
    ZeroTimeLine(c, p, r, u + " ");
    TrimLastSpace(h, u);
    assert Line(c, p, r) == Done(TrimRight(h + (u + " ")));
  }

  lemma InfoText(m: Text)
    ensures var nothing: Text := []; nothing + (" INFO" + " ") + (m + " ") == " INFO " + m + " "
  {
  }

  const A1: Attr := Attr("a", Int64Value(1))
  const BTwo: Attr := Attr("b", StringValue("two"))

  /** `a=1 b="two"` under a group prefix that needs no quotes. */
  lemma TwoAttrs(c: Config, prefix: Text, groups: seq<Text>)
    requires c.noColor && KeepsOrdinary(c)
    requires !NeedsQuotes(prefix + "a") && !NeedsQuotes(prefix + "b")
    ensures EmitAll(c, [A1, BTwo], prefix, groups, MaxDepth) == Done(prefix + "a=1 " + (prefix + "b=\"two\" "))
  {
    EmitAllOfTwo(c, A1, BTwo, prefix, groups, MaxDepth);
    AttrTexts(prefix);
    Leaf(c, A1, prefix, groups, MaxDepth);
    Leaf(c, BTwo, prefix, groups, MaxDepth);
  }

  lemma AttrTexts(prefix: Text)
    ensures prefix + "a" + "=" + Signed(1) + " " == prefix + "a=1 "
    ensures prefix + "b" + "=" + Quote("two") + " " == prefix + "b=\"two\" "
    ensures ToLower("a") !in ReservedKeys && ToLower("b") !in ReservedKeys
    ensures "a" !in ReservedKeys && "b" !in ReservedKeys
  {
    assert Quote("two") == "\"two\"";
    assert Signed(1) == "1";
  }

  /** "no attrs" (handler_test.go): the line without attributes. */
  lemma NoAttrsLine(c: Config, r: Record)
    requires TestAttrsConfig(c) && LoggedAs(r, Time(0), [])
    ensures Line(c, NoPrefixes, r) == Done(" INFO message")
  {
    var nothing: Text := [];
    ZeroTimeLine(c, NoPrefixes, r, nothing);
    NoAttrsText();
  }

  lemma NoAttrsText()
    ensures var nothing: Text := []; TrimRight(" INFO " + "message" + " " + nothing + nothing) == " INFO message"
  {
    var nothing: Text := [];
    assert " INFO " + "message" + " " + nothing + nothing == " INFO message" + " ";
    TrimRightSpace(" INFO message");
  }

  /** "attrs": `a=1 b="two"`. */
  lemma AttrsLine(c: Config, r: Record)
    requires TestAttrsConfig(c) && LoggedAs(r, Time(0), [A1, BTwo])
    ensures Line(c, NoPrefixes, r) == Done(" INFO message a=1 b=\"two\"")
  {
    var nothing: Text := [];
    NoPrefixTexts();
    TwoAttrs(c, [], []);
    MessageLine(c, NoPrefixes, r, TwoAttrsText);
    AttrsText();
  }

  lemma NoPrefixTexts()
    ensures var nothing: Text := []; !NeedsQuotes(nothing + "a") && !NeedsQuotes(nothing + "b")
    ensures var nothing: Text := []; nothing + "a=1 " + (nothing + "b=\"two\" ") == TwoAttrsText + " "
  {
    var nothing: Text := [];
    assert nothing + "a" == "a" && nothing + "b" == "b";
    assert !NeedsQuotes("a") && !NeedsQuotes("b");
  }

  lemma AttrsText()
    ensures var nothing: Text := [];
      " INFO " + "message" + " " + nothing + TwoAttrsText == " INFO message a=1 b=\"two\""
  {
  }

  /** The attributes text of the "attrs" and "preformatted" cases. */
  const TwoAttrsText: Text := "a=1 b=\"two\""

  const Pre0: Attr := Attr("pre", Int64Value(0))

  /** "preformatted": `WithAttrs(pre=0)` puts `pre=0` before the record's
      attributes. */
  lemma PreformattedLine(c: Config, r: Record)
    requires TestAttrsConfig(c) && LoggedAs(r, Time(0), [A1, BTwo])
    ensures WithAttrsPrefix(c, NoPrefixes, [Pre0]) == Done("pre=0 ")
    ensures Line(c, PreOnly, r) == Done(" INFO message pre=0 a=1 b=\"two\"")
  {
    PreTexts();
    EmitAllSingle(c, Pre0, [], [], MaxDepth);
    Leaf(c, Pre0, [], [], MaxDepth);
    NoPrefixTexts();
    TwoAttrs(c, [], []);
    MessageLine(c, PreOnly, r, TwoAttrsText);
    PreformattedText();
  }

  lemma PreTexts()
    ensures var nothing: Text := [];
      !NeedsQuotes(nothing + "pre") && ToLower("pre") !in ReservedKeys
      && nothing + (nothing + "pre" + "=" + Signed(0) + " ") == "pre=0 "
  {
    var nothing: Text := [];
    assert nothing + "pre" == "pre";
    assert !NeedsQuotes("pre");
    assert Signed(0) == "0";
  }

  lemma PreformattedText()
    ensures " INFO " + "message" + " " + "pre=0 " + TwoAttrsText == " INFO message pre=0 a=1 b=\"two\""
  {
  }

  // ---- groups ----

  const B2: Attr := Attr("b", Int64Value(2))
  const C3: Attr := Attr("c", Int64Value(3))
  const D4: Attr := Attr("d", Int64Value(4))
  const E5: Attr := Attr("e", Int64Value(5))
  const H: Attr := Attr("h", GroupValue([C3]))
  const G: Attr := Attr("g", GroupValue([B2, H, D4]))

  /** The attributes text of the "groups" case. */
  const GroupsAttrsText: Text := "a=1 g.b=2 g.h.c=3 g.d=4" + " e=5"

  /** An integer attribute with an ordinary key that needs no quotes. */
  lemma IntAttr(c: Config, a: Attr, prefix: Text, full: Text, groups: seq<Text>, fuel: nat, want: Text)
    requires c.noColor && KeepsOrdinary(c) && IntFacts(a, prefix, full, want)
    ensures Emit(c, a, prefix, groups, fuel) == Done(want)
  {
    Leaf(c, a, prefix, groups, fuel);
  }

  /** The facts about keys and texts that `IntAttr` needs for `a`. */
  predicate IntFacts(a: Attr, prefix: Text, full: Text, want: Text)
  {
    a.value.Int64Value? && a.key != [] && a.key !in ReservedKeys && ToLower(a.key) !in ReservedKeys
    && prefix + a.key == full && !NeedsQuotes(full) && full + "=" + Signed(a.value.i) + " " == want
  }

  lemma FactsB() ensures IntFacts(B2, "g.", "g.b", "g.b=2 ") { assert !NeedsQuotes("g.b"); assert Signed(2) == "2"; }
  lemma FactsC() ensures IntFacts(C3, "g.h.", "g.h.c", "g.h.c=3 ") { assert !NeedsQuotes("g.h.c"); assert Signed(3) == "3"; }
  lemma FactsD() ensures IntFacts(D4, "g.", "g.d", "g.d=4 ") { assert !NeedsQuotes("g.d"); assert Signed(4) == "4"; }
  lemma FactsA() ensures IntFacts(A1, [], "a", "a=1 ") { assert !NeedsQuotes("a"); assert Signed(1) == "1"; }
  lemma FactsE() ensures IntFacts(E5, [], "e", "e=5 ") { assert !NeedsQuotes("e"); assert Signed(5) == "5"; }

  lemma GroupNames()
    ensures var nothing: Text := []; var none: seq<Text> := [];
      "g." + "h" + "." == "g.h." && ["g"] + ["h"] == ["g", "h"]
      && nothing + "g" + "." == "g." && none + ["g"] == ["g"]
  {
  }

  lemma InnerTexts()
    ensures "g.b=2 " + "g.h.c=3 " + "g.d=4 " == "g.b=2 g.h.c=3 g.d=4 "
  {
  }

  lemma OuterTexts()
    ensures "a=1 " + "g.b=2 g.h.c=3 g.d=4 " + "e=5 " == GroupsAttrsText + " "
  {
    assert "a=1 " + "g.b=2 g.h.c=3 g.d=4 " == "a=1 g.b=2 g.h.c=3 g.d=4 ";
  }

  /** The inner group `h` of the "groups" case, under `g`. */
  lemma InnerGroup(c: Config, fuel: nat)
    requires c.noColor && KeepsOrdinary(c)
    ensures Emit(c, H, "g.", ["g"], fuel + 1) == Done("g.h.c=3 ")
  {
    GroupNames();
    GroupFlattens(c, "h", [C3], "g.", ["g"], fuel);
    EmitAllSingle(c, C3, "g.h.", ["g", "h"], fuel);
    FactsC();
    IntAttr(c, C3, "g.h.", "g.h.c", ["g", "h"], fuel, "g.h.c=3 ");
  }

  /** The group `g` of the "groups" case: `g.b=2 g.h.c=3 g.d=4`. */
  lemma OuterGroup(c: Config, fuel: nat)
    requires c.noColor && KeepsOrdinary(c)
    ensures Emit(c, G, [], [], fuel + 2) == Done("g.b=2 g.h.c=3 g.d=4 ")
  {
    GroupNames();
    GroupFlattens(c, "g", [B2, H, D4], [], [], fuel + 1);
    EmitAllOfThree(c, B2, H, D4, "g.", ["g"], fuel + 1);
    FactsB();
    IntAttr(c, B2, "g.", "g.b", ["g"], fuel + 1, "g.b=2 ");
    InnerGroup(c, fuel);
    FactsD();
    IntAttr(c, D4, "g.", "g.d", ["g"], fuel + 1, "g.d=4 ");
    InnerTexts();
  }

  /** The attributes of the "groups" case: nested groups flatten to dotted keys. */
  lemma GroupsAttrs(c: Config)
    requires c.noColor && KeepsOrdinary(c)
    ensures EmitAll(c, [A1, G, E5], [], [], MaxDepth) == Done(GroupsAttrsText + " ")
  {
    GroupNames();
    EmitAllOfThree(c, A1, G, E5, [], [], MaxDepth);
    FactsA();
    IntAttr(c, A1, [], "a", [], MaxDepth, "a=1 ");
    OuterGroup(c, MaxDepth - 2);
    FactsE();
    IntAttr(c, E5, [], "e", [], MaxDepth, "e=5 ");
    OuterTexts();
  }

  /** "groups" (TestAttrs). */
  lemma GroupsLine(c: Config, r: Record)
    requires TestAttrsConfig(c) && LoggedAs(r, Time(0), [A1, G, E5])
    ensures Line(c, NoPrefixes, r) == Done(" INFO message " + GroupsAttrsText)
  {
    var nothing: Text := [];
    GroupsAttrs(c);
    MessageLine(c, NoPrefixes, r, GroupsAttrsText);
    GroupsText();
  }

  lemma GroupsText()
    ensures var nothing: Text := [];
      " INFO " + "message" + " " + nothing + GroupsAttrsText
      == " INFO message " + GroupsAttrsText
  {
    var nothing: Text := [];
    assert " INFO " + "message" + " " + nothing == " INFO message ";
  }

  // ---- WithAttrs and WithGroup ----

  /** The attributes text of the "group" case. */
  const SText: Text := "s.a=1 s.b=\"two\""

  /** "group": `WithAttrs(pre=0).WithGroup("s")` keeps `pre=0` outside the
      group and puts the record's attributes under `s.`. */
  lemma GroupLine(c: Config, r: Record)
    requires TestAttrsConfig(c) && LoggedAs(r, Time(0), [A1, BTwo])
    ensures WithGroupPrefixes(PreOnly, "s") == PreS
    ensures Line(c, PreS, r) == Done(" INFO message pre=0 s.a=1 s.b=\"two\"")
  {
    SNames();
    STexts();
    TwoAttrs(c, "s.", ["s"]);
    MessageLine(c, PreS, r, SText);
    GroupLineText();
  }

  lemma SNames()
    ensures var nothing: Text := []; var none: seq<Text> := [];
      nothing + "s" + "." == "s." && none + ["s"] == ["s"]
  {
  }

  lemma STexts()
    ensures !NeedsQuotes("s." + "a") && !NeedsQuotes("s." + "b")
    ensures "s." + "a=1 " + ("s." + "b=\"two\" ") == SText + " "
  {
    assert !NeedsQuotes("a") && !NeedsQuotes("b");
    assert !AnyForcesQuotes("s.");
    NoQuotesConcat("s.", "a");
    NoQuotesConcat("s.", "b");
    SText2();
  }

  lemma SText2()
    ensures "s." + "a=1 " + ("s." + "b=\"two\" ") == SText + " "
  {
    assert "s." + "a=1 " == "s.a=1 ";
    assert "s." + "b=\"two\" " == "s.b=\"two\" ";
  }

  lemma GroupLineText()
    ensures " INFO " + "message" + " " + "pre=0 " + SText == " INFO message pre=0 s.a=1 s.b=\"two\""
  {
  }

  /** The accreted fields of the derived handlers of the cases below. */
  const PreOnly: Prefixes := Prefixes("pre=0 ", [], [])
  const PreS: Prefixes := Prefixes("pre=0 ", "s.", ["s"])
  const P1Only: Prefixes := Prefixes("p1=1 ", [], [])
  const P1S1: Prefixes := Prefixes("p1=1 ", "s1.", ["s1"])
  const P12S1: Prefixes := Prefixes("p1=1 s1.p2=2 ", "s1.", ["s1"])
  const P12S12: Prefixes := Prefixes("p1=1 s1.p2=2 ", "s1.s2.", ["s1", "s2"])
  const P1S12: Prefixes := Prefixes("p1=1 ", "s1.s2.", ["s1", "s2"])

  const P1: Attr := Attr("p1", Int64Value(1))
  const P2: Attr := Attr("p2", Int64Value(2))

  lemma FactsP1() ensures IntFacts(P1, [], "p1", "p1=1 ") { assert !NeedsQuotes("p1"); assert Signed(1) == "1"; }
  lemma FactsP2() ensures IntFacts(P2, "s1.", "s1.p2", "s1.p2=2 ") { assert !NeedsQuotes("s1.p2"); assert Signed(2) == "2"; }

  /** The handlers of "preformatted groups" and "two with-groups":
      `WithAttrs(p1=1)`, then `WithGroup("s1")`, then possibly
      `WithAttrs(p2=2)`, then `WithGroup("s2")`. Attributes added inside a
      group carry its prefix. */
  lemma PreformattedGroupsPrefixes(c: Config)
    requires c.noColor && KeepsOrdinary(c)
    ensures WithAttrsPrefix(c, NoPrefixes, [P1]) == Done("p1=1 ")
    ensures WithGroupPrefixes(P1Only, "s1") == P1S1
    ensures WithAttrsPrefix(c, P1S1, [P2]) == Done("p1=1 s1.p2=2 ")
    ensures WithGroupPrefixes(P12S1, "s2")
      == P12S12
    ensures WithGroupPrefixes(P1S1, "s2") == P1S12
  {
    PrefixNames();
    FactsP1();
    EmitAllSingle(c, P1, [], [], MaxDepth);
    IntAttr(c, P1, [], "p1", [], MaxDepth, "p1=1 ");
    FactsP2();
    EmitAllSingle(c, P2, "s1.", ["s1"], MaxDepth);
    IntAttr(c, P2, "s1.", "s1.p2", ["s1"], MaxDepth, "s1.p2=2 ");
  }

  lemma PrefixNames()
    ensures var nothing: Text := []; var none: seq<Text> := [];
      nothing + "p1=1 " == "p1=1 " && "p1=1 " + "s1.p2=2 " == "p1=1 s1.p2=2 "
      && nothing + "s1" + "." == "s1." && none + ["s1"] == ["s1"]
      && "s1." + "s2" + "." == "s1.s2." && ["s1"] + ["s2"] == ["s1", "s2"]
  {
  }

  /** The record's attributes of "preformatted groups" and "two with-groups". */
  const S12Text: Text := "s1.s2.a=1 s1.s2.b=\"two\""

  lemma S12Keys()
    ensures !NeedsQuotes("s1.s2." + "a") && !NeedsQuotes("s1.s2." + "b")
  {
    assert !NeedsQuotes("a") && !NeedsQuotes("b");
    assert !AnyForcesQuotes("s1.s2.");
    NoQuotesConcat("s1.s2.", "a");
    NoQuotesConcat("s1.s2.", "b");
  }

  lemma S12Texts()
    ensures "s1.s2." + "a=1 " + ("s1.s2." + "b=\"two\" ") == S12Text + " "
  {
    assert "s1.s2." + "a=1 " == "s1.s2.a=1 ";
    assert "s1.s2." + "b=\"two\" " == "s1.s2.b=\"two\" ";
  }

  /** "preformatted groups". */
  lemma PreformattedGroupsLine(c: Config, r: Record)
    requires TestAttrsConfig(c) && LoggedAs(r, Time(0), [A1, BTwo])
    ensures Line(c, P12S12, r)
      == Done(" INFO message " + "p1=1 s1.p2=2 " + S12Text)
  {
    S12Keys();
    S12Texts();
    TwoAttrs(c, "s1.s2.", ["s1", "s2"]);
    MessageLine(c, P12S12, r, S12Text);
    InfoMessage();
  }

  lemma InfoMessage()
    ensures " INFO " + "message" + " " == " INFO message "
  {
  }

  /** "two with-groups". */
  lemma TwoWithGroupsLine(c: Config, r: Record)
    requires TestAttrsConfig(c) && LoggedAs(r, Time(0), [A1, BTwo])
    ensures Line(c, P1S12, r) == Done(" INFO message " + "p1=1 " + S12Text)
  {
    S12Keys();
    S12Texts();
    TwoAttrs(c, "s1.s2.", ["s1", "s2"]);
    MessageLine(c, P1S12, r, S12Text);
    InfoMessage();
  }

  // ---- TestCLIHandler: "remove built-in" ----

  /** The attributes every TestCLIHandler case logs. */
  const AOne: Attr := Attr("a", StringValue("one"))
  const CliAttrs: seq<Attr> := [AOne, B2, EmptyAttr]
  const BuiltinKeys: set<Text> := {TimeKey, LevelKey, MessageKey}
  const CliAttrsText: Text := "a=\"one\" b=2"

  /** `a="one" b=2`: the empty attribute reaches the hook, which keeps
      it, and is then dropped. */
  lemma CliAttrsEmit(c: Config)
    requires c.noColor && c.replaceAttr == Some(RemoveKeys(BuiltinKeys))
    ensures EmitAll(c, CliAttrs, [], [], MaxDepth) == Done(CliAttrsText + " ")
  {
    var nothing: Text := [];
    var none: seq<Text> := [];
    RemoveReservedKeepsOrdinary(c, BuiltinKeys);
    EmitAllOfThree(c, AOne, B2, EmptyAttr, nothing, none, MaxDepth);
    CliTexts();
    Leaf(c, AOne, nothing, none, MaxDepth);
    FactsB0();
    IntAttr(c, B2, nothing, "b", none, MaxDepth, "b=2 ");
    EmptyAttrDropped(c, nothing, none, MaxDepth);
  }

  lemma FactsB0() ensures IntFacts(B2, [], "b", "b=2 ") { assert !NeedsQuotes("b"); assert Signed(2) == "2"; }

  lemma CliTexts()
    ensures var nothing: Text := []; !NeedsQuotes(nothing + "a") && ToLower("a") !in ReservedKeys
    ensures var nothing: Text := []; nothing + "a" + "=" + Quote("one") + " " + "b=2 " + nothing == CliAttrsText + " "
  {
    var nothing: Text := [];
    assert nothing + "a" == "a" && !NeedsQuotes("a");
    QuoteOne();
    CliConcat(Quote("one"));
  }

  lemma CliConcat(q: Text)
    requires q == "\"one\""
    ensures var nothing: Text := []; nothing + "a" + "=" + q + " " + "b=2 " + nothing == CliAttrsText + " "
  {
  }

  lemma QuoteOne() ensures Quote("one") == "\"one\"" {}

  /** The line under `removeKeys` of the time, level and message keys,
      when the attributes text is `u` plus the separating space. */
  lemma RemovedLine(c: Config, p: Prefixes, r: Record, keys: set<Text>, u: Text)
    requires c.replaceAttr == Some(RemoveKeys(keys)) && !c.addSource
    requires TimeKey in keys && LevelKey in keys && MessageKey in keys
    requires EmitAll(c, r.attrs, p.groupPrefix, p.groups, MaxDepth) == Done(u + " ")
    requires u != [] && u[|u| - 1] != ' '
    ensures Line(c, p, r) == Done(p.attrsPrefix + u)
  {
    var nothing: Text := [];
    var e: Text := u + " ";
    RemovedBuiltins(c, p, r, keys);
    LineOf(c, p, r, nothing, e);
    TrimLastSpace(p.attrsPrefix, u);
    assert nothing + p.attrsPrefix == p.attrsPrefix;
  }

  /** "remove built-in": removing the time, level and message keys leaves
      only the attributes. */
  lemma RemoveBuiltinLine(c: Config, r: Record, t: Time)
    requires c.noColor && !c.addSource && c.replaceAttr == Some(RemoveKeys(BuiltinKeys))
    requires LoggedAs(r, t, CliAttrs)
    ensures Line(c, NoPrefixes, r) == Done(CliAttrsText)
  {
    var nothing: Text := [];
    CliAttrsEmit(c);
    RemovedLine(c, NoPrefixes, r, BuiltinKeys, CliAttrsText);
    assert NoPrefixes.attrsPrefix + CliAttrsText == CliAttrsText;
  }

  // ---- TestCLIHandler cases that remove only the time and level ----

  const TimeLevelKeys: set<Text> := {TimeKey, LevelKey}

  /** The line under `removeKeys` of the time and level keys, when the
      attributes text is `u` plus the separating space. */
  lemma KeptMessageLine(c: Config, p: Prefixes, r: Record, keys: set<Text>, u: Text)
    requires c.replaceAttr == Some(RemoveKeys(keys)) && !c.addSource
    requires TimeKey in keys && LevelKey in keys && MessageKey !in keys
    requires EmitAll(c, r.attrs, p.groupPrefix, p.groups, MaxDepth) == Done(u + " ")
    requires u != [] && u[|u| - 1] != ' '
    ensures Line(c, p, r) == Done(r.message + " " + p.attrsPrefix + u)
  {
    var h: Text := r.message + " " + p.attrsPrefix;
    var e: Text := u + " ";
    RemovedBuiltins(c, p, r, keys);
    LineOf(c, p, r, r.message + " ", e);
    TrimLastSpace(h, u);
  }

  const GEmpty: Attr := Attr("g", GroupValue([]))
  const HA: Attr := Attr("h", GroupValue([A1]))
  const HAText: Text := "h.a=1"

  /** The empty group "g" emits nothing; "h" prefixes its member. */
  lemma EmptyGroupAttrs(c: Config)
    requires c.noColor && c.replaceAttr == Some(RemoveKeys(TimeLevelKeys))
    ensures EmitAll(c, [GEmpty, HA], [], [], MaxDepth) == Done(HAText + " ")
  {
    var nothing: Text := [];
    var none: seq<Text> := [];
    RemoveReservedKeepsOrdinary(c, TimeLevelKeys);
    EmitAllOfTwo(c, GEmpty, HA, nothing, none, MaxDepth);
    GroupFlattens(c, "g", [], nothing, none, MaxDepth - 1);
    GroupFlattens(c, "h", [A1], nothing, none, MaxDepth - 1);
    HNames();
    EmitAllSingle(c, A1, "h.", ["h"], MaxDepth - 1);
    FactsHA();
    IntAttr(c, A1, "h.", "h.a", ["h"], MaxDepth - 1, "h.a=1 ");
    assert nothing + (HAText + " ") == HAText + " ";
  }

  lemma HNames()
    ensures var nothing: Text := []; var none: seq<Text> := []; nothing + "h" + "." == "h." && none + ["h"] == ["h"]
  {
  }

  lemma FactsHA() ensures IntFacts(A1, "h.", "h.a", HAText + " ") { assert !NeedsQuotes("h.a"); assert Signed(1) == "1"; }

  /** "empty group": `message h.a=1`. */
  lemma EmptyGroupLine(c: Config, r: Record, t: Time)
    requires c.noColor && !c.addSource && c.replaceAttr == Some(RemoveKeys(TimeLevelKeys))
    requires LoggedAs(r, t, [GEmpty, HA])
    ensures Line(c, NoPrefixes, r) == Done("message " + HAText)
  {
    EmptyGroupAttrs(c);
    KeptMessageLine(c, NoPrefixes, r, TimeLevelKeys, HAText);
    MessageText(HAText);
  }

  lemma MessageText(u: Text)
    ensures "message" + " " + NoPrefixes.attrsPrefix + u == "message " + u
  {
  }

  const InlineBC: Attr := Attr([], GroupValue([B2, C3]))
  const InlineText: Text := "a=1 b=2 c=3 d=4"

  /** "inline group": a group with the empty key adds no prefix. */
  lemma InlineGroupAttrs(c: Config)
    requires c.noColor && c.replaceAttr == Some(RemoveKeys(TimeLevelKeys))
    ensures EmitAll(c, [A1, InlineBC, D4], [], [], MaxDepth) == Done(InlineText + " ")
  {
    var nothing: Text := [];
    var none: seq<Text> := [];
    RemoveReservedKeepsOrdinary(c, TimeLevelKeys);
    EmitAllOfThree(c, A1, InlineBC, D4, nothing, none, MaxDepth);
    InlineMembers(c);
    FactsA();
    FactsD0();
    IntAttr(c, A1, nothing, "a", none, MaxDepth, "a=1 ");
    IntAttr(c, D4, nothing, "d", none, MaxDepth, "d=4 ");
    InlineTexts();
  }

  lemma InlineMembers(c: Config)
    requires c.noColor && KeepsOrdinary(c)
    ensures var nothing: Text := []; var none: seq<Text> := [];
      Emit(c, InlineBC, nothing, none, MaxDepth) == Done("b=2 " + "c=3 ")
  {
    var nothing: Text := [];
    var none: seq<Text> := [];
    GroupFlattens(c, [], [B2, C3], nothing, none, MaxDepth - 1);
    EmitAllOfTwo(c, B2, C3, nothing, none, MaxDepth - 1);
    FactsB0();
    FactsC0();
    IntAttr(c, B2, nothing, "b", none, MaxDepth - 1, "b=2 ");
    IntAttr(c, C3, nothing, "c", none, MaxDepth - 1, "c=3 ");
  }

  lemma FactsC0() ensures IntFacts(C3, [], "c", "c=3 ") { assert !NeedsQuotes("c"); assert Signed(3) == "3"; }
  lemma FactsD0() ensures IntFacts(D4, [], "d", "d=4 ") { assert !NeedsQuotes("d"); assert Signed(4) == "4"; }

  lemma InlineTexts()
    ensures "a=1 " + ("b=2 " + "c=3 ") + "d=4 " == InlineText + " "
  {
  }

  /** "inline group": `message a=1 b=2 c=3 d=4`. */
  lemma InlineGroupLine(c: Config, r: Record, t: Time)
    requires c.noColor && !c.addSource && c.replaceAttr == Some(RemoveKeys(TimeLevelKeys))
    requires LoggedAs(r, t, [A1, InlineBC, D4])
    ensures Line(c, NoPrefixes, r) == Done("message " + InlineText)
  {
    InlineGroupAttrs(c);
    KeptMessageLine(c, NoPrefixes, r, TimeLevelKeys, InlineText);
    MessageText(InlineText);
  }
}

