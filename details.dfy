/**
 * messageDetails of the two messenger revisions: each argument becomes zero
 * or more Detail entries carrying the argument's 1-based index as position.
 * The later revision skips the message-field options, which still use up
 * their index; the earlier one treats them like any other value.
 */
module Details {

  import opened Wrappers
  import opened StringUtil
  import opened Values

  /** OptionMessageField or OptionMessageFields passed by value. */
  predicate IsFieldOption(a: Arg)
  {
    a.Opt? && !a.byPointer && (a.option.OptionMessageField? || a.option.OptionMessageFields?)
  }

  /** The details one argument contributes at position p (create*Detail and the map case). */
  function ArgDetails(h: Host, a: Arg, p: int, skipFieldOptions: bool): (r: seq<Detail>)
    ensures |r| == DetailCount(a, skipFieldOptions)
    ensures forall j :: 0 <= j < |r| ==> r[j].position == p
  {
    match a
    case Nil => [Detail("", p, "nil", "", NoRaw)]
    case Int(i) => [Detail("", p, "integer", InterfaceAsString(h, a), RawInt(i))]
    case Float(f) => [Detail("", p, "float", InterfaceAsString(h, a), RawFloat(f))]
    case Str(s) => [Detail("", p, "string", s, RawOfText(h, s))]
    case Bool(b) => [Detail("", p, "boolean", InterfaceAsString(h, a), RawBool(b))]
    case Error(m) =>
      var v := CleanErrorString(m);
      [Detail("", p, "error", v, RawOfText(h, v))]
    case StringMap(entries) => MapDetails(h, entries, p)
    case _ =>
      if skipFieldOptions && IsFieldOption(a) then []
      else [Detail("", p, h.typeName(a), InterfaceAsString(h, a), RawArg(a))]
  }

  /**
   * The shape of one argument's details: a map gives one entry per key in
   * iteration order, a skipped option none, anything else one unkeyed entry.
   * Each of the create*Detail constructors tags its entry with its own type
   * name: nil, integer, float, string, boolean, error. An integer or boolean
   * is kept as its raw value beside its text, and a string or an error
   * message is kept raw exactly when it is JSON.
   */
  lemma ArgDetailsShape(h: Host, a: Arg, p: int, skipFieldOptions: bool)
    ensures var r := ArgDetails(h, a, p, skipFieldOptions);
      && (a.StringMap? ==> forall j :: 0 <= j < |r| ==> r[j].key == a.entries[j].0 && r[j].typ == "map[string]string")
      && (skipFieldOptions && IsFieldOption(a) ==> r == [])
      && (!a.StringMap? && !(skipFieldOptions && IsFieldOption(a)) ==> |r| == 1 && r[0].key == "")
      && (a.Nil? ==> r == [Detail("", p, "nil", "", NoRaw)])
      && (a.Int? ==> r[0].typ == "integer" && r[0].value == Itoa(a.intValue) && Atoi(r[0].value) == Some(a.intValue) && r[0].valueRaw == RawInt(a.intValue))
      && (a.Float? ==> r[0].typ == "float" && r[0].value == h.formatFloat(a.floatValue) && r[0].valueRaw == RawFloat(a.floatValue))
      && (a.Str? ==> r[0].typ == "string" && r[0].value == a.str && (r[0].valueRaw.RawJson? <==> IsJSON(h, a.str)))
      && (a.Bool? ==> r[0].typ == "boolean" && r[0].value == BoolText(a.boolValue) && r[0].valueRaw == RawBool(a.boolValue))
      && (a.Error? ==> r[0].typ == "error" && r[0].value == CleanErrorString(a.message)
                       && (r[0].valueRaw.RawJson? <==> IsJSON(h, CleanErrorString(a.message))))
  {
  }

  /** One "map[string]string" detail per entry, in iteration order, all at position p. */
  function MapDetails(h: Host, entries: seq<(string, string)>, p: int): (r: seq<Detail>)
    ensures |r| == |entries|
    ensures forall j :: 0 <= j < |r| ==>
      r[j] == Detail(entries[j].0, p, "map[string]string", InterfaceAsString(h, Str(entries[j].1)),
                     RawOfText(h, InterfaceAsString(h, Str(entries[j].1))))
  {
    if entries == [] then []
    else
      var v := InterfaceAsString(h, Str(entries[0].1));
      [Detail(entries[0].0, p, "map[string]string", v, RawOfText(h, v))] + MapDetails(h, entries[1..], p)
  }

  /** The whole list: argument i (from 0) contributes ArgDetails at position i + 1. */
  function DetailsOf(h: Host, args: seq<Arg>, skipFieldOptions: bool): (r: seq<Detail>)
    ensures forall j :: 0 <= j < |r| ==> 1 <= r[j].position <= |args|
    ensures args == [] ==> r == []
  {
    if args == [] then []
    else
      var init := DetailsOf(h, args[..|args| - 1], skipFieldOptions);
      init + ArgDetails(h, args[|args| - 1], |args|, skipFieldOptions)
  }

  /** The details at one position, in order. */
  function AtPosition(ds: seq<Detail>, p: int): seq<Detail>
  {
    if ds == [] then []
    else AtPosition(ds[..|ds| - 1], p) + (if ds[|ds| - 1].position == p then [ds[|ds| - 1]] else [])
  }

  lemma {:induction false} AtPositionConcat(a: seq<Detail>, b: seq<Detail>, p: int)
    ensures AtPosition(a + b, p) == AtPosition(a, p) + AtPosition(b, p)
    decreases |b|
  {
    if b == [] {
      assert a + b == a;
    } else {
      assert (a + b)[..|a + b| - 1] == a + b[..|b| - 1];
      AtPositionConcat(a, b[..|b| - 1], p);
    }
  }

  lemma {:induction false} AtPositionAll(ds: seq<Detail>, p: int)
    requires forall j :: 0 <= j < |ds| ==> ds[j].position == p
    ensures AtPosition(ds, p) == ds
  {
    if ds != [] {
      var init := ds[..|ds| - 1];
      assert forall j :: 0 <= j < |init| ==> init[j] == ds[j];
      AtPositionAll(init, p);
      assert ds == init + [ds[|ds| - 1]];
    }
  }

  lemma {:induction false} AtPositionNone(ds: seq<Detail>, p: int)
    requires forall j :: 0 <= j < |ds| ==> ds[j].position != p
    ensures AtPosition(ds, p) == []
  {
    if ds != [] {
      var init := ds[..|ds| - 1];
      assert forall j :: 0 <= j < |init| ==> init[j] == ds[j];
      AtPositionNone(init, p);
    }
  }

  /** Details appended at another position leave those at p as they were. */
  lemma AtPositionSkipsOther(init: seq<Detail>, last: seq<Detail>, p: int, q: int)
    requires p != q
    requires forall j :: 0 <= j < |last| ==> last[j].position == q
    ensures AtPosition(init + last, p) == AtPosition(init, p)
  {
    AtPositionConcat(init, last, p);
    AtPositionNone(last, p);
  }

  /** Details appended at position q are all that is found at q when init holds only smaller positions. */
  lemma AtPositionOfLast(init: seq<Detail>, last: seq<Detail>, q: int)
    requires forall j :: 0 <= j < |init| ==> init[j].position < q
    requires forall j :: 0 <= j < |last| ==> last[j].position == q
    ensures AtPosition(init + last, q) == last
  {
    AtPositionConcat(init, last, q);
    AtPositionNone(init, q);
    AtPositionAll(last, q);
  }

  /** The last argument's details are all that is found at its position. */
  lemma DetailsAtLastPosition(h: Host, args: seq<Arg>, skipFieldOptions: bool)
    requires args != []
    ensures AtPosition(DetailsOf(h, args, skipFieldOptions), |args|)
      == ArgDetails(h, args[|args| - 1], |args|, skipFieldOptions)
  {
    var n := |args|;
    var init := DetailsOf(h, args[..n - 1], skipFieldOptions);
    var last := ArgDetails(h, args[n - 1], n, skipFieldOptions);
    assert DetailsOf(h, args, skipFieldOptions) == init + last;
    AtPositionOfLast(init, last, n);
  }

  /** The last argument adds nothing at an earlier position. */
  lemma DetailsAtEarlierPosition(h: Host, args: seq<Arg>, skipFieldOptions: bool, p: int)
    requires args != [] && p != |args|
    ensures AtPosition(DetailsOf(h, args, skipFieldOptions), p)
      == AtPosition(DetailsOf(h, args[..|args| - 1], skipFieldOptions), p)
  {
    var n := |args|;
    var init := DetailsOf(h, args[..n - 1], skipFieldOptions);
    var last := ArgDetails(h, args[n - 1], n, skipFieldOptions);
    assert DetailsOf(h, args, skipFieldOptions) == init + last;
    AtPositionSkipsOther(init, last, p, n);
  }

  /** Within the first i + 1 arguments, argument i's details are all that is found at position i + 1. */
  lemma DetailsAtOwnPosition(h: Host, args: seq<Arg>, skipFieldOptions: bool, i: int)
    requires 0 <= i < |args|
    ensures AtPosition(DetailsOf(h, args[..i + 1], skipFieldOptions), i + 1) == ArgDetails(h, args[i], i + 1, skipFieldOptions)
  {
    DetailsOfPrefix(h, args, skipFieldOptions, i);
    AtPositionOfLast(DetailsOf(h, args[..i], skipFieldOptions), ArgDetails(h, args[i], i + 1, skipFieldOptions), i + 1);
  }

  /** Argument k - 1 adds nothing at an earlier position p. */
  lemma DetailsAtPositionStep(h: Host, args: seq<Arg>, skipFieldOptions: bool, p: int, k: int)
    requires 0 < k <= |args| && p != k
    ensures AtPosition(DetailsOf(h, args[..k], skipFieldOptions), p) == AtPosition(DetailsOf(h, args[..k - 1], skipFieldOptions), p)
  {
    DetailsOfPrefix(h, args, skipFieldOptions, k - 1);
    AtPositionSkipsOther(DetailsOf(h, args[..k - 1], skipFieldOptions), ArgDetails(h, args[k - 1], k, skipFieldOptions), p, k);
  }

  /** The details at position i + 1 within the first k arguments, for any k past i. */
  lemma {:induction false} DetailsAtPositionUpTo(h: Host, args: seq<Arg>, skipFieldOptions: bool, i: int, k: int)
    requires 0 <= i < k <= |args|
    ensures AtPosition(DetailsOf(h, args[..k], skipFieldOptions), i + 1) == ArgDetails(h, args[i], i + 1, skipFieldOptions)
    decreases k
  {
    if k == i + 1 {
      DetailsAtOwnPosition(h, args, skipFieldOptions, i);
    } else {
      DetailsAtPositionUpTo(h, args, skipFieldOptions, i, k - 1);
      DetailsAtPositionStep(h, args, skipFieldOptions, i + 1, k);
    }
  }

  /**
   * Position numbering: the details at position i + 1 are exactly those of
   * argument i, so every argument keeps its own index whatever the others
   * contribute (a map several entries, an option none).
   */
  lemma DetailsAtPosition(h: Host, args: seq<Arg>, skipFieldOptions: bool, i: int)
    requires 0 <= i < |args|
    ensures AtPosition(DetailsOf(h, args, skipFieldOptions), i + 1) == ArgDetails(h, args[i], i + 1, skipFieldOptions)
  {
    DetailsAtPositionUpTo(h, args, skipFieldOptions, i, |args|);
    assert args[..|args|] == args;
  }

  predicate PositionsNondecreasing(ds: seq<Detail>)
  {
    forall j, k :: 0 <= j < k < |ds| ==> ds[j].position <= ds[k].position
  }

  lemma JoinNondecreasing(a: seq<Detail>, b: seq<Detail>, p: int)
    requires PositionsNondecreasing(a)
    requires forall j :: 0 <= j < |a| ==> a[j].position < p
    requires forall j :: 0 <= j < |b| ==> b[j].position == p
    ensures PositionsNondecreasing(a + b)
  {
    var r := a + b;
    forall j, k | 0 <= j < k < |r| ensures r[j].position <= r[k].position {
      if k >= |a| {
        assert r[k] == b[k - |a|];
        if j < |a| {
          assert r[j] == a[j];
        } else {
          assert r[j] == b[j - |a|];
        }
      } else {
        assert r[j] == a[j] && r[k] == a[k];
      }
    }
  }

  /** Positions never decrease along the list. */
  lemma {:induction false} PositionsOrdered(h: Host, args: seq<Arg>, skipFieldOptions: bool)
    ensures PositionsNondecreasing(DetailsOf(h, args, skipFieldOptions))
  {
    if args != [] {
      var n := |args|;
      var init := DetailsOf(h, args[..n - 1], skipFieldOptions);
      var last := ArgDetails(h, args[n - 1], n, skipFieldOptions);
      PositionsOrdered(h, args[..n - 1], skipFieldOptions);
      assert DetailsOf(h, args, skipFieldOptions) == init + last;
      JoinNondecreasing(init, last, n);
    }
  }

  /** The number of entries: one per argument, a map's entry count, none for skipped options. */
  function DetailCount(a: Arg, skipFieldOptions: bool): nat
  {
    if a.StringMap? then |a.entries| else if skipFieldOptions && IsFieldOption(a) then 0 else 1
  }

  function TotalCount(args: seq<Arg>, skipFieldOptions: bool): nat
  {
    if args == [] then 0 else TotalCount(args[..|args| - 1], skipFieldOptions) + DetailCount(args[|args| - 1], skipFieldOptions)
  }

  lemma {:induction false} DetailsLength(h: Host, args: seq<Arg>, skipFieldOptions: bool)
    ensures |DetailsOf(h, args, skipFieldOptions)| == TotalCount(args, skipFieldOptions)
  {
    if args != [] {
      DetailsLength(h, args[..|args| - 1], skipFieldOptions);
    }
  }

  /** Without message-field options among the arguments the two revisions' lists agree. */
  lemma {:induction false} SkipIrrelevantWithoutFieldOptions(h: Host, args: seq<Arg>)
    requires forall i :: 0 <= i < |args| ==> !IsFieldOption(args[i])
    ensures DetailsOf(h, args, true) == DetailsOf(h, args, false)
  {
    if args != [] {
      var init := args[..|args| - 1];
      assert forall i :: 0 <= i < |init| ==> init[i] == args[i];
      SkipIrrelevantWithoutFieldOptions(h, init);
      SkipIrrelevantStep(h, args[|args| - 1], |args|);
    }
  }

  /** The induction step: one argument that is not a field option ignores the flag. */
  lemma SkipIrrelevantStep(h: Host, a: Arg, p: int)
    requires !IsFieldOption(a)
    ensures ArgDetails(h, a, p, true) == ArgDetails(h, a, p, false)
  {
  }

  /** One more argument appends its details at the next position. */
  lemma DetailsOfPrefix(h: Host, args: seq<Arg>, skipFieldOptions: bool, i: int)
    requires 0 <= i < |args|
    ensures DetailsOf(h, args[..i + 1], skipFieldOptions)
      == DetailsOf(h, args[..i], skipFieldOptions) + ArgDetails(h, args[i], i + 1, skipFieldOptions)
  {
    assert args[..i + 1][..i] == args[..i];
  }

  /** messageDetails: the append loop over the arguments. */
  method MessageDetails(h: Host, args: seq<Arg>, skipFieldOptions: bool) returns (result: seq<Detail>)
    ensures result == DetailsOf(h, args, skipFieldOptions)
  {
    result := [];
    var index := 0;
    while index < |args|
      invariant 0 <= index <= |args|
      invariant result == DetailsOf(h, args[..index], skipFieldOptions)
    {
      DetailsOfPrefix(h, args, skipFieldOptions, index);
      result := result + ArgDetails(h, args[index], index + 1, skipFieldOptions);
      index := index + 1;
    }
    assert args[..|args|] == args;
  }
}
