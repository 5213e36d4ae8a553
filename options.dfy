/**
 * The command-line option tables of src/main.c: the name to code lookup of
 * find_string_var behind -c, -g, -G, -t and -m, how src/output.c reads each
 * code, and the acceptance rules of the numeric options. Turning the
 * argument text into a number (atoi, atof) and the error message are not
 * part of this model; exiting with status 1 is the None answer.
 */
module Options {
  import opened Wrappers
  import opened Glyphs
  import opened BinMap
  import opened Render

  /** var (src/main.c:75): an option spelling and the code it stands for. */
  datatype Var = Var(s: seq<char>, v: int)

  // The codes of src/output.h:6-44.
  const NoGroupingCode := 0
  const LinealGroupingCode := 1
  const LogaritmicGroupingCode := 2
  const NoGroupingFuncCode := 0
  const MaxGroupingFuncCode := 1
  const AvgGroupingFuncCode := 2
  const NoTransformCode := 0
  const LogaritmicTransformCode := 1
  const CharsetBarsCode := 1
  const CharsetBrailleCode := 2
  const CharsetBrailleWideCode := 3
  const NoSmoothCode := 0
  const Exp2SmoothCode := 1

  // The tables of src/main.c:76-98.
  const CharsetTable: seq<Var> :=
    [Var("bars", CharsetBarsCode), Var("braille", CharsetBrailleCode), Var("wide_braille", CharsetBrailleWideCode)]
  const GroupingTable: seq<Var> :=
    [Var("none", NoGroupingCode), Var("lineal", LinealGroupingCode), Var("log", LogaritmicGroupingCode)]
  const GroupingFuncTable: seq<Var> :=
    [Var("none", NoGroupingFuncCode), Var("max", MaxGroupingFuncCode), Var("avg", AvgGroupingFuncCode)]
  const TransformTable: seq<Var> := [Var("none", NoTransformCode), Var("log", LogaritmicTransformCode)]
  const SmoothingTable: seq<Var> := [Var("none", NoSmoothCode), Var("exp2", Exp2SmoothCode)]

  /** No spelling appears twice in a table. */
  predicate DistinctNames(values: seq<Var>)
  {
    forall i, j :: 0 <= i < j < |values| ==> values[i].s != values[j].s
  }

  /** The position of the first entry spelled value, or |values| when there is none. */
  function FirstIndex(value: seq<char>, values: seq<Var>): (k: nat)
    ensures k <= |values|
    ensures forall j :: 0 <= j < k ==> values[j].s != value
    ensures k < |values| ==> values[k].s == value
  {
    if values == [] then 0
    else if values[0].s == value then 0
    else 1 + FirstIndex(value, values[1..])
  }

  /**
   * The code of the first entry spelled value (src/main.c:100-109), or None
   * where find_string_var reports the value and exits.
   */
  function Lookup(value: seq<char>, values: seq<Var>): (r: Option<int>)
    ensures r.None? <==> forall j :: 0 <= j < |values| ==> values[j].s != value
    ensures r.Some? ==> exists j :: 0 <= j < |values| && values[j] == Var(value, r.value)
    ensures DistinctNames(values) ==>
              forall j :: 0 <= j < |values| && values[j].s == value ==> r == Some(values[j].v)
  {
    var k := FirstIndex(value, values);
    if k < |values| then Some(values[k].v) else None
  }

  /** find_string_var (src/main.c:100-109): the loop over the table. */
  method FindStringVar(value: seq<char>, values: seq<Var>) returns (r: Option<int>)
    ensures r == Lookup(value, values)
  {
    for i := 0 to |values|
      invariant forall j :: 0 <= j < i ==> values[j].s != value
    {
      if values[i].s == value {
        return Some(values[i].v);
      }
    }
    return None;
  }

  /** output_set_charset's switch (src/output.c:220-237): an unknown code draws bars. */
  function CharsetOf(code: int): Charset
  {
    if code == CharsetBrailleCode then Braille
    else if code == CharsetBrailleWideCode then BrailleWide
    else Bars
  }

  /** The grouping switch of output_init (src/output.c:119-133): an unknown code does not group. */
  function GroupingOf(code: int): Grouping
  {
    if code == LogaritmicGroupingCode then LogaritmicGrouping
    else if code == LinealGroupingCode then LinealGrouping
    else NoGrouping
  }

  /** The grouping function switch of output_print (src/output.c:293-320). */
  function GroupingFuncOf(code: int): GroupingFunc
  {
    if code == MaxGroupingFuncCode then MaxGroupingFunc
    else if code == AvgGroupingFuncCode then AvgGroupingFunc
    else NoGroupingFunc
  }

  /**
   * The transform flag test (src/output.c:135, 282): bit 0 of the flags. The
   * conversion of the int code to unsigned int keeps bit 0, which is the
   * Euclidean remainder by 2.
   */
  function LogTransformOf(code: int): bool
  {
    code % 2 == LogaritmicTransformCode
  }

  /** The smoothing switch of output_print (src/output.c:325-349). */
  function SmoothingOf(code: int): Smoothing
  {
    if code == Exp2SmoothCode then Exp2Smooth else NoSmooth
  }

  /** What -c accepts and the charset it selects. */
  function CharsetOption(name: seq<char>): Option<Charset>
  {
    var r := Lookup(name, CharsetTable);
    if r.Some? then Some(CharsetOf(r.value)) else None
  }

  /** What -g accepts and the grouping it selects. */
  function GroupingOption(name: seq<char>): Option<Grouping>
  {
    var r := Lookup(name, GroupingTable);
    if r.Some? then Some(GroupingOf(r.value)) else None
  }

  /** What -G accepts and the grouping function it selects. */
  function GroupingFuncOption(name: seq<char>): Option<GroupingFunc>
  {
    var r := Lookup(name, GroupingFuncTable);
    if r.Some? then Some(GroupingFuncOf(r.value)) else None
  }

  /** What -t accepts and whether it selects the logarithmic transform. */
  function TransformOption(name: seq<char>): Option<bool>
  {
    var r := Lookup(name, TransformTable);
    if r.Some? then Some(LogTransformOf(r.value)) else None
  }

  /** What -m accepts and the smoothing it selects. */
  function SmoothingOption(name: seq<char>): Option<Smoothing>
  {
    var r := Lookup(name, SmoothingTable);
    if r.Some? then Some(SmoothingOf(r.value)) else None
  }

  /** Every table spells each of its entries once. */
  lemma TablesDistinct()
    ensures DistinctNames(CharsetTable) && DistinctNames(GroupingTable) && DistinctNames(GroupingFuncTable)
    ensures DistinctNames(TransformTable) && DistinctNames(SmoothingTable)
  {
  }

  /** -c takes exactly bars, braille and wide_braille, each selecting the charset of that name. */
  lemma CharsetNames(name: seq<char>)
    ensures CharsetOption(name) ==
              if name == "bars" then Some(Bars)
              else if name == "braille" then Some(Braille)
              else if name == "wide_braille" then Some(BrailleWide)
              else None
  {
    TablesDistinct();
    if name == CharsetTable[0].s {
      assert CharsetTable[0].s == name;
    } else if name == CharsetTable[1].s {
      assert CharsetTable[1].s == name;
    } else if name == CharsetTable[2].s {
      assert CharsetTable[2].s == name;
    } else {
      assert forall j :: 0 <= j < |CharsetTable| ==> CharsetTable[j].s != name;
    }
  }

  /** -g takes exactly none, lineal and log. */
  lemma GroupingNames(name: seq<char>)
    ensures GroupingOption(name) ==
              if name == "none" then Some(NoGrouping)
              else if name == "lineal" then Some(LinealGrouping)
              else if name == "log" then Some(LogaritmicGrouping)
              else None
  {
    TablesDistinct();
    if name == GroupingTable[0].s {
      assert GroupingTable[0].s == name;
    } else if name == GroupingTable[1].s {
      assert GroupingTable[1].s == name;
    } else if name == GroupingTable[2].s {
      assert GroupingTable[2].s == name;
    } else {
      assert forall j :: 0 <= j < |GroupingTable| ==> GroupingTable[j].s != name;
    }
  }

  /** -G takes exactly none, max and avg. */
  lemma GroupingFuncNames(name: seq<char>)
    ensures GroupingFuncOption(name) ==
              if name == "none" then Some(NoGroupingFunc)
              else if name == "max" then Some(MaxGroupingFunc)
              else if name == "avg" then Some(AvgGroupingFunc)
              else None
  {
    TablesDistinct();
    if name == GroupingFuncTable[0].s {
      assert GroupingFuncTable[0].s == name;
    } else if name == GroupingFuncTable[1].s {
      assert GroupingFuncTable[1].s == name;
    } else if name == GroupingFuncTable[2].s {
      assert GroupingFuncTable[2].s == name;
    } else {
      assert forall j :: 0 <= j < |GroupingFuncTable| ==> GroupingFuncTable[j].s != name;
    }
  }

  /** -t takes exactly none and log; only log selects the logarithmic transform. */
  lemma TransformNames(name: seq<char>)
    ensures TransformOption(name) ==
              if name == "none" then Some(false)
              else if name == "log" then Some(true)
              else None
  {
    TablesDistinct();
    if name == TransformTable[0].s {
      assert TransformTable[0].s == name;
    } else if name == TransformTable[1].s {
      assert TransformTable[1].s == name;
    } else {
      assert forall j :: 0 <= j < |TransformTable| ==> TransformTable[j].s != name;
    }
  }

  /** -m takes exactly none and exp2. */
  lemma SmoothingNames(name: seq<char>)
    ensures SmoothingOption(name) ==
              if name == "none" then Some(NoSmooth)
              else if name == "exp2" then Some(Exp2Smooth)
              else None
  {
    TablesDistinct();
    if name == SmoothingTable[0].s {
      assert SmoothingTable[0].s == name;
    } else if name == SmoothingTable[1].s {
      assert SmoothingTable[1].s == name;
    } else {
      assert forall j :: 0 <= j < |SmoothingTable| ==> SmoothingTable[j].s != name;
    }
  }

  /**
   * For the codes the tables hold, output_init's test on the raw codes
   * (src/output.c:119: group only when both codes are non-zero) selects the
   * same grouping as EffectiveGrouping on the decoded options.
   */
  lemma GroupingSwitchAgrees(group: int, groupFunc: int)
    requires 0 <= group <= LogaritmicGroupingCode && 0 <= groupFunc <= AvgGroupingFuncCode
    ensures GroupingOf(if groupFunc != 0 && group != 0 then group else NoGroupingCode)
            == EffectiveGrouping(GroupingOf(group), GroupingFuncOf(groupFunc))
  {
  }

  /** atoi_exit_if_invalid (src/main.c:54-62): any non-zero result is kept, negatives included. */
  function AcceptInt(ret: int): (r: Option<int>)
    ensures r.Some? <==> ret != 0
    ensures r.Some? ==> r.value == ret
  {
    if ret != 0 then Some(ret) else None
  }

  /** atof_exit_if_invalid (src/main.c:64-72): only a positive result is kept. */
  function AcceptReal(ret: real): (r: Option<real>)
    ensures r.Some? <==> ret > 0.0
    ensures r.Some? ==> r.value == ret
  {
    if ret > 0.0 then Some(ret) else None
  }
}
