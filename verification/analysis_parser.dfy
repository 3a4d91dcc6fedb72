/**
 * The reading side of the analysis protocol: the line parser of
 * UBlendAssetFactory::BlendFileAnalyse, which turns what the analysis script
 * printed into the collection list, the material warning text and the
 * packed-texture flag.
 */
module AnalysisParser {
  import opened UnrealString

  /** BlendFileAnalyse's three out-parameters. */
  datatype Analysis = Analysis(collections: seq<string>, materialWarnings: string, isPacked: bool)

  /** What one output line does to the out-parameters. */
  datatype LineEffect =
    | Skip
    | SetCollections(names: seq<string>)
    | AppendWarning(text: string)
    | MarkPacked
      /** An 'M' line with only two fields: `Params[2]` is read past the end. */
    | IndexOutOfRange

  /**
   * How a BlendFileAnalyse call ends: the script run failed, an 'M' line
   * with two fields tripped the array range check, or the out-parameters
   * hold the analysis.
   */
  datatype AnalyseOutcome = ScriptFailed | IndexOutOfRangeHalt | Analysed(analysis: Analysis)

  /** The warning entry added for an 'M' line: tab, material, ": ", the error list, newline. */
  function WarningEntry(material: string, errors: string): string {
    "\t" + material + ": " + ReplaceAll(LeftChop(errors, 2), ",", ", ") + "\n"
  }

  /** The '|'-separated fields of a line, empty ones dropped. */
  function Fields(line: string): seq<string> {
    ParseIntoArray(line, '|', true)
  }

  function LineEffectOf(line: string): LineEffect {
    var params := Fields(line);
    if |params| <= 1 || |params[0]| != 1 then Skip
    else if params[0][0] == 'C' then SetCollections(ParseIntoArray(LeftChop(params[1], 2), ',', true))
    else if params[0][0] == 'P' then MarkPacked
    else if params[0][0] == 'M' then
      (if |params| < 3 then IndexOutOfRange else AppendWarning(WarningEntry(params[1], params[2])))
    else Skip
  }

  function Apply(a: Analysis, e: LineEffect): Analysis {
    match e
    case SetCollections(names) => a.(collections := names)
    case AppendWarning(text) => a.(materialWarnings := a.materialWarnings + text)
    case MarkPacked => a.(isPacked := true)
    case _ => a
  }

  /** The lines the parser visits: the output split on '\n', empty lines dropped. */
  function OutputLines(output: string): seq<string> {
    ParseIntoArray(output, '\n', true)
  }

  /** Reading `lines` in order, starting from the out-parameters' values `a`. */
  function ParseLines(lines: seq<string>, a: Analysis): (r: AnalyseOutcome)
    ensures !r.ScriptFailed?
  {
    if |lines| == 0 then Analysed(a)
    else if LineEffectOf(lines[0]) == IndexOutOfRange then IndexOutOfRangeHalt
    else ParseLines(lines[1..], Apply(a, LineEffectOf(lines[0])))
  }

  /**
   * The line loop of UBlendAssetFactory::BlendFileAnalyse, run on what the
   * analysis script wrote; `initial` holds the caller's out-parameters.
   */
  method ParseAnalysisOutput(output: string, initial: Analysis) returns (r: AnalyseOutcome)
    ensures r == ParseLines(OutputLines(output), initial)
  {
    var lines := ParseIntoArray(output, '\n', true);
    var collections, warnings, packed := initial.collections, initial.materialWarnings, initial.isPacked;
    var i := 0;
    while i < |lines|
      invariant 0 <= i <= |lines|
      invariant ParseLines(lines, initial) == ParseLines(lines[i..], Analysis(collections, warnings, packed))
    {
      assert lines[i..][1..] == lines[i + 1..];
      var params := ParseIntoArray(lines[i], '|', true);
      if |params| > 1 && |params[0]| == 1 {
        var tag := params[0][0];
        if tag == 'C' {
          collections := ParseIntoArray(LeftChop(params[1], 2), ',', true);
        } else if tag == 'P' {
          packed := true;
        } else if tag == 'M' {
          if |params| < 3 {
            return IndexOutOfRangeHalt;
          }
          var errors := LeftChop(params[2], 2);
          errors := ReplaceAll(errors, ",", ", ");
          warnings := warnings + ("\t" + params[1] + ": " + errors + "\n");
        }
      }
      i := i + 1;
    }
    return Analysed(Analysis(collections, warnings, packed));
  }

  // ---------------------------------------------------------------------
  // What the parse amounts to
  // ---------------------------------------------------------------------

  predicate IsCollectionLine(line: string) {
    LineEffectOf(line).SetCollections?
  }

  /** The parse halts exactly when some line is an 'M' line with two fields. */
  lemma {:induction false} HaltsIffShortMaterialLine(lines: seq<string>, a: Analysis)
    ensures ParseLines(lines, a).IndexOutOfRangeHalt? <==>
              exists i :: 0 <= i < |lines| && LineEffectOf(lines[i]) == IndexOutOfRange
  {
    if |lines| > 0 && LineEffectOf(lines[0]) != IndexOutOfRange {
      HaltsIffShortMaterialLine(lines[1..], Apply(a, LineEffectOf(lines[0])));
      if exists i :: 0 <= i < |lines| && LineEffectOf(lines[i]) == IndexOutOfRange {
        var i :| 0 <= i < |lines| && LineEffectOf(lines[i]) == IndexOutOfRange;
        assert LineEffectOf(lines[1..][i - 1]) == IndexOutOfRange;
      }
      if exists i :: 0 <= i < |lines[1..]| && LineEffectOf(lines[1..][i]) == IndexOutOfRange {
        var i :| 0 <= i < |lines[1..]| && LineEffectOf(lines[1..][i]) == IndexOutOfRange;
        assert LineEffectOf(lines[i + 1]) == IndexOutOfRange;
      }
    }
  }

  /**
   * Each collection line replaces the list: the last one wins, and without
   * any the list is left as the caller passed it.
   */
  lemma {:induction false} LastCollectionLineWins(lines: seq<string>, a: Analysis)
    requires ParseLines(lines, a).Analysed?
    ensures (forall i :: 0 <= i < |lines| ==> !IsCollectionLine(lines[i])) ==>
              ParseLines(lines, a).analysis.collections == a.collections
    ensures forall k :: 0 <= k < |lines| && IsCollectionLine(lines[k])
                        && (forall j :: k < j < |lines| ==> !IsCollectionLine(lines[j])) ==>
              ParseLines(lines, a).analysis.collections == LineEffectOf(lines[k]).names
  {
    if |lines| > 0 {
      var a' := Apply(a, LineEffectOf(lines[0]));
      var rest := lines[1..];
      LastCollectionLineWins(rest, a');
      assert forall j :: 0 <= j < |rest| ==> rest[j] == lines[j + 1];
      forall k | 0 <= k < |lines| && IsCollectionLine(lines[k])
                 && (forall j :: k < j < |lines| ==> !IsCollectionLine(lines[j]))
        ensures ParseLines(lines, a).analysis.collections == LineEffectOf(lines[k]).names
      {
        if k > 0 {
          assert rest[k - 1] == lines[k];
        } else {
          assert forall i :: 0 <= i < |rest| ==> !IsCollectionLine(rest[i]);
        }
      }
    }
  }

  /** The packed flag ends up set iff it was set already or some line is a 'P' line. */
  lemma {:induction false} PackedIffPackedLine(lines: seq<string>, a: Analysis)
    requires ParseLines(lines, a).Analysed?
    ensures ParseLines(lines, a).analysis.isPacked <==>
              a.isPacked || exists i :: 0 <= i < |lines| && LineEffectOf(lines[i]) == MarkPacked
  {
    if |lines| > 0 {
      var rest := lines[1..];
      PackedIffPackedLine(rest, Apply(a, LineEffectOf(lines[0])));
      if exists i :: 0 <= i < |lines| && LineEffectOf(lines[i]) == MarkPacked {
        var i :| 0 <= i < |lines| && LineEffectOf(lines[i]) == MarkPacked;
        if i > 0 {
          assert LineEffectOf(rest[i - 1]) == MarkPacked;
        }
      }
      if exists i :: 0 <= i < |rest| && LineEffectOf(rest[i]) == MarkPacked {
        var i :| 0 <= i < |rest| && LineEffectOf(rest[i]) == MarkPacked;
        assert LineEffectOf(lines[i + 1]) == MarkPacked;
      }
    }
  }

  /** The text a line adds to the material warnings. */
  function WarningText(e: LineEffect): string {
    if e.AppendWarning? then e.text else ""
  }

  /** The warning entries of the 'M' lines, in line order. */
  function WarningsOf(lines: seq<string>): string {
    if |lines| == 0 then "" else WarningText(LineEffectOf(lines[0])) + WarningsOf(lines[1..])
  }

  /** Applying a line adds its warning text, and nothing else, to the end of the warnings. */
  lemma AppliedWarning(a: Analysis, e: LineEffect)
    ensures Apply(a, e).materialWarnings == a.materialWarnings + WarningText(e)
  {
    if !e.AppendWarning? {
      assert a.materialWarnings + "" == a.materialWarnings;
    }
  }

  /** The warning text grows by exactly the entries of the 'M' lines, in order. */
  lemma {:induction false} WarningsAreConcatenated(lines: seq<string>, a: Analysis)
    requires ParseLines(lines, a).Analysed?
    ensures ParseLines(lines, a).analysis.materialWarnings == a.materialWarnings + WarningsOf(lines)
  {
    if |lines| == 0 {
      assert a.materialWarnings + "" == a.materialWarnings;
    } else {
      var e := LineEffectOf(lines[0]);
      var rest := lines[1..];
      assert ParseLines(lines, a) == ParseLines(rest, Apply(a, e));
      WarningsAreConcatenated(rest, Apply(a, e));
      AppliedWarning(a, e);
      assert WarningsOf(lines) == WarningText(e) + WarningsOf(rest);
      ConcatAssociative(a.materialWarnings, WarningText(e), WarningsOf(rest));
    }
  }

  // ---------------------------------------------------------------------
  // Edge cases of the line format
  // ---------------------------------------------------------------------

  /** "P|" alone has a single non-empty field and is skipped. */
  lemma LonePackedTagSkipped()
    ensures LineEffectOf("P|") == Skip
    ensures LineEffectOf("P|True\r") == MarkPacked
  {
    assert "P|" == Join(["P", ""], "|");
    SplitJoin(["P", ""], '|');
    assert RemoveEmpty(["P", ""]) == ["P"] by {
      assert ["P", ""][1..] == [""];
    }
    assert "P|True\r" == Join(["P", "True\r"], "|");
    ParseJoinCulled(["P", "True\r"], '|');
  }

  /** A 'C' line whose chopped text is the names joined by ',' sets the collection list to them. */
  lemma CollectionLineEffect(text: string, names: seq<string>)
    requires |text| > 0 && forall k :: 0 <= k < |text| ==> text[k] != '|'
    requires |names| > 0 && forall k :: 0 <= k < |names| ==> |names[k]| > 0 && ',' !in names[k]
    requires LeftChop(text, 2) == Join(names, ",")
    ensures LineEffectOf("C|" + text) == SetCollections(names)
  {
    assert "C|" + text == Join(["C", text], "|");
    ParseJoinCulled(["C", text], '|');
    ParseJoinCulled(names, ',');
  }

  /**
   * The two-character chop assumes a "\r\n" line end: a collection line
   * that ends in a bare "\n" loses the last character of its last name.
   */
  lemma BareNewlineLosesLastName()
    ensures LineEffectOf("C|a,bc,") == SetCollections(["a", "b"])
    ensures LineEffectOf("C|a,bc,\r") == SetCollections(["a", "bc"])
  {
    assert LeftChop("a,bc,", 2) == "a,b" == Join(["a", "b"], ",");
    CollectionLineEffect("a,bc,", ["a", "b"]);
    assert "C|a,bc," == "C|" + "a,bc,";
    assert LeftChop("a,bc,\r", 2) == "a,bc" == Join(["a", "bc"], ",");
    CollectionLineEffect("a,bc,\r", ["a", "bc"]);
    assert "C|a,bc,\r" == "C|" + "a,bc,\r";
  }
}
