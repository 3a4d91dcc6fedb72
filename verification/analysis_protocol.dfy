/**
 * The analysis protocol end to end: the lines blender_analyse.py prints,
 * as they reach the importer through Blender's standard output, read back
 * by the BlendFileAnalyse line parser.  Python's print ends each line with
 * "\n", which the Windows console stream writes as "\r\n"; that line end is
 * what the parser's two-character chop assumes.
 */
module AnalysisProtocol {
  import opened UnrealString
  import opened BlendData
  import AnalysisParser
  import opened AnalyseScript

  /** The line end of print() on a Windows text-mode standard output. */
  const LineEnd := "\r\n"

  /** The text the printed lines make on standard output. */
  function ScriptOutput(lines: seq<string>): string {
    if |lines| == 0 then "" else lines[0] + LineEnd + ScriptOutput(lines[1..])
  }

  /** Each line with its carriage return, as the parser sees it after splitting on '\n'. */
  function WithCarriageReturn(lines: seq<string>): (r: seq<string>)
    ensures |r| == |lines| && forall k :: 0 <= k < |lines| ==> r[k] == lines[k] + "\r"
  {
    seq(|lines|, k requires 0 <= k < |lines| => lines[k] + "\r")
  }

  predicate NoNewlines(lines: seq<string>) {
    forall k :: 0 <= k < |lines| ==> '\n' !in lines[k]
  }

  lemma {:induction false} ScriptOutputIsJoin(lines: seq<string>)
    ensures ScriptOutput(lines) == Join(WithCarriageReturn(lines) + [""], "\n")
  {
    if |lines| > 0 {
      ScriptOutputIsJoin(lines[1..]);
      var parts := WithCarriageReturn(lines) + [""];
      assert parts[1..] == WithCarriageReturn(lines[1..]) + [""];
      assert |parts| > 1;
      assert lines[0] + LineEnd + ScriptOutput(lines[1..]) == parts[0] + "\n" + Join(parts[1..], "\n");
    }
  }

  lemma {:induction false} RemoveEmptyTrailing(parts: seq<string>)
    requires forall k :: 0 <= k < |parts| ==> parts[k] != ""
    ensures RemoveEmpty(parts + [""]) == parts
  {
    if |parts| == 0 {
      assert RemoveEmpty([""]) == RemoveEmpty([""][1..]);
    } else {
      assert (parts + [""])[1..] == parts[1..] + [""];
      RemoveEmptyTrailing(parts[1..]);
      assert parts == [parts[0]] + parts[1..];
    }
  }

  /** Splitting the output on '\n' gives back every printed line, with its '\r'. */
  lemma OutputLinesOfScript(lines: seq<string>)
    requires NoNewlines(lines)
    ensures AnalysisParser.OutputLines(ScriptOutput(lines)) == WithCarriageReturn(lines)
  {
    ScriptOutputIsJoin(lines);
    if |lines| > 0 {
      var parts := WithCarriageReturn(lines) + [""];
      forall k | 0 <= k < |parts|
        ensures '\n' !in parts[k]
      {
        if k < |lines| {
          assert parts[k] == lines[k] + "\r";
        }
      }
      SplitJoin(parts, '\n');
      RemoveEmptyTrailing(WithCarriageReturn(lines));
      assert |ScriptOutput(lines)| > 0 by {
        assert ScriptOutput(lines) == lines[0] + LineEnd + ScriptOutput(lines[1..]);
      }
    }
  }

  // ---------------------------------------------------------------------
  // One line at a time
  // ---------------------------------------------------------------------

  /** A name that survives the protocol: not empty, no field, list or line separator in it. */
  predicate CleanName(name: string) {
    name != "" && ',' !in name && '|' !in name && '\n' !in name
  }

  lemma {:induction false} TerminatedIsJoin(parts: seq<string>)
    requires |parts| > 0
    ensures Terminated(parts) == Join(parts, ",") + ","
  {
    if |parts| > 1 {
      TerminatedIsJoin(parts[1..]);
      assert Terminated(parts) == parts[0] + "," + (Join(parts[1..], ",") + ",");
    }
  }

  /** Terminating the parts with ',' adds no other character: one absent from every part stays absent. */
  lemma {:induction false} NoCharInTerminated(parts: seq<string>, c: char)
    requires c != ','
    requires forall k :: 0 <= k < |parts| ==> c !in parts[k]
    ensures c !in Terminated(parts)
  {
    if |parts| > 0 {
      NoCharInTerminated(parts[1..], c);
    }
  }

  /** A line without '|' has at most one field and is skipped (Blender's own messages, the last line). */
  lemma LineWithoutBarSkipped(line: string)
    requires '|' !in line
    ensures AnalysisParser.LineEffectOf(line) == AnalysisParser.Skip
  {
    if |line| > 0 {
      SplitJoin([line], '|');
      assert Join([line], "|") == line;
      RemoveEmptyOfNonEmpty([line]);
      assert AnalysisParser.Fields(line) == [line];
    }
  }

  /** The collection line, read back, gives exactly the listed names. */
  lemma CollectionLineRead(names: seq<string>)
    requires forall k :: 0 <= k < |names| ==> CleanName(names[k])
    ensures AnalysisParser.LineEffectOf(CollectionLine(names) + "\r") == AnalysisParser.SetCollections(names)
  {
    var field := Terminated(names) + "\r";
    NoCharInTerminated(names, '|');
    assert CollectionLine(names) + "\r" == Join(["C", field], "|");
    ParseJoinCulled(["C", field], '|');
    if |names| > 0 {
      TerminatedIsJoin(names);
      assert LeftChop(field, 2) == Join(names, ",");
    } else {
      assert LeftChop(field, 2) == "";
    }
    ParseJoinCulled(names, ',');
  }

  /** MatchAt of "," is a plain comparison with ','. */
  lemma MatchCommaAt(s: string, i: int)
    ensures MatchAt(s, ",", i) <==> 0 <= i < |s| && s[i] == ','
  {
    if 0 <= i < |s| {
      assert ToLower(s[i..i + 1])[0] == ToLowerChar(s[i]);
      assert ToLower(",")[0] == ',';
      if s[i] == ',' {
        assert ToLower(s[i..i + 1]) == ToLower(",");
      }
    }
  }

  /** Replacing "," with ", " in a comma-join of comma-free parts gives their ", "-join. */
  lemma {:induction false} ReplaceCommas(parts: seq<string>)
    requires forall k :: 0 <= k < |parts| ==> ',' !in parts[k]
    ensures ReplaceAll(Join(parts, ","), ",", ", ") == Join(parts, ", ")
  {
    if |parts| == 1 {
      forall i | 0 <= i < |parts[0]|
        ensures !MatchAt(parts[0], ",", i)
      {
        MatchCommaAt(parts[0], i);
      }
      ReplaceAllNoMatch(parts[0], ",", ", ");
    } else if |parts| > 1 {
      var p := parts[0];
      var rest := Join(parts[1..], ",");
      assert Join(parts, ",") == p + ("," + rest);
      ReplaceCommaAfter(p, rest);
      ReplaceCommas(parts[1..]);
      assert Join(parts, ", ") == p + (", " + Join(parts[1..], ", "));
    }
  }

  /** The first ',' after a comma-free prefix is the first one replaced. */
  lemma ReplaceCommaAfter(p: string, rest: string)
    requires ',' !in p
    ensures ReplaceAll(p + ("," + rest), ",", ", ") == p + (", " + ReplaceAll(rest, ",", ", "))
  {
    forall i | 0 <= i < |p|
      ensures !MatchAt(p + ("," + rest), ",", i)
    {
      MatchCommaAt(p + ("," + rest), i);
      assert (p + ("," + rest))[i] == p[i];
    }
    ReplaceAllPrefix(p, "," + rest, ",", ", ");
    ReplaceAllHead(",", rest, ", ");
  }

  /** The warning entry the importer adds for a material's line. */
  function WarningFor(name: string, errors: seq<string>): string {
    "\t" + name + ": " + Join(errors, ", ") + "\n"
  }

  /** A material name an "M" line carries intact: not empty, no field separator, no line break. */
  predicate MaterialName(name: string) {
    name != "" && '|' !in name && '\n' !in name
  }

  /** An error code an "M" line carries intact: no list or field separator, no line break. */
  predicate ErrorCode(code: string) {
    ',' !in code && '|' !in code && '\n' !in code
  }

  /** A material line, read back, adds the material's errors separated by ", ". */
  lemma MaterialLineRead(name: string, errors: seq<string>)
    requires MaterialName(name) && |errors| > 0
    requires forall k :: 0 <= k < |errors| ==> ErrorCode(errors[k])
    ensures AnalysisParser.LineEffectOf(MaterialLine(name, errors) + "\r")
              == AnalysisParser.AppendWarning(WarningFor(name, errors))
  {
    var field := Terminated(errors) + "\r";
    NoCharInTerminated(errors, '|');
    var parts := ["M", name, field];
    assert parts[1..] == [name, field] && [name, field][1..] == [field];
    assert Join([name, field], "|") == name + "|" + field;
    assert Join(parts, "|") == "M" + "|" + Join([name, field], "|");
    assert MaterialLine(name, errors) + "\r" == Join(parts, "|");
    ParseJoinCulled(["M", name, field], '|');
    TerminatedIsJoin(errors);
    assert LeftChop(field, 2) == Join(errors, ",");
    ReplaceCommas(errors);
  }

  /** "P|True" is read as the packed flag. */
  lemma PackedLineRead()
    ensures AnalysisParser.LineEffectOf(PackedLine + "\r") == AnalysisParser.MarkPacked
  {
    assert PackedLine + "\r" == "P|True\r";
    AnalysisParser.LonePackedTagSkipped();
  }

  // ---------------------------------------------------------------------
  // Whole outputs
  // ---------------------------------------------------------------------

  lemma {:induction false} ParseLinesAppend(a: seq<string>, b: seq<string>, x: AnalysisParser.Analysis)
    requires AnalysisParser.ParseLines(a, x).Analysed?
    ensures AnalysisParser.ParseLines(a + b, x) == AnalysisParser.ParseLines(b, AnalysisParser.ParseLines(a, x).analysis)
  {
    if |a| > 0 {
      assert (a + b)[0] == a[0];
      assert (a + b)[1..] == a[1..] + b;
      ParseLinesAppend(a[1..], b, AnalysisParser.Apply(x, AnalysisParser.LineEffectOf(a[0])));
    } else {
      assert a + b == b;
    }
  }

  lemma WithCarriageReturnAppend(a: seq<string>, b: seq<string>)
    ensures WithCarriageReturn(a + b) == WithCarriageReturn(a) + WithCarriageReturn(b)
  {
  }

  lemma NoNewlinesAppend(a: seq<string>, b: seq<string>)
    requires NoNewlines(a) && NoNewlines(b)
    ensures NoNewlines(a + b)
  {
    forall k | 0 <= k < |a + b|
      ensures '\n' !in (a + b)[k]
    {
      if k >= |a| {
        assert (a + b)[k] == b[k - |a|];
      }
    }
  }

  /** Every entry has a carried material name and carried error codes. */
  predicate WellFormedOutput(output: Dict<MaterialReport>) {
    forall e :: e in output ==> MaterialName(e.0) && forall c :: c in e.1.errors ==> ErrorCode(c)
  }

  /** The warnings text the entries should give: one entry per material with errors, in entry order. */
  function Warnings(output: Dict<MaterialReport>): string {
    if |output| == 0 then ""
    else
      (if |output[0].1.errors| > 0 then WarningFor(output[0].0, output[0].1.errors) else "")
        + Warnings(output[1..])
  }

  /** One line, read back, has the effect of one parse step. */
  lemma OneLineRead(line: string, a: AnalysisParser.Analysis)
    requires AnalysisParser.LineEffectOf(line) != AnalysisParser.IndexOutOfRange
    ensures AnalysisParser.ParseLines([line], a)
            == AnalysisParser.Analysed(AnalysisParser.Apply(a, AnalysisParser.LineEffectOf(line)))
  {
    assert [line][1..] == [];
  }

  /** The "M" lines, read back, add exactly the entries' warnings. */
  lemma {:induction false} MaterialLinesRead(output: Dict<MaterialReport>, names: seq<string>, w: string, p: bool)
    requires WellFormedOutput(output)
    ensures NoNewlines(MaterialLines(output))
    ensures AnalysisParser.ParseLines(WithCarriageReturn(MaterialLines(output)), AnalysisParser.Analysis(names, w, p))
            == AnalysisParser.Analysed(AnalysisParser.Analysis(names, w + Warnings(output), p))
  {
    if |output| == 0 {
      assert w + "" == w;
    } else {
      var e := output[0];
      var rest := output[1..];
      WellFormedParts(output);
      MaterialLinesStep(output);
      if |e.1.errors| > 0 {
        var line := MaterialLine(e.0, e.1.errors);
        var text := WarningFor(e.0, e.1.errors);
        MaterialLinesRead(rest, names, w + text, p);
        MaterialLineRead(e.0, e.1.errors);
        NoCharInTerminated(e.1.errors, '\n');
        WarningLineRead(line, text, MaterialLines(rest), names, w, p, Warnings(rest));
      } else {
        MaterialLinesRead(rest, names, w, p);
        assert MaterialLines(output) == MaterialLines(rest);
        assert Warnings(output) == Warnings(rest);
      }
    }
  }

  /** A warning line in front of others, read back: its warning, then the others' effect. */
  lemma WarningLineRead(line: string, text: string, more: seq<string>,
                        names: seq<string>, w: string, p: bool, tail: string)
    requires AnalysisParser.LineEffectOf(line + "\r") == AnalysisParser.AppendWarning(text)
    requires '\n' !in line && NoNewlines(more)
    requires AnalysisParser.ParseLines(WithCarriageReturn(more), AnalysisParser.Analysis(names, w + text, p))
             == AnalysisParser.Analysed(AnalysisParser.Analysis(names, w + text + tail, p))
    ensures NoNewlines([line] + more)
    ensures AnalysisParser.ParseLines(WithCarriageReturn([line] + more), AnalysisParser.Analysis(names, w, p))
            == AnalysisParser.Analysed(AnalysisParser.Analysis(names, w + (text + tail), p))
  {
    var wc := WithCarriageReturn([line] + more);
    assert wc[0] == line + "\r";
    assert wc[1..] == WithCarriageReturn(more);
    NoNewlinesAppend([line], more);
    assert w + text + tail == w + (text + tail);
  }

  lemma MaterialLinesStep(output: Dict<MaterialReport>)
    requires |output| > 0
    ensures var e := output[0];
            MaterialLines(output)
              == (if |e.1.errors| > 0 then [MaterialLine(e.0, e.1.errors)] else []) + MaterialLines(output[1..])
            && Warnings(output)
              == (if |e.1.errors| > 0 then WarningFor(e.0, e.1.errors) else "") + Warnings(output[1..])
  {
  }

  lemma WellFormedParts(output: Dict<MaterialReport>)
    requires WellFormedOutput(output) && |output| > 0
    ensures MaterialName(output[0].0) && forall c :: c in output[0].1.errors ==> ErrorCode(c)
    ensures WellFormedOutput(output[1..])
  {
    assert output[0] in output;
    forall x | x in output[1..]
      ensures x in output
    {
    }
  }

  /** Upper-casing and replacing spaces adds no separator to an input name. */
  lemma SafeInputNameCarried(name: string)
    requires ErrorCode(name)
    ensures ErrorCode(SafeInputName(name))
  {
    var r := SafeInputName(name);
    forall k | 0 <= k < |r|
      ensures r[k] != ',' && r[k] != '|' && r[k] != '\n'
    {
      assert name[k] in name;
    }
  }

  lemma ErrorCodeConcat(x: string, y: string)
    ensures ErrorCode(x + y) <==> ErrorCode(x) && ErrorCode(y)
  {
  }

  /** Upper-case letters and underscores: how the script's own codes are spelt. */
  predicate UpperWord(s: string) {
    forall k :: 0 <= k < |s| ==> 'A' <= s[k] <= 'Z' || s[k] == '_'
  }

  lemma UpperWordIsCode(s: string)
    requires UpperWord(s)
    ensures ErrorCode(s)
  {
  }

  lemma CodePiecesCarried()
    ensures ErrorCode("BSDF_") && ErrorCode("_INPUT_NOT_NORMAL_MAP") && ErrorCode("_INPUT_NOT_TEXTURE")
  {
    assert UpperWord("BSDF_") && UpperWord("_INPUT_NOT_NORMAL_MAP") && UpperWord("_INPUT_NOT_TEXTURE");
    UpperWordIsCode("BSDF_");
    UpperWordIsCode("_INPUT_NOT_NORMAL_MAP");
    UpperWordIsCode("_INPUT_NOT_TEXTURE");
  }

  lemma NoMaterialOutputCarried() ensures ErrorCode(NoMaterialOutput) {
    assert UpperWord(NoMaterialOutput);
    UpperWordIsCode(NoMaterialOutput);
  }

  lemma SurfaceNotConnectedCarried() ensures ErrorCode(SurfaceNotConnected) {
    assert UpperWord(SurfaceNotConnected);
    UpperWordIsCode(SurfaceNotConnected);
  }

  lemma SurfaceNotBsdfCarried() ensures ErrorCode(SurfaceNotBsdf) {
    assert UpperWord(SurfaceNotBsdf);
    UpperWordIsCode(SurfaceNotBsdf);
  }

  lemma NormalColorNotConnectedCarried() ensures ErrorCode(NormalColorNotConnected) {
    assert UpperWord(NormalColorNotConnected);
    UpperWordIsCode(NormalColorNotConnected);
  }

  /** The codes an input's check can record carry no separator when the input name has none. */
  lemma CandidateCodesCarried(inputName: string)
    requires ErrorCode(inputName)
    ensures ErrorCode("BSDF_" + SafeInputName(inputName) + "_INPUT_NOT_NORMAL_MAP")
    ensures ErrorCode("BSDF_" + SafeInputName(inputName) + "_INPUT_NOT_TEXTURE")
  {
    var safe := SafeInputName(inputName);
    SafeInputNameCarried(inputName);
    CodePiecesCarried();
    ErrorCodeConcat("BSDF_", safe);
    ErrorCodeConcat("BSDF_" + safe, "_INPUT_NOT_NORMAL_MAP");
    ErrorCodeConcat("BSDF_" + safe, "_INPUT_NOT_TEXTURE");
  }

  lemma InputCodeCarried(bsdf: Node, inputName: string)
    requires ErrorCode(inputName)
    ensures CheckInput(bsdf, inputName).Error? ==> ErrorCode(CheckInput(bsdf, inputName).code)
  {
    CandidateCodesCarried(inputName);
    NormalColorNotConnectedCarried();
  }

  lemma {:induction false} ErrorCodesCarried(bsdf: Node, names: seq<string>)
    requires forall k :: 0 <= k < |names| ==> ErrorCode(names[k])
    ensures forall c :: c in ErrorCodes(bsdf, names) ==> ErrorCode(c)
  {
    if |names| > 0 {
      InputCodeCarried(bsdf, names[0]);
      ErrorCodesCarried(bsdf, names[1..]);
    }
  }

  /** Every error a material's check records is carried intact by its "M" line. */
  lemma ReportCodesCarried(mat: Material, order: seq<string>)
    requires forall k :: 0 <= k < |order| ==> ErrorCode(order[k])
    ensures CheckMaterialSpec(mat, order).Value? ==>
              forall c :: c in CheckMaterialSpec(mat, order).value.errors ==> ErrorCode(c)
  {
    var search := FindBsdfNode(mat);
    if search.NoBsdf? {
      NoMaterialOutputCarried();
      SurfaceNotConnectedCarried();
      SurfaceNotBsdfCarried();
      assert CheckMaterialSpec(mat, order).value.errors == [search.error];
    } else if search.FoundBsdf? {
      var bsdf := search.node;
      var empty := MaterialReport([], []);
      assert CheckMaterialSpec(mat, order) == CheckInputs(bsdf, order, empty);
      if CheckInputs(bsdf, order, empty).Value? {
        CheckInputsErrors(bsdf, order, empty);
        ErrorCodesCarried(bsdf, order);
        assert [] + ErrorCodes(bsdf, order) == ErrorCodes(bsdf, order);
      }
    }
  }

  lemma {:induction false} CheckMaterialsCarried(materials: seq<Material>, order: seq<string>,
                                                 output: Dict<MaterialReport>)
    requires WellFormedOutput(output)
    requires forall k :: 0 <= k < |materials| ==> MaterialName(materials[k].name)
    requires forall k :: 0 <= k < |order| ==> ErrorCode(order[k])
    ensures CheckMaterialsSpec(materials, order, output).Value? ==>
              WellFormedOutput(CheckMaterialsSpec(materials, order, output).value)
  {
    if |materials| > 0 {
      var mat := materials[0];
      if mat.name == SkippedMaterial {
        CheckMaterialsCarried(materials[1..], order, output);
      } else {
        match CheckMaterialSpec(mat, order)
        case Raise(_) =>
        case Value(report) =>
          ReportCodesCarried(mat, order);
          CheckMaterialsCarried(materials[1..], order, Put(output, mat.name, report));
      }
    }
  }

  /** The completion line has no '|' and is skipped. */
  lemma CompleteLineSkipped()
    ensures AnalysisParser.LineEffectOf(CompleteLine + "\r") == AnalysisParser.Skip
  {
    assert CompleteLine + "\r" == "Analysis Complete\r";
    assert '|' !in "Analysis Complete\r";
    LineWithoutBarSkipped(CompleteLine + "\r");
  }

  /** The lines after the material lines: the packed flag, if any, and the skipped completion line. */
  lemma TrailerRead(packed: bool, names: seq<string>, w: string)
    ensures var trailer := (if packed then [PackedLine] else []) + [CompleteLine];
            NoNewlines(trailer)
            && AnalysisParser.ParseLines(WithCarriageReturn(trailer), AnalysisParser.Analysis(names, w, false))
               == AnalysisParser.Analysed(AnalysisParser.Analysis(names, w, packed))
  {
    CompleteLineSkipped();
    PackedLineRead();
    var trailer := (if packed then [PackedLine] else []) + [CompleteLine];
    var wc := WithCarriageReturn(trailer);
    if packed {
      assert wc == [PackedLine + "\r"] + [CompleteLine + "\r"];
      OneLineRead(PackedLine + "\r", AnalysisParser.Analysis(names, w, false));
      OneLineRead(CompleteLine + "\r", AnalysisParser.Analysis(names, w, true));
      ParseLinesAppend([PackedLine + "\r"], [CompleteLine + "\r"], AnalysisParser.Analysis(names, w, false));
    } else {
      assert wc == [CompleteLine + "\r"];
      OneLineRead(CompleteLine + "\r", AnalysisParser.Analysis(names, w, false));
    }
  }

  /** The output of a run whose material checks finish, read back. */
  lemma CompleteOutputRead(names: seq<string>, output: Dict<MaterialReport>)
    requires forall k :: 0 <= k < |names| ==> CleanName(names[k])
    requires WellFormedOutput(output)
    ensures var lines := [CollectionLine(names)] + MaterialLines(output)
                         + (if AnyPacked(output) then [PackedLine] else []) + [CompleteLine];
            NoNewlines(lines)
            && AnalysisParser.ParseLines(AnalysisParser.OutputLines(ScriptOutput(lines)), AnalysisParser.Analysis([], "", false))
               == AnalysisParser.Analysed(AnalysisParser.Analysis(names, Warnings(output), AnyPacked(output)))
  {
    var cline := CollectionLine(names);
    var mlines := MaterialLines(output);
    var trailer := (if AnyPacked(output) then [PackedLine] else []) + [CompleteLine];
    var lines := [CollectionLine(names)] + MaterialLines(output)
                 + (if AnyPacked(output) then [PackedLine] else []) + [CompleteLine];
    assert lines == [cline] + (mlines + trailer);
    CollectionLineHead(names);
    MaterialLinesRead(output, names, "", false);
    assert "" + Warnings(output) == Warnings(output);
    TrailerRead(AnyPacked(output), names, Warnings(output));
    NoNewlinesAppend(mlines, trailer);
    NoNewlinesAppend([cline], mlines + trailer);
    OutputLinesOfScript(lines);
    WithCarriageReturnAppend([cline], mlines + trailer);
    WithCarriageReturnAppend(mlines, trailer);
    ParseLinesAppend(WithCarriageReturn([cline]), WithCarriageReturn(mlines + trailer),
                     AnalysisParser.Analysis([], "", false));
    ParseLinesAppend(WithCarriageReturn(mlines), WithCarriageReturn(trailer),
                     AnalysisParser.Analysis(names, "", false));
  }

  /** The collection line alone, read back. */
  lemma CollectionLineHead(names: seq<string>)
    requires forall k :: 0 <= k < |names| ==> CleanName(names[k])
    ensures NoNewlines([CollectionLine(names)])
    ensures AnalysisParser.ParseLines(WithCarriageReturn([CollectionLine(names)]), AnalysisParser.Analysis([], "", false))
            == AnalysisParser.Analysed(AnalysisParser.Analysis(names, "", false))
  {
    var cline := CollectionLine(names);
    NoCharInTerminated(names, '\n');
    CollectionLineRead(names);
    assert WithCarriageReturn([cline]) == [cline + "\r"];
    OneLineRead(cline + "\r", AnalysisParser.Analysis([], "", false));
  }

  /**
   * Lines Blender itself writes to the same pipe around the script's output
   * (its version banner, "Read blend: …", "Blender quit"): no '|' and no
   * line break.
   */
  predicate BannerLines(lines: seq<string>) {
    forall k :: 0 <= k < |lines| ==> '|' !in lines[k] && '\n' !in lines[k]
  }

  /** Banner lines leave the parse state as it is. */
  lemma {:induction false} BannerLinesSkipped(lines: seq<string>, x: AnalysisParser.Analysis)
    requires BannerLines(lines)
    ensures NoNewlines(lines)
    ensures AnalysisParser.ParseLines(WithCarriageReturn(lines), x) == AnalysisParser.Analysed(x)
  {
    if |lines| > 0 {
      var wc := WithCarriageReturn(lines);
      assert wc[0] == lines[0] + "\r";
      assert '|' !in lines[0] + "\r";
      LineWithoutBarSkipped(lines[0] + "\r");
      assert wc[1..] == WithCarriageReturn(lines[1..]);
      BannerLinesSkipped(lines[1..], x);
    }
  }

  /** The script's own lines, split off the stream, read back. */
  lemma AnalysisLinesRead(root: LayerCollection, materials: seq<Material>, order: seq<string>)
    requires forall x :: x in Walk(root) ==> CleanName(x.name)
    requires forall k :: 0 <= k < |materials| ==> MaterialName(materials[k].name)
    requires forall k :: 0 <= k < |order| ==> ErrorCode(order[k])
    ensures NoNewlines(AnalysisLines(root, materials, order))
    ensures var read := AnalysisParser.ParseLines(
                          WithCarriageReturn(AnalysisLines(root, materials, order)),
                          AnalysisParser.Analysis([], "", false));
            var names := Names(Walk(root));
            match CheckMaterialsSpec(materials, order, [])
            case Raise(_) => read == AnalysisParser.Analysed(AnalysisParser.Analysis(names, "", false))
            case Value(output) =>
              read == AnalysisParser.Analysed(AnalysisParser.Analysis(names, Warnings(output), AnyPacked(output)))
  {
    var names := Names(Walk(root));
    forall k | 0 <= k < |names|
      ensures CleanName(names[k])
    {
      assert Walk(root)[k] in Walk(root);
    }
    match CheckMaterialsSpec(materials, order, [])
    case Raise(_) =>
      CollectionLineHead(names);
    case Value(output) =>
      CheckMaterialsCarried(materials, order, []);
      CompleteOutputRead(names, output);
      OutputLinesOfScript(AnalysisLines(root, materials, order));
  }

  /**
   * What the importer reads from Blender's output around an analysis run:
   * the visible collections, one warning entry per material with errors,
   * and the packed flag; when a material check raises, the visible
   * collections alone.  Blender's own lines before and after are skipped.
   */
  lemma AnalysisReadBack(pre: seq<string>, root: LayerCollection, materials: seq<Material>, order: seq<string>,
                         post: seq<string>)
    requires BannerLines(pre) && BannerLines(post)
    requires forall x :: x in Walk(root) ==> CleanName(x.name)
    requires forall k :: 0 <= k < |materials| ==> MaterialName(materials[k].name)
    requires forall k :: 0 <= k < |order| ==> ErrorCode(order[k])
    ensures var read := AnalysisParser.ParseLines(
                          AnalysisParser.OutputLines(ScriptOutput(pre + AnalysisLines(root, materials, order) + post)),
                          AnalysisParser.Analysis([], "", false));
            var names := Names(Walk(root));
            match CheckMaterialsSpec(materials, order, [])
            case Raise(_) => read == AnalysisParser.Analysed(AnalysisParser.Analysis(names, "", false))
            case Value(output) =>
              read == AnalysisParser.Analysed(AnalysisParser.Analysis(names, Warnings(output), AnyPacked(output)))
  {
    var init := AnalysisParser.Analysis([], "", false);
    var lines := AnalysisLines(root, materials, order);
    AnalysisLinesRead(root, materials, order);
    var read := AnalysisParser.ParseLines(WithCarriageReturn(lines), init);
    BannerLinesSkipped(pre, init);
    BannerLinesSkipped(post, read.analysis);
    NoNewlinesAppend(pre, lines);
    NoNewlinesAppend(pre + lines, post);
    OutputLinesOfScript(pre + lines + post);
    WithCarriageReturnAppend(pre, lines);
    WithCarriageReturnAppend(pre + lines, post);
    ParseLinesAppend(WithCarriageReturn(pre), WithCarriageReturn(lines), init);
    ParseLinesAppend(WithCarriageReturn(pre) + WithCarriageReturn(lines), WithCarriageReturn(post), init);
  }
}
