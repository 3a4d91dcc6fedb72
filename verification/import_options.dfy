/**
 * UBlendImportOptions: the per-asset import options and their persisted
 * string form "<true|false>;<name>,<name>,...".
 */
module ImportOptions {
  import opened Wrappers
  import opened UnrealString


  /** Number of occurrences of `d` in `s`. */
  function CountChar(s: string, d: char): nat {
    if |s| == 0 then 0 else (if s[0] == d then 1 else 0) + CountChar(s[1..], d)
  }

  /**
   * What FromString makes of a string: rejected, or the pivot flag and, when
   * the text after ';' is not empty, the collection list (None: the list
   * already held is kept).
   */
  datatype Decoded = Rejected | Accepted(useObjectPivot: bool, collections: Option<seq<string>>)

  function DecodeOptions(data: string): Decoded {
    var params := ParseIntoArray(data, ';', false);
    if |params| != 2 then Rejected
    else Accepted(ToBool(params[0]),
                  if params[1] == "" then None else Some(ParseIntoArray(params[1], ',', true)))
  }

  /** The text ToString writes for the given options. */
  function OptionsText(useObjectPivot: bool, enabledCollections: seq<string>): string {
    BoolText(useObjectPivot) + ";" + Join(enabledCollections, ",")
  }

  predicate NoSemicolons(names: seq<string>) {
    forall k :: 0 <= k < |names| ==> ';' !in names[k]
  }

  class BlendImportOptions {
    var useObjectPivot: bool
    var enabledCollections: seq<string>

    constructor ()
      ensures !useObjectPivot && enabledCollections == []
    {
      useObjectPivot := false;
      enabledCollections := [];
    }

    /**
     * UBlendImportOptions::ToString.  As long as no collection name contains
     * ';', the text falls apart on ';' into exactly the pivot flag's text
     * and the comma-joined collection names.
     */
    function ToString(): (r: string)
      reads this
      ensures NoSemicolons(enabledCollections) ==>
                ParseIntoArray(r, ';', false) == [BoolText(useObjectPivot), Join(enabledCollections, ",")]
    {
      if NoSemicolons(enabledCollections) then
        OptionsFields(useObjectPivot, enabledCollections);
        OptionsText(useObjectPivot, enabledCollections)
      else
        OptionsText(useObjectPivot, enabledCollections)
    }

    /**
     * UBlendImportOptions::FromString.  Succeeds iff the text has exactly two
     * ';'-separated fields; on failure nothing changes.  An empty second
     * field leaves the collection list as it was.
     */
    method FromString(data: string) returns (ok: bool)
      modifies this
      ensures ok <==> CountChar(data, ';') == 1
      ensures ok == DecodeOptions(data).Accepted?
      ensures !ok ==> unchanged(this)
      ensures ok ==> useObjectPivot == DecodeOptions(data).useObjectPivot
      ensures ok ==> enabledCollections == match DecodeOptions(data).collections
                                           case None => old(enabledCollections)
                                           case Some(names) => names
    {
      DecodeAcceptsIffOneSeparator(data);
      var params := ParseIntoArray(data, ';', false);
      if |params| == 2 {
        useObjectPivot := ToBool(params[0]);
        if params[1] != "" {
          enabledCollections := ParseIntoArray(params[1], ',', true);
        }
        ok := true;
      } else {
        ok := false;
      }
    }
  }

  // ---------------------------------------------------------------------
  // Properties of the persisted form
  // ---------------------------------------------------------------------

  lemma {:induction false} CountCharAppend(a: string, b: string, d: char)
    ensures CountChar(a + b, d) == CountChar(a, d) + CountChar(b, d)
    decreases |a|
  {
    if |a| > 0 {
      assert (a + b)[1..] == a[1..] + b;
      CountCharAppend(a[1..], b, d);
    } else {
      assert a + b == b;
    }
  }

  /** Splitting yields one more piece than there are delimiters. */
  lemma {:induction false} SplitCount(s: string, d: char)
    ensures |Split(s, d)| == CountChar(s, d) + 1
    decreases |s|
  {
    if |s| > 0 {
      SplitCount(s[1..], d);
    }
  }

  /** FromString accepts a string exactly when it holds one ';'. */
  lemma DecodeAcceptsIffOneSeparator(data: string)
    ensures DecodeOptions(data).Accepted? <==> CountChar(data, ';') == 1
  {
    if |data| > 0 {
      SplitCount(data, ';');
    }
  }

  /** The persisted text has exactly two ';'-fields when no name holds ';'. */
  lemma OptionsFields(useObjectPivot: bool, names: seq<string>)
    requires NoSemicolons(names)
    ensures ParseIntoArray(OptionsText(useObjectPivot, names), ';', false)
              == [BoolText(useObjectPivot), Join(names, ",")]
  {
    var j := Join(names, ",");
    NoSemicolonInJoin(names);
    var text := OptionsText(useObjectPivot, names);
    assert text == BoolText(useObjectPivot) + ([';'] + j);
    assert ';' !in BoolText(useObjectPivot);
    SplitPrefix(BoolText(useObjectPivot), [';'] + j, ';');
    SplitAfterDelimiter(j, ';');
    SplitPrefix(j, "", ';');
    assert j + "" == j;
    var sj := Split(j, ';');
    assert sj == [j + Split("", ';')[0]] + Split("", ';')[1..];
    assert sj == [j];
    var after := Split([';'] + j, ';');
    assert after == [""] + [j];
    assert BoolText(useObjectPivot) + "" == BoolText(useObjectPivot);
  }

  lemma {:induction false} NoSemicolonInJoin(names: seq<string>)
    requires NoSemicolons(names)
    ensures ';' !in Join(names, ",")
  {
    if |names| > 1 {
      NoSemicolonInJoin(names[1..]);
      assert Join(names, ",") == names[0] + "," + Join(names[1..], ",");
    }
  }

  /**
   * ToString followed by FromString restores both fields, provided the list
   * is not empty and every name is non-empty and free of ',' and ';'.
   */
  lemma OptionsRoundTrip(useObjectPivot: bool, names: seq<string>)
    requires |names| > 0
    requires forall k :: 0 <= k < |names| ==> names[k] != "" && ',' !in names[k] && ';' !in names[k]
    ensures DecodeOptions(OptionsText(useObjectPivot, names)) == Accepted(useObjectPivot, Some(names))
  {
    OptionsFields(useObjectPivot, names);
    BoolTextRoundTrip(useObjectPivot);
    ParseJoinCulled(names, ',');
    JoinNonEmpty(names, ",");
  }

  /**
   * An empty collection list is written as "<flag>;", which FromString
   * accepts without touching the list it already holds: the round trip does
   * not restore an empty list over a non-empty one.
   */
  lemma EmptyListKeepsPrevious(useObjectPivot: bool)
    ensures DecodeOptions(OptionsText(useObjectPivot, [])) == Accepted(useObjectPivot, None)
  {
    OptionsFields(useObjectPivot, []);
    BoolTextRoundTrip(useObjectPivot);
  }

  lemma {:induction false} CountInJoin(names: seq<string>, k: nat, d: char)
    requires k < |names|
    ensures CountChar(Join(names, ","), d) >= CountChar(names[k], d)
    decreases |names|
  {
    if |names| > 1 {
      CountCharAppend(names[0] + ",", Join(names[1..], ","), d);
      CountCharAppend(names[0], ",", d);
      if k > 0 {
        CountInJoin(names[1..], k - 1, d);
      }
    }
  }

  lemma {:induction false} CountPositive(s: string, d: char)
    requires d in s
    ensures CountChar(s, d) >= 1
    decreases |s|
  {
    if s[0] != d {
      assert d in s[1..];
      CountPositive(s[1..], d);
    }
  }

  /** A collection name holding ';' makes the persisted options unreadable. */
  lemma SemicolonInNameRejected(useObjectPivot: bool, names: seq<string>, k: nat)
    requires k < |names| && ';' in names[k]
    ensures DecodeOptions(OptionsText(useObjectPivot, names)) == Rejected
  {
    CountPositive(names[k], ';');
    CountInJoin(names, k, ';');
    CountCharAppend(BoolText(useObjectPivot) + ";", Join(names, ","), ';');
    CountCharAppend(BoolText(useObjectPivot), ";", ';');
    DecodeAcceptsIffOneSeparator(OptionsText(useObjectPivot, names));
  }
}
