/**
 * SBlendAssetImportDialog without its Slate layout: the pivot choice, the
 * collection check boxes and the button that closes the dialog, as state
 * that the construction code and the widget callbacks update.
 */
module ImportDialog {
  import opened UnrealString
  import ImportOptions

  /** The two buttons' return values (EAppReturnType::Ok and ::Cancel). */
  datatype AppReturnType = Ok | Cancel

  /** The state a check box reports (ECheckBoxState). */
  datatype CheckState = Checked | Unchecked | Undetermined

  const WorldItem := "World"
  const ObjectItem := "Object"

  // ---------------------------------------------------------------------
  // Collection preselection
  // ---------------------------------------------------------------------

  /** Some discovered collection is among the previously enabled ones. */
  predicate Overlaps(discovered: seq<string>, previous: seq<string>) {
    exists i :: 0 <= i < |discovered| && ContainsIgnoreCase(previous, discovered[i])
  }

  /** The discovered collections that were enabled before, in discovered order. */
  function KeptFromPrevious(discovered: seq<string>, previous: seq<string>): seq<string> {
    if |discovered| == 0 then []
    else
      var last := discovered[|discovered| - 1];
      KeptFromPrevious(discovered[..|discovered| - 1], previous)
        + (if ContainsIgnoreCase(previous, last) then [last] else [])
  }

  /**
   * The collections the dialog starts with enabled: those enabled before if
   * any of them were discovered again, otherwise all discovered ones.
   */
  function Preselection(discovered: seq<string>, previous: seq<string>): seq<string> {
    if Overlaps(discovered, previous) then KeptFromPrevious(discovered, previous) else discovered
  }

  /** `xs` can be obtained from `ys` by deleting elements. */
  predicate IsSubsequence(xs: seq<string>, ys: seq<string>) {
    if |xs| == 0 then true
    else if |ys| == 0 then false
    else if xs[|xs| - 1] == ys[|ys| - 1] then IsSubsequence(xs[..|xs| - 1], ys[..|ys| - 1])
    else IsSubsequence(xs, ys[..|ys| - 1])
  }

  lemma {:induction false} KeptFromPreviousIsFilter(discovered: seq<string>, previous: seq<string>)
    ensures var kept := KeptFromPrevious(discovered, previous);
            (forall x :: x in kept <==> x in discovered && ContainsIgnoreCase(previous, x))
            && IsSubsequence(kept, discovered)
  {
    if |discovered| > 0 {
      var init := discovered[..|discovered| - 1];
      var last := discovered[|discovered| - 1];
      KeptFromPreviousIsFilter(init, previous);
      assert discovered == init + [last];
      var kept := KeptFromPrevious(discovered, previous);
      if ContainsIgnoreCase(previous, last) {
        assert kept[..|kept| - 1] == KeptFromPrevious(init, previous);
      } else {
        assert kept == KeptFromPrevious(init, previous);
        SubsequenceOfPrefix(kept, init, last);
      }
    }
  }

  lemma {:induction false} SubsequenceOfPrefix(xs: seq<string>, init: seq<string>, last: string)
    requires IsSubsequence(xs, init)
    ensures IsSubsequence(xs, init + [last])
    decreases |xs| + |init|, 1
  {
    var ys := init + [last];
    assert ys[..|ys| - 1] == init;
    if |xs| > 0 && xs[|xs| - 1] == last {
      SubsequenceDropLast(xs, init);
    }
  }

  lemma {:induction false} SubsequenceDropLast(xs: seq<string>, ys: seq<string>)
    requires |xs| > 0 && IsSubsequence(xs, ys)
    ensures IsSubsequence(xs[..|xs| - 1], ys)
    decreases |xs| + |ys|, 0
  {
    var init := xs[..|xs| - 1];
    if |ys| > 0 {
      var ys' := ys[..|ys| - 1];
      if xs[|xs| - 1] == ys[|ys| - 1] {
        SubsequenceOfPrefix(init, ys', ys[|ys| - 1]);
        assert ys' + [ys[|ys| - 1]] == ys;
      } else {
        SubsequenceDropLast(xs, ys');
        SubsequenceOfPrefix(init, ys', ys[|ys| - 1]);
        assert ys' + [ys[|ys| - 1]] == ys;
      }
    }
  }

  lemma {:induction false} SubsequenceOfSelf(xs: seq<string>)
    ensures IsSubsequence(xs, xs)
  {
    if |xs| > 0 {
      SubsequenceOfSelf(xs[..|xs| - 1]);
    }
  }

  /**
   * When some discovered collection was enabled before, exactly the
   * discovered collections enabled before start enabled, in discovered order.
   */
  lemma PreselectionWithOverlap(discovered: seq<string>, previous: seq<string>)
    requires Overlaps(discovered, previous)
    ensures var r := Preselection(discovered, previous);
            (forall x :: x in r <==> x in discovered && ContainsIgnoreCase(previous, x))
            && IsSubsequence(r, discovered) && |r| > 0
  {
    KeptFromPreviousIsFilter(discovered, previous);
    var i :| 0 <= i < |discovered| && ContainsIgnoreCase(previous, discovered[i]);
    assert discovered[i] in Preselection(discovered, previous);
  }

  /** When none was enabled before, every discovered collection starts enabled. */
  lemma PreselectionWithoutOverlap(discovered: seq<string>, previous: seq<string>)
    requires !Overlaps(discovered, previous)
    ensures Preselection(discovered, previous) == discovered
  {
  }

  /** The preselection is empty exactly when nothing was discovered. */
  lemma PreselectionEmptyIffNoCollections(discovered: seq<string>, previous: seq<string>)
    ensures Preselection(discovered, previous) == [] <==> discovered == []
    ensures IsSubsequence(Preselection(discovered, previous), discovered)
  {
    if Overlaps(discovered, previous) {
      PreselectionWithOverlap(discovered, previous);
    } else {
      SubsequenceOfSelf(discovered);
    }
  }

  // ---------------------------------------------------------------------
  // The dialog's state and the user's actions
  // ---------------------------------------------------------------------

  /** The parts of the dialog the user's actions change. */
  datatype DialogState = DialogState(
    enabledCollections: seq<string>, useObjectPivot: bool, pivotTitle: string,
    userResponse: AppReturnType, isOpen: bool)

  /** What the user can do while the dialog is shown. */
  datatype UiEvent =
    | SelectPivot(item: string)
    | SetCollectionCheck(state: CheckState, index: nat)
    | ClickButton(button: AppReturnType)

  function Step(collections: seq<string>, s: DialogState, e: UiEvent): DialogState
    requires e.SetCollectionCheck? ==> e.index < |collections|
  {
    match e
    case SelectPivot(item) => s.(pivotTitle := item, useObjectPivot := EqualsIgnoreCase(item, ObjectItem))
    case SetCollectionCheck(state, index) =>
      s.(enabledCollections := if state == Checked then s.enabledCollections + [collections[index]]
                               else RemoveAllIgnoreCase(s.enabledCollections, collections[index]))
    case ClickButton(button) => s.(userResponse := button, isOpen := false)
  }

  predicate ValidEvents(collections: seq<string>, events: seq<UiEvent>) {
    forall k :: 0 <= k < |events| ==> (events[k].SetCollectionCheck? ==> events[k].index < |collections|)
  }

  /**
   * The events a dialog can produce: a check box exists only for each
   * discovered collection, so toggles of other indices are dropped.
   */
  function ValidOnly(collections: seq<string>, events: seq<UiEvent>): (r: seq<UiEvent>)
    ensures ValidEvents(collections, r)
    ensures ValidEvents(collections, events) ==> r == events
    ensures forall k :: 0 <= k < |r| ==> r[k] in events
  {
    if |events| == 0 then []
    else
      var rest := ValidOnly(collections, events[1..]);
      if events[0].SetCollectionCheck? && events[0].index >= |collections| then
        (assert !ValidEvents(collections, events); rest)
      else
        (assert ValidEvents(collections, events) ==> ValidEvents(collections, events[1..]) by {
           if ValidEvents(collections, events) {
             forall k | 0 <= k < |events[1..]|
               ensures events[1..][k].SetCollectionCheck? ==> events[1..][k].index < |collections|
             {
               assert events[1..][k] == events[k + 1];
             }
           }
         }
         assert events == [events[0]] + events[1..];
         [events[0]] + rest)
  }

  /** The events handled while the dialog is open; it closes on a button. */
  function RunEvents(collections: seq<string>, s: DialogState, events: seq<UiEvent>): DialogState
    requires ValidEvents(collections, events)
    decreases |events|
  {
    if |events| == 0 || !s.isOpen then s
    else RunEvents(collections, Step(collections, s, events[0]), events[1..])
  }

  /**
   * The dialog as Construct leaves it: the previous pivot selected in the
   * combo box, the preselected collections checked, Cancel as the response.
   */
  function InitialState(discovered: seq<string>, previousPivot: bool, previousCollections: seq<string>): DialogState {
    DialogState(Preselection(discovered, previousCollections), previousPivot,
                if previousPivot then ObjectItem else WorldItem, Cancel, true)
  }

  /** What a freshly constructed dialog holds once the user's actions have been handled. */
  function DialogOutcome(discovered: seq<string>, previousPivot: bool, previousCollections: seq<string>,
                         events: seq<UiEvent>): DialogState
  {
    RunEvents(discovered, InitialState(discovered, previousPivot, previousCollections), ValidOnly(discovered, events))
  }

  /** Whether any discovered collection was enabled last time (the bSimilar scan). */
  method FindSimilar(discovered: seq<string>, prev: seq<string>) returns (similar: bool)
    ensures similar == Overlaps(discovered, prev)
  {
    similar := false;
    var i := 0;
    while i < |discovered|
      invariant 0 <= i <= |discovered|
      invariant !similar ==> forall j :: 0 <= j < i ==> !ContainsIgnoreCase(prev, discovered[j])
      invariant similar ==> Overlaps(discovered, prev)
    {
      if ContainsIgnoreCase(prev, discovered[i]) {
        similar := true;
        break;
      }
      i := i + 1;
    }
  }

  /**
   * The check boxes ticked when the dialog opens: with `similar`, the
   * collections enabled last time, otherwise all of them.
   */
  method CheckedCollections(discovered: seq<string>, prev: seq<string>, similar: bool) returns (enabled: seq<string>)
    ensures enabled == if similar then KeptFromPrevious(discovered, prev) else discovered
  {
    enabled := [];
    var i := 0;
    while i < |discovered|
      invariant 0 <= i <= |discovered|
      invariant enabled == if similar then KeptFromPrevious(discovered[..i], prev) else discovered[..i]
    {
      assert discovered[..i + 1][..i] == discovered[..i];
      var isChecked := false;
      if similar {
        if ContainsIgnoreCase(prev, discovered[i]) {
          isChecked := true;
        }
      } else {
        isChecked := true;
      }
      if isChecked {
        enabled := enabled + [discovered[i]];
      }
      i := i + 1;
    }
    assert discovered[..|discovered|] == discovered;
  }

  class BlendAssetImportDialog {
    /** The collections the analysis found, one check box each. */
    var collections: seq<string>
    var enabledCollections: seq<string>
    var useObjectPivot: bool
    /** The text shown on the pivot combo box. */
    var pivotTitle: string
    var userResponse: AppReturnType
    var isOpen: bool
    var materialWarningVisible: bool
    /** Whether the "No collections defined" note replaces the check boxes. */
    var noCollectionsNote: bool

    function State(): DialogState
      reads this
    {
      DialogState(enabledCollections, useObjectPivot, pivotTitle, userResponse, isOpen)
    }

    /**
     * Construct: starts with the World pivot and the Cancel response,
     * selects the Object item when the previous options used the object
     * pivot, and preselects the collections.
     */
    constructor (discovered: seq<string>, previous: ImportOptions.BlendImportOptions, showMaterialWarning: bool)
      ensures collections == discovered
      ensures State() == InitialState(discovered, previous.useObjectPivot, previous.enabledCollections)
      ensures materialWarningVisible == showMaterialWarning
      ensures noCollectionsNote <==> discovered == []
    {
      collections := discovered;
      useObjectPivot := false;
      pivotTitle := WorldItem;
      userResponse := Cancel;
      isOpen := true;
      enabledCollections := [];
      materialWarningVisible := showMaterialWarning;
      noCollectionsNote := false;
      new;
      if previous.useObjectPivot {
        OnSelectionChanged(ObjectItem);
        assert EqualsIgnoreCase(ObjectItem, ObjectItem);
      }
      if |discovered| > 0 {
        var similar := FindSimilar(discovered, previous.enabledCollections);
        enabledCollections := CheckedCollections(discovered, previous.enabledCollections, similar);
      } else {
        noCollectionsNote := true;
      }
    }

    /** The pivot combo box's selection handler. */
    method OnSelectionChanged(item: string)
      modifies this
      ensures pivotTitle == item
      ensures useObjectPivot <==> EqualsIgnoreCase(item, ObjectItem)
      ensures enabledCollections == old(enabledCollections) && userResponse == old(userResponse)
      ensures isOpen == old(isOpen) && collections == old(collections)
      ensures materialWarningVisible == old(materialWarningVisible)
      ensures noCollectionsNote == old(noCollectionsNote)
    {
      pivotTitle := item;
      useObjectPivot := EqualsIgnoreCase(item, ObjectItem);
    }

    /**
     * OnCheckStateCollectionChanged: checking appends the collection (a
     * second copy if it is already there); any other state removes every
     * copy of it.
     */
    method OnCheckStateCollectionChanged(state: CheckState, index: nat)
      requires index < |collections|
      modifies this
      ensures collections == old(collections)
      ensures state == Checked ==> enabledCollections == old(enabledCollections) + [collections[index]]
      ensures state != Checked ==>
                enabledCollections == RemoveAllIgnoreCase(old(enabledCollections), collections[index])
      ensures useObjectPivot == old(useObjectPivot) && pivotTitle == old(pivotTitle)
      ensures userResponse == old(userResponse) && isOpen == old(isOpen)
      ensures materialWarningVisible == old(materialWarningVisible)
      ensures noCollectionsNote == old(noCollectionsNote)
    {
      if state == Checked {
        enabledCollections := enabledCollections + [collections[index]];
      } else {
        enabledCollections := RemoveAllIgnoreCase(enabledCollections, collections[index]);
      }
    }

    /** OnButtonClick: records the button and closes the window. */
    method OnButtonClick(button: AppReturnType)
      modifies this
      ensures userResponse == button && !isOpen
      ensures enabledCollections == old(enabledCollections) && useObjectPivot == old(useObjectPivot)
      ensures pivotTitle == old(pivotTitle) && collections == old(collections)
      ensures materialWarningVisible == old(materialWarningVisible)
      ensures noCollectionsNote == old(noCollectionsNote)
    {
      userResponse := button;
      isOpen := false;
    }

    /**
     * ShowModal: the user's actions are handled until a button closes the
     * dialog (or the actions run out, as when the window is closed), and the
     * recorded response is returned.
     */
    method ShowModal(events: seq<UiEvent>) returns (response: AppReturnType)
      requires ValidEvents(collections, events)
      modifies this
      ensures collections == old(collections)
      ensures State() == RunEvents(collections, old(State()), events)
      ensures response == userResponse
    {
      var i := 0;
      while i < |events| && isOpen
        invariant 0 <= i <= |events|
        decreases |events| - i
        invariant collections == old(collections)
        invariant RunEvents(collections, old(State()), events) == RunEvents(collections, State(), events[i..])
      {
        assert events[i..][1..] == events[i + 1..];
        var e := events[i];
        i := i + 1;
        match e {
          case SelectPivot(item) => OnSelectionChanged(item);
          case SetCollectionCheck(state, index) => OnCheckStateCollectionChanged(state, index);
          case ClickButton(button) => OnButtonClick(button);
        }
      }
      response := userResponse;
    }

    function IsUseObjectPivot(): bool reads this { useObjectPivot }
    function GetEnabledCollections(): seq<string> reads this { enabledCollections }
  }

  // ---------------------------------------------------------------------
  // Properties of the user's actions
  // ---------------------------------------------------------------------

  predicate NoButtonBefore(events: seq<UiEvent>, k: int) {
    forall j :: 0 <= j < k && j < |events| ==> !events[j].ClickButton?
  }

  lemma ValidEventsTail(collections: seq<string>, events: seq<UiEvent>)
    requires |events| > 0 && ValidEvents(collections, events)
    ensures ValidEvents(collections, events[1..])
  {
    forall k | 0 <= k < |events[1..]|
      ensures events[1..][k].SetCollectionCheck? ==> events[1..][k].index < |collections|
    {
      assert events[1..][k] == events[k + 1];
    }
  }

  /** Without a button click the dialog stays open and the response is unchanged (Cancel by default). */
  lemma {:induction false} NoButtonKeepsResponse(collections: seq<string>, s: DialogState, events: seq<UiEvent>)
    requires ValidEvents(collections, events) && s.isOpen
    requires NoButtonBefore(events, |events|)
    ensures RunEvents(collections, s, events).userResponse == s.userResponse
    ensures RunEvents(collections, s, events).isOpen
    decreases |events|
  {
    if |events| > 0 {
      ValidEventsTail(collections, events);
      var rest := events[1..];
      assert NoButtonBefore(rest, |rest|) by {
        forall j | 0 <= j < |rest| ensures !rest[j].ClickButton? {
          assert rest[j] == events[j + 1];
        }
      }
      NoButtonKeepsResponse(collections, Step(collections, s, events[0]), rest);
    }
  }

  /** The first button clicked closes the dialog and decides the response. */
  lemma {:induction false} FirstButtonDecides(collections: seq<string>, s: DialogState, events: seq<UiEvent>, k: nat)
    requires ValidEvents(collections, events) && s.isOpen
    requires k < |events| && events[k].ClickButton? && NoButtonBefore(events, k)
    ensures RunEvents(collections, s, events).userResponse == events[k].button
    ensures !RunEvents(collections, s, events).isOpen
    decreases k
  {
    ValidEventsTail(collections, events);
    var rest := events[1..];
    if k > 0 {
      assert !events[0].ClickButton?;
      assert rest[k - 1] == events[k];
      assert NoButtonBefore(rest, k - 1) by {
        forall j | 0 <= j < k - 1 ensures !rest[j].ClickButton? {
          assert rest[j] == events[j + 1];
        }
      }
      FirstButtonDecides(collections, Step(collections, s, events[0]), rest, k - 1);
    }
  }

  /** The pivot ends as the last selected item says, or as it was when none was selected. */
  lemma {:induction false} PivotFollowsLastSelection(collections: seq<string>, s: DialogState, item: string)
    requires s.isOpen
    ensures RunEvents(collections, s, [SelectPivot(item)]).useObjectPivot <==> EqualsIgnoreCase(item, ObjectItem)
  {
    assert [SelectPivot(item)][1..] == [];
  }

  /** Checking a box and then clearing it leaves no copy of that collection enabled. */
  lemma CheckThenUncheck(collections: seq<string>, s: DialogState, index: nat)
    requires index < |collections| && s.isOpen
    ensures var events := [SetCollectionCheck(Checked, index), SetCollectionCheck(Unchecked, index)];
            var r := RunEvents(collections, s, events);
            forall x :: x in r.enabledCollections ==> !EqualsIgnoreCase(x, collections[index])
  {
    var events := [SetCollectionCheck(Checked, index), SetCollectionCheck(Unchecked, index)];
    var s1 := Step(collections, s, events[0]);
    var s2 := Step(collections, s1, events[1]);
    assert events[1..] == [events[1]] && events[1..][1..] == [];
    assert RunEvents(collections, s, events) == RunEvents(collections, s1, [events[1]]);
    assert RunEvents(collections, s1, [events[1]]) == RunEvents(collections, s2, []);
    assert s2.enabledCollections == RemoveAllIgnoreCase(s1.enabledCollections, collections[index]);
  }

  /** Checking a box twice enables its collection twice. */
  lemma CheckTwiceDuplicates(collections: seq<string>, s: DialogState, index: nat)
    requires index < |collections| && s.isOpen
    ensures var events := [SetCollectionCheck(Checked, index), SetCollectionCheck(Checked, index)];
            RunEvents(collections, s, events).enabledCollections
              == s.enabledCollections + [collections[index], collections[index]]
  {
    var events := [SetCollectionCheck(Checked, index), SetCollectionCheck(Checked, index)];
    var s1 := Step(collections, s, events[0]);
    var s2 := Step(collections, s1, events[1]);
    assert events[1..] == [events[1]] && events[1..][1..] == [];
    assert RunEvents(collections, s, events) == RunEvents(collections, s1, [events[1]]);
    assert RunEvents(collections, s1, [events[1]]) == RunEvents(collections, s2, []);
    assert s2.enabledCollections == s.enabledCollections + [collections[index]] + [collections[index]];
  }
}
