/**
 * The onboarding guide: two setup steps whose `complete`/`expanded`/`loading`
 * flags are rewritten by list transformations, with `localStorage` holding
 * the two persisted flags. The pure transformations come first; the
 * component's state and handlers follow as a class.
 */
module Onboarding {
  import opened Wrappers

  const InstallApp: int := 0
  const AddThemeBlock: int := 1

  const ThemeBlockAddedKey: string := "isThemeBlockAdded"
  const OnboardingCompletedKey: string := "isOnboardingCompleted"

  /** `localStorage`: a missing key reads as null. */
  type Storage = map<string, string>

  /** `localStorage.getItem(key) === "true"` */
  predicate StoredTrue(storage: Storage, key: string)
  {
    key in storage && storage[key] == "true"
  }

  /** A setup step as the guide shows it; "" stands for an absent description or button. */
  datatype Item = Item(
    id: int,
    title: string,
    description: string,
    buttonContent: string,
    complete: bool,
    expanded: bool,
    loading: bool)

  /** The ids agree with the positions, as for the two steps the guide builds. */
  predicate Positional(items: seq<Item>)
  {
    forall i :: 0 <= i < |items| ==> items[i].id == i
  }

  /** Only the given flags may differ between the two lists. */
  predicate SameSteps(a: seq<Item>, b: seq<Item>)
  {
    |a| == |b| &&
    forall i :: 0 <= i < |a| ==>
      a[i].id == b[i].id && a[i].title == b[i].title &&
      a[i].description == b[i].description && a[i].buttonContent == b[i].buttonContent
  }

  // ------------------------------------------------------------ searches

  /** `items.findIndex((item) => item.id === id)` */
  function FindIndexById(items: seq<Item>, id: int): (r: int)
    ensures -1 <= r < |items|
    ensures r == -1 <==> forall i :: 0 <= i < |items| ==> items[i].id != id
    ensures r >= 0 ==> items[r].id == id && forall i :: 0 <= i < r ==> items[i].id != id
  {
    if |items| == 0 then -1
    else if items[0].id == id then 0
    else
      var r := FindIndexById(items[1..], id);
      assert forall i :: 1 <= i < |items| ==> items[i] == items[1..][i - 1];
      if r == -1 then -1 else r + 1
  }

  /** `ITEMS.findIndex((step) => !step.complete)` */
  function FirstIncomplete(items: seq<Item>): (r: int)
    ensures -1 <= r < |items|
    ensures r == -1 <==> forall i :: 0 <= i < |items| ==> items[i].complete
    ensures r >= 0 ==> !items[r].complete && forall i :: 0 <= i < r ==> items[i].complete
  {
    if |items| == 0 then -1
    else if !items[0].complete then 0
    else
      var r := FirstIncomplete(items[1..]);
      assert forall i :: 1 <= i < |items| ==> items[i] == items[1..][i - 1];
      if r == -1 then -1 else r + 1
  }

  // ------------------------------------------------------------ updaters

  /** The two steps before expansion: the app is installed; the theme block is complete iff stored so. */
  function BaseItems(themeBlockAdded: bool): (r: seq<Item>)
    ensures |r| == 2 && Positional(r)
    ensures r[InstallApp].complete && (r[AddThemeBlock].complete <==> themeBlockAdded)
    ensures forall i :: 0 <= i < |r| ==> !r[i].loading
  {
    [ Item(InstallApp, "Install our app", "", "", true, false, false),
      Item(AddThemeBlock, "Enable the theme extension", "Enable the theme extension in your theme editor",
           "Enable extension", themeBlockAdded, !themeBlockAdded, false) ]
  }

  /** Expand exactly the first incomplete item. */
  function ExpandFirstIncomplete(items: seq<Item>): (r: seq<Item>)
    ensures SameSteps(items, r)
    ensures forall i :: 0 <= i < |r| ==>
              r[i] == items[i].(expanded := r[i].expanded) &&
              (r[i].expanded <==> !items[i].complete && forall j :: 0 <= j < i ==> items[j].complete)
  {
    var first := FirstIncomplete(items);
    seq(|items|, i requires 0 <= i < |items| => items[i].(expanded := !items[i].complete && first == i))
  }

  function InitialItems(themeBlockAdded: bool): seq<Item>
  {
    ExpandFirstIncomplete(BaseItems(themeBlockAdded))
  }

  /** `onForceComplete`'s updater: flip `complete` on the items with that id. */
  function ToggleComplete(items: seq<Item>, step: int): (r: seq<Item>)
    ensures SameSteps(items, r)
    ensures forall i :: 0 <= i < |r| ==>
              (items[i].id != step ==> r[i] == items[i]) &&
              (items[i].id == step ==> r[i] == items[i].(complete := !items[i].complete))
  {
    seq(|items|, i requires 0 <= i < |items| =>
      items[i].(complete := if items[i].id == step then !items[i].complete else items[i].complete))
  }

  /** `handleDismiss`'s updater: mark the item done and expand only the item whose id is `currentIndex + 1`. */
  function DismissItems(items: seq<Item>, id: int, currentIndex: int): (r: seq<Item>)
    ensures SameSteps(items, r)
    ensures forall i :: 0 <= i < |r| ==>
              r[i].complete == (items[i].complete || items[i].id == id) &&
              (r[i].expanded <==> items[i].id == currentIndex + 1) &&
              r[i].loading == items[i].loading
  {
    seq(|items|, i requires 0 <= i < |items| =>
      items[i].(complete := if items[i].id == id then true else items[i].complete,
                expanded := items[i].id == currentIndex + 1))
  }

  /** `completeStep`'s second updater: stop the target's spinner and expand the item whose id is `currentIndex + 1`. */
  function CompleteStepItems(items: seq<Item>, id: int, currentIndex: int): (r: seq<Item>)
    ensures SameSteps(items, r)
    ensures forall i :: 0 <= i < |r| ==>
              r[i].complete == items[i].complete &&
              r[i].loading == (items[i].id != id && items[i].loading) &&
              (r[i].expanded <==> items[i].id == currentIndex + 1)
  {
    seq(|items|, i requires 0 <= i < |items| =>
      items[i].(loading := if items[i].id == id then false else items[i].loading,
                expanded := items[i].id == currentIndex + 1))
  }

  /** `setExpanded`'s updater. */
  function SetExpandedItems(items: seq<Item>, id: int): (r: seq<Item>)
    ensures SameSteps(items, r)
    ensures forall i :: 0 <= i < |r| ==>
              r[i] == items[i].(expanded := r[i].expanded) && (r[i].expanded <==> items[i].id == id)
  {
    seq(|items|, i requires 0 <= i < |items| => items[i].(expanded := items[i].id == id))
  }

  /** `handleSubmit`'s first updater: only the submitted item shows a spinner. */
  function SubmitLoadingItems(items: seq<Item>, id: int): (r: seq<Item>)
    ensures SameSteps(items, r)
    ensures forall i :: 0 <= i < |r| ==>
              r[i] == items[i].(loading := r[i].loading) && (r[i].loading <==> items[i].id == id)
  {
    seq(|items|, i requires 0 <= i < |items| => items[i].(loading := items[i].id == id))
  }

  /** The storage write shared by `onForceComplete`, `handleDismiss` and `handleSubmit`. */
  function MarkStep(storage: Storage, step: int): (s: Storage)
    ensures step == InstallApp ==> s == storage[OnboardingCompletedKey := "true"]
    ensures step == AddThemeBlock ==> s == storage[ThemeBlockAddedKey := "true"]
    ensures step != InstallApp && step != AddThemeBlock ==> s == storage
  {
    if step == InstallApp then storage[OnboardingCompletedKey := "true"]
    else if step == AddThemeBlock then storage[ThemeBlockAddedKey := "true"]
    else storage
  }

  // ------------------------------------------------------------ properties

  /** After expansion at most one item is expanded. */
  lemma AtMostOneExpanded(items: seq<Item>)
    ensures forall i, j :: 0 <= i < j < |items| ==>
              !(ExpandFirstIncomplete(items)[i].expanded && ExpandFirstIncomplete(items)[j].expanded)
  {
    var r := ExpandFirstIncomplete(items);
    forall i, j | 0 <= i < j < |items|
      ensures !(r[i].expanded && r[j].expanded)
    {
      if r[j].expanded {
        assert items[i].complete;
      }
    }
  }

  /**
   * The initial steps: the app step is complete and closed; the theme step is
   * complete iff its stored flag is `"true"`, and then nothing is expanded,
   * otherwise it is the one expanded step.
   */
  lemma InitialItemsShape(themeBlockAdded: bool)
    ensures Positional(InitialItems(themeBlockAdded)) && |InitialItems(themeBlockAdded)| == 2
    ensures InitialItems(themeBlockAdded)[0].complete && !InitialItems(themeBlockAdded)[0].expanded
    ensures InitialItems(themeBlockAdded)[1].complete == themeBlockAdded
    ensures InitialItems(themeBlockAdded)[1].expanded == !themeBlockAdded
    ensures forall i :: 0 <= i < 2 ==> !InitialItems(themeBlockAdded)[i].loading
  {
    var b := BaseItems(themeBlockAdded);
    var r := InitialItems(themeBlockAdded);
    assert r[1].expanded <==> !b[1].complete && b[0].complete;
  }

  /** Toggling the same step twice restores the list. */
  lemma ToggleTwiceRestores(items: seq<Item>, step: int)
    ensures ToggleComplete(ToggleComplete(items, step), step) == items
  {
    var r := ToggleComplete(ToggleComplete(items, step), step);
    assert forall i :: 0 <= i < |items| ==> r[i] == items[i];
  }

  /** Dismissing is idempotent: dismissing the same step again changes nothing. */
  lemma DismissIdempotent(items: seq<Item>, id: int, currentIndex: int)
    ensures DismissItems(DismissItems(items, id, currentIndex), id, currentIndex) == DismissItems(items, id, currentIndex)
  {
    var once := DismissItems(items, id, currentIndex);
    var twice := DismissItems(once, id, currentIndex);
    assert forall i :: 0 <= i < |items| ==> twice[i] == once[i];
  }

  /**
   * Over positional items, dismissing the step at position `k` opens the
   * next one, and opens none when it was the last.
   */
  lemma DismissAdvances(items: seq<Item>, id: int)
    requires Positional(items)
    ensures var r := DismissItems(items, id, FindIndexById(items, id));
            Positional(r) &&
            (0 <= id < |items| ==> forall i :: 0 <= i < |r| ==> (r[i].expanded <==> i == id + 1)) &&
            (id == |items| - 1 ==> forall i :: 0 <= i < |r| ==> !r[i].expanded)
  {
    var k := FindIndexById(items, id);
    if 0 <= id < |items| {
      assert items[id].id == id;
      assert k == id;
    }
  }

  /** Over positional items, `setExpanded(id)` leaves at most one step expanded, and exactly one for an existing id. */
  lemma SetExpandedExclusive(items: seq<Item>, id: int)
    requires Positional(items)
    ensures forall i, j ::
              (0 <= i < |items| && 0 <= j < |items| &&
               SetExpandedItems(items, id)[i].expanded && SetExpandedItems(items, id)[j].expanded) ==> i == j
    ensures 0 <= id < |items| ==> SetExpandedItems(items, id)[id].expanded
  {
  }

  /** `completeStep` toggles through `onForceComplete`, so running it on a step already complete re-opens that step. */
  lemma CompleteStepOnCompletedStepReopens(items: seq<Item>, id: int, k: int)
    requires 0 <= k < |items| && items[k].id == id && items[k].complete
    ensures !CompleteStepItems(ToggleComplete(items, id), id, FindIndexById(items, id))[k].complete
  {
  }

  /** On an incomplete step of positional items `completeStep` marks it done, stops its spinner and opens the next step. */
  lemma CompleteStepAdvances(items: seq<Item>, id: int)
    requires Positional(items) && 0 <= id < |items| && !items[id].complete
    ensures var r := CompleteStepItems(ToggleComplete(items, id), id, FindIndexById(items, id));
            r[id].complete && !r[id].loading &&
            forall i :: 0 <= i < |r| ==> (r[i].expanded <==> i == id + 1)
  {
    assert items[id].id == id;
    assert FindIndexById(items, id) == id;
  }

  // ------------------------------------------------------------ the component

  class OnboardingGuide {
    var items: seq<Item>
    var showGuide: bool
    var storage: Storage

    /** `useState([])`, `useState(true)`, over the browser's current storage. */
    constructor (browserStorage: Storage)
      ensures items == [] && showGuide && storage == browserStorage
    {
      items := [];
      showGuide := true;
      storage := browserStorage;
    }

    /** The mount effect: read both flags, decide whether to show the guide, build and expand the steps. */
    method Initialize()
      modifies this
      ensures showGuide == !StoredTrue(storage, OnboardingCompletedKey)
      ensures items == InitialItems(StoredTrue(storage, ThemeBlockAddedKey))
      ensures storage == old(storage)
    {
      var themeBlockAdded := StoredTrue(storage, ThemeBlockAddedKey);
      var onboardingCompleted := StoredTrue(storage, OnboardingCompletedKey);
      showGuide := !onboardingCompleted;
      items := ExpandFirstIncomplete(BaseItems(themeBlockAdded));
    }

    /** Write the step's flag as `"true"` whichever way the toggle goes, then flip the step. */
    method OnForceComplete(step: int)
      modifies this
      ensures storage == MarkStep(old(storage), step)
      ensures items == ToggleComplete(old(items), step)
      ensures showGuide == old(showGuide)
    {
      storage := MarkStep(storage, step);
      items := ToggleComplete(items, step);
    }

    /**
     * A falsy id (absent, or step 0) hides the whole guide and leaves the
     * steps alone; any other id marks that step done and opens the next one.
     */
    method HandleDismiss(id: Option<int>)
      modifies this
      ensures (id.None? || id.value == 0) ==>
                !showGuide && items == old(items) && storage == old(storage)[OnboardingCompletedKey := "true"]
      ensures id.Some? && id.value != 0 ==>
                showGuide == old(showGuide) && storage == MarkStep(old(storage), id.value) &&
                items == DismissItems(old(items), id.value, FindIndexById(old(items), id.value))
    {
      if id.None? || id.value == 0 {
        showGuide := false;
        storage := storage[OnboardingCompletedKey := "true"];
        return;
      }
      storage := MarkStep(storage, id.value);
      var currentIndex := FindIndexById(items, id.value);
      items := DismissItems(items, id.value, currentIndex);
    }

    /** Toggle the step, then stop its spinner and open the step after it; the position is looked up before either update. */
    method CompleteStep(id: int)
      modifies this
      ensures storage == MarkStep(old(storage), id)
      ensures items == CompleteStepItems(ToggleComplete(old(items), id), id, FindIndexById(old(items), id))
      ensures showGuide == old(showGuide)
    {
      var currentIndex := FindIndexById(items, id);
      OnForceComplete(id);
      items := CompleteStepItems(items, id, currentIndex);
    }

    /**
     * Show the spinner on the submitted step. For either step, `completeStep`
     * flips the step's `complete` through `onForceComplete` (which also writes
     * the step's storage flag), clears the spinner and expands the next step;
     * installing also stores the onboarding-completed flag itself first. Any
     * other id does nothing more.
     */
    method HandleSubmit(id: int)
      modifies this
      ensures id != InstallApp && id != AddThemeBlock ==>
                items == SubmitLoadingItems(old(items), id) && storage == old(storage)
      ensures id == InstallApp || id == AddThemeBlock ==>
                items == CompleteStepItems(ToggleComplete(SubmitLoadingItems(old(items), id), id),
                                           id, FindIndexById(old(items), id))
      ensures id == InstallApp ==> storage == old(storage)[OnboardingCompletedKey := "true"]
      ensures id == AddThemeBlock ==> storage == old(storage)[ThemeBlockAddedKey := "true"]
      ensures showGuide == old(showGuide)
    {
      var before := items;
      items := SubmitLoadingItems(items, id);
      if id == InstallApp {
        storage := storage[OnboardingCompletedKey := "true"];
      }
      if id == InstallApp || id == AddThemeBlock {
        // completeStep reads the position from the items of the render that submitted
        var currentIndex := FindIndexById(before, id);
        OnForceComplete(id);
        items := CompleteStepItems(items, id, currentIndex);
      }
    }

    /** Expand exactly the steps with that id. */
    method SetExpanded(id: int)
      modifies this
      ensures items == SetExpandedItems(old(items), id)
      ensures showGuide == old(showGuide) && storage == old(storage)
    {
      items := SetExpandedItems(items, id);
    }
  }
}
