/** `ExpandableTabs`: a row of at most three tabs, with a "+n" indicator
    whose button expands the row to all the tabs; clicking a tab reports its
    index to the optional `onChange` handler. Scroll positions are reals
    (pixels); the layout measurements are parameters. */
module ExpandableTabs {
  import opened Domain

  /** The number of tabs shown before the row is expanded. */
  const Collapsed: nat := 3

  /** The `selectedIndex` prop: not passed (it then defaults to 0), `null`,
      or an index. */
  datatype SelectedProp = Unset | Null | Index(i: int)

  /** The index the component compares against, after the default applies. */
  function Selection(prop: SelectedProp): (r: Option<int>)
    ensures prop.Unset? ==> r == Some(0)
    ensures prop.Null? ==> r.None?
    ensures prop.Index? ==> r == Some(prop.i)
  {
    match prop
    case Unset => Some(0)
    case Null => None
    case Index(i) => Some(i)
  }

  /** Tab `i` is highlighted iff the selection is `i`. */
  predicate IsSelected(prop: SelectedProp, i: nat)
  {
    Selection(prop) == Some(i)
  }

  /** At most one tab is highlighted; a `null` selection highlights none,
      and without the prop the first tab is highlighted. */
  lemma SelectionIsUnique(prop: SelectedProp, i: nat, j: nat)
    ensures IsSelected(prop, i) && IsSelected(prop, j) ==> i == j
    ensures prop.Null? ==> !IsSelected(prop, i)
    ensures prop.Unset? ==> (IsSelected(prop, i) <==> i == 0)
  {
  }

  /** The tabs drawn: all of them when expanded, else the first three. */
  function VisibleTabs<T>(tabs: seq<T>, expanded: bool): (vs: seq<T>)
    ensures expanded ==> vs == tabs
    ensures !expanded ==> |vs| == if |tabs| < Collapsed then |tabs| else Collapsed
    ensures |vs| <= |tabs| && vs == tabs[..|vs|]
  {
    if expanded then tabs else if |tabs| <= Collapsed then tabs else tabs[..Collapsed]
  }

  /** The "+n" indicator, and with it the expand button, is drawn iff there
      are more than three tabs and the row is collapsed. */
  predicate ShowMore(count: nat, expanded: bool)
  {
    count > Collapsed && !expanded
  }

  /** The indicator's text: the number of hidden tabs. */
  function OverflowLabel(count: nat): (text: string)
    requires count > Collapsed
    ensures |text| >= 2 && text[0] == '+' && text[1] != '-'
    ensures AllDigits(text[1..]) && DigitsValue(text[1..]) == count - Collapsed
  {
    NatDigitsRoundTrip(count - Collapsed);
    "+" + Decimal(count - Collapsed)
  }

  /** Exactly the hidden tabs are counted: the visible ones plus the
      indicator's number make up all the tabs. */
  lemma IndicatorCountsHidden<T>(tabs: seq<T>)
    requires ShowMore(|tabs|, false)
    ensures |VisibleTabs(tabs, false)| + DigitsValue(OverflowLabel(|tabs|)[1..]) == |tabs|
  {
  }

  /** `handleTabClick`: the index reported to the handler, if there is one. */
  function TabClick(hasHandler: bool, index: nat): (reported: Option<nat>)
    ensures hasHandler <==> reported.Some?
    ensures reported.Some? ==> reported.value == index
  {
    if hasHandler then Some(index) else None
  }

  /** `scrollToTab`: the scroll offset that centres a tab, clamped at 0. */
  function ScrollTarget(tabOffset: real, containerWidth: real, tabWidth: real, scrollLeft: real): (r: real)
    ensures r >= 0.0
    ensures r >= tabOffset - (containerWidth - tabWidth) / 2.0 + scrollLeft
    ensures r == 0.0 || r == tabOffset - (containerWidth - tabWidth) / 2.0 + scrollLeft
  {
    var centred := tabOffset - (containerWidth - tabWidth) / 2.0 + scrollLeft;
    if 0.0 <= centred then centred else 0.0
  }

  /** What a user can do to the component. */
  datatype Action = PressIndicator | ScrollTo(position: real) | ClickTab(index: nat)

  /** The expanded state after one action: only the indicator's button
      changes it, and that button is there only while the row is collapsed. */
  function Step(count: nat, expanded: bool, a: Action): bool
  {
    match a
    case PressIndicator => if ShowMore(count, expanded) then !expanded else expanded
    case ScrollTo(_) => expanded
    case ClickTab(_) => expanded
  }

  /** The expanded state after a sequence of actions, the first one first. */
  function Run(count: nat, expanded: bool, actions: seq<Action>): bool
    decreases |actions|
  {
    if actions == [] then expanded else Run(count, Step(count, expanded, actions[0]), actions[1..])
  }

  /** Once expanded, the row never collapses again. */
  lemma {:induction false} ExpandedIsAbsorbing(count: nat, actions: seq<Action>)
    ensures Run(count, true, actions)
  {
    if actions != [] {
      ExpandedIsAbsorbing(count, actions[1..]);
    }
  }

  /** With three tabs or fewer the row never expands, whatever the user does. */
  lemma {:induction false} FewTabsNeverExpand(count: nat, actions: seq<Action>)
    requires count <= Collapsed
    ensures !Run(count, false, actions)
  {
    if actions != [] {
      FewTabsNeverExpand(count, actions[1..]);
    }
  }

  /** The component's state. */
  class TabRow<T> {
    const tabs: seq<T>
    const hasHandler: bool
    var isExpanded: bool
    var scrollLeft: real
    /** The indices reported to `onChange`, oldest first. */
    var reported: seq<nat>

    constructor (tabs: seq<T>, hasHandler: bool)
      ensures this.tabs == tabs && this.hasHandler == hasHandler
      ensures !isExpanded && scrollLeft == 0.0 && reported == []
    {
      this.tabs := tabs;
      this.hasHandler := hasHandler;
      isExpanded := false;
      scrollLeft := 0.0;
      reported := [];
    }

    /** The expand button, present only while the indicator is. */
    method PressIndicator()
      modifies this`isExpanded
      ensures isExpanded == Step(|tabs|, old(isExpanded), Action.PressIndicator)
      ensures isExpanded == (old(isExpanded) || |tabs| > Collapsed)
    {
      if ShowMore(|tabs|, isExpanded) {
        isExpanded := !isExpanded;
      }
    }

    /** `handleScroll`: remembers the container's scroll position. */
    method Scrolled(position: real)
      modifies this`scrollLeft
      ensures scrollLeft == position
    {
      scrollLeft := position;
    }

    /** A click on visible tab `index`. */
    method ClickTab(index: nat)
      requires index < |VisibleTabs(tabs, isExpanded)|
      modifies this`reported
      ensures hasHandler ==> reported == old(reported) + [index]
      ensures !hasHandler ==> reported == old(reported)
    {
      var call := TabClick(hasHandler, index);
      if call.Some? {
        reported := reported + [call.value];
      }
    }
  }
}
