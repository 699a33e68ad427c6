/**
 * A drawer nav item (`DrawerNavItemComponent`): its per-item state, the
 * methods that update it, and the boolean expressions its template binds.
 *
 * The state an item's methods change is `NavState`; the step functions below
 * are the specification the class `DrawerNavItem` is proved against. The
 * template's bindings are pure predicates over the item's inputs and state.
 */
module NavItem {
  import opened Wrappers
  import DrawerStore

  datatype ActiveItemBackgroundShape = Round | Square

  /**
   * JavaScript truthiness of an optional string input: `undefined` and the
   * empty string are falsy.
   */
  predicate Truthy(s: Option<string>) {
    s.Some? && s.value != ""
  }

  /** The inputs the template's rules read and no method of the item changes. */
  datatype ItemInputs = ItemInputs(
    activeItemBackgroundShape: ActiveItemBackgroundShape,
    hasChildren: bool,
    expandIcon: Option<string>,
    collapseIcon: Option<string>,
    useCustomIconAnimation: bool)

  /**
   * What the item's methods change: whether the nested items are expanded,
   * whether the user ever toggled them, the item's copy of the store's open
   * flag, and whether it listens to the store's open changes.
   */
  datatype NavState = NavState(
    showNestedNavItems: bool,
    toggled: bool,
    drawerOpen: bool,
    openListening: bool)

  /** The declared input defaults; `expandIcon` and `collapseIcon` are unset. */
  const DefaultInputs := ItemInputs(Round, false, None, None, true)

  /** The state of a freshly created item; `drawerOpen` is unset, which is falsy. */
  const InitialState := NavState(false, false, false, false)

  /** `toggleNestedNavItems`: flip the expansion and record that a toggle happened. */
  function Toggle(s: NavState): NavState {
    s.(showNestedNavItems := !s.showNestedNavItems,
       toggled := if !s.toggled then !s.toggled else s.toggled)
  }

  /** `ngOnInit`: copy the store's open flag and start listening to its changes. */
  function Init(s: NavState, current: bool): NavState {
    s.(drawerOpen := current, openListening := true)
  }

  /** The store emits a new open flag; only a listening item sees it. */
  function OpenEmitted(s: NavState, open: bool): NavState {
    if s.openListening then s.(drawerOpen := open) else s
  }

  /** The host binds the `showNestedNavItems` input. */
  function BindExpansion(s: NavState, show: bool): NavState {
    s.(showNestedNavItems := show)
  }

  /** What can happen to a nav item. */
  datatype NavEvent =
    | Initialised(current: bool)
    | OpenChanged(open: bool)
    | ToggleClicked
    | ExpansionBound(show: bool)

  function Step(s: NavState, e: NavEvent): NavState {
    match e
    case Initialised(current) => Init(s, current)
    case OpenChanged(open) => OpenEmitted(s, open)
    case ToggleClicked => Toggle(s)
    case ExpansionBound(show) => BindExpansion(s, show)
  }

  function Run(s: NavState, evs: seq<NavEvent>): NavState
    decreases |evs|
  {
    if evs == [] then s else Run(Step(s, evs[0]), evs[1..])
  }

  /** The number of toggles in `evs`. */
  function Toggles(evs: seq<NavEvent>): nat
    decreases |evs|
  {
    if evs == [] then 0 else (if evs[0].ToggleClicked? then 1 else 0) + Toggles(evs[1..])
  }

  /** The open flag most recently delivered in `evs`, or `d` when none was. */
  function LatestOpen(evs: seq<NavEvent>, d: bool): bool
    decreases |evs|
  {
    if evs == [] then d
    else match evs[|evs| - 1]
      case Initialised(current) => current
      case OpenChanged(open) => open
      case _ => LatestOpen(evs[..|evs| - 1], d)
  }

  /** The value the host most recently bound to `showNestedNavItems` in `evs`, if any. */
  function LastBinding(evs: seq<NavEvent>): Option<bool>
    decreases |evs|
  {
    if evs == [] then None
    else if evs[|evs| - 1].ExpansionBound? then Some(evs[|evs| - 1].show)
    else LastBinding(evs[..|evs| - 1])
  }

  /** The number of toggles in `evs` after its last binding of `showNestedNavItems`. */
  function TogglesSinceBinding(evs: seq<NavEvent>): nat
    decreases |evs|
  {
    if evs == [] then 0
    else if evs[|evs| - 1].ExpansionBound? then 0
    else (if evs[|evs| - 1].ToggleClicked? then 1 else 0) + TogglesSinceBinding(evs[..|evs| - 1])
  }

  // ---------------------------------------------------------------------------
  // The template's bindings

  /** `[class.round]`. */
  predicate RoundClass(i: ItemInputs) {
    i.activeItemBackgroundShape == Round
  }

  /** `[class.square]`. */
  predicate SquareClass(i: ItemInputs, s: NavState) {
    i.activeItemBackgroundShape == Square || !s.drawerOpen
  }

  /** The expand icon block's `*ngIf`. */
  predicate ExpandIconShown(i: ItemInputs, s: NavState) {
    i.hasChildren && Truthy(i.expandIcon) && !s.showNestedNavItems
  }

  /** The collapse icon block's `*ngIf`. */
  predicate CollapseIconShown(i: ItemInputs, s: NavState) {
    i.hasChildren && Truthy(i.collapseIcon) && s.showNestedNavItems
  }

  /** The default chevron block's `*ngIf`. */
  predicate DefaultIconShown(i: ItemInputs) {
    i.hasChildren && !Truthy(i.expandIcon) && !Truthy(i.collapseIcon)
  }

  /** `[@.disabled]` on the expand and the collapse icon. */
  predicate IconAnimationDisabled(i: ItemInputs, s: NavState) {
    !s.toggled || !i.useCustomIconAnimation
  }

  /** The nested items block's `*ngIf`. */
  predicate NestedItemsShown(s: NavState) {
    s.showNestedNavItems && s.drawerOpen
  }

  // ---------------------------------------------------------------------------
  // Properties of the template

  /**
   * Every item has a background class; both apply exactly when the shape is
   * round and the drawer is closed; an open drawer shows the shape as chosen.
   */
  lemma BackgroundClasses(i: ItemInputs, s: NavState)
    ensures RoundClass(i) || SquareClass(i, s)
    ensures RoundClass(i) && SquareClass(i, s) <==> i.activeItemBackgroundShape == Round && !s.drawerOpen
    ensures s.drawerOpen ==> (RoundClass(i) <==> !SquareClass(i, s))
    ensures !s.drawerOpen ==> SquareClass(i, s)
  {
  }

  /**
   * At most one of the three right-side icon blocks renders, none renders for
   * an item without children, expand needs the items collapsed, collapse needs
   * them expanded, and the default chevron needs both icons absent.
   */
  lemma RightIconsExclusive(i: ItemInputs, s: NavState)
    ensures !(ExpandIconShown(i, s) && CollapseIconShown(i, s))
    ensures !(ExpandIconShown(i, s) && DefaultIconShown(i))
    ensures !(CollapseIconShown(i, s) && DefaultIconShown(i))
    ensures !i.hasChildren ==> !ExpandIconShown(i, s) && !CollapseIconShown(i, s) && !DefaultIconShown(i)
    ensures ExpandIconShown(i, s) ==> !s.showNestedNavItems
    ensures CollapseIconShown(i, s) ==> s.showNestedNavItems
    ensures DefaultIconShown(i) ==> !Truthy(i.expandIcon) && !Truthy(i.collapseIcon)
  {
  }

  /**
   * With children and both custom icons, exactly one of them renders, chosen
   * by the expansion; with children and neither, the default chevron renders.
   * With only an expand icon, nothing renders while the items are expanded.
   */
  lemma RightIconChoice(i: ItemInputs, s: NavState)
    ensures i.hasChildren && Truthy(i.expandIcon) && Truthy(i.collapseIcon) ==>
      (ExpandIconShown(i, s) <==> !s.showNestedNavItems) &&
      (CollapseIconShown(i, s) <==> s.showNestedNavItems)
    ensures i.hasChildren && !Truthy(i.expandIcon) && !Truthy(i.collapseIcon) ==> DefaultIconShown(i)
    ensures Truthy(i.expandIcon) && !Truthy(i.collapseIcon) && s.showNestedNavItems ==>
      !ExpandIconShown(i, s) && !CollapseIconShown(i, s) && !DefaultIconShown(i)
  {
  }

  /** Icon animation is off until the first toggle, and always off when not customised. */
  lemma IconAnimationGate(i: ItemInputs, s: NavState)
    ensures !s.toggled ==> IconAnimationDisabled(i, s)
    ensures !i.useCustomIconAnimation ==> IconAnimationDisabled(i, s)
    ensures s.toggled && i.useCustomIconAnimation ==> !IconAnimationDisabled(i, s)
  {
  }

  /** Nested items render only while expanded and open; a new item hides them. */
  lemma NestedItemsNeedExpandedAndOpen(s: NavState)
    ensures NestedItemsShown(s) ==> s.showNestedNavItems && s.drawerOpen
    ensures !s.drawerOpen ==> !NestedItemsShown(s)
    ensures !NestedItemsShown(InitialState)
  {
  }

  // ---------------------------------------------------------------------------
  // Properties of the methods

  /** A toggle flips the expansion, so two toggles restore it; it sets `toggled`. */
  lemma ToggleTwiceRestores(s: NavState)
    ensures Toggle(s).showNestedNavItems == !s.showNestedNavItems
    ensures Toggle(s).toggled
    ensures Toggle(Toggle(s)).showNestedNavItems == s.showNestedNavItems
    ensures Toggle(s).drawerOpen == s.drawerOpen
    ensures Toggle(s).(showNestedNavItems := s.showNestedNavItems, toggled := s.toggled) == s
  {
  }

  /** A trace's run is the run of its first part followed by the rest. */
  lemma {:induction false} RunAppend(s: NavState, a: seq<NavEvent>, b: seq<NavEvent>)
    ensures Run(s, a + b) == Run(Run(s, a), b)
    decreases |a|
  {
    if a != [] {
      assert (a + b)[1..] == a[1..] + b;
      RunAppend(Step(s, a[0]), a[1..], b);
    } else {
      assert a + b == b;
    }
  }

  /**
   * `toggled` is true after a trace exactly when it was true before or the
   * trace holds a toggle: nothing ever sets it back to false.
   */
  lemma {:induction false} ToggledIsMonotonic(s: NavState, evs: seq<NavEvent>)
    ensures Run(s, evs).toggled <==> s.toggled || Toggles(evs) > 0
    decreases |evs|
  {
    if evs != [] {
      ToggledIsMonotonic(Step(s, evs[0]), evs[1..]);
    }
  }

  /**
   * The expansion after a trace is the value the host last bound (or the
   * initial one, if the trace binds none) flipped once per later toggle.
   */
  lemma {:induction false} ExpansionFollowsToggleParity(s: NavState, evs: seq<NavEvent>)
    ensures Run(s, evs).showNestedNavItems ==
      (LastBinding(evs).GetOr(s.showNestedNavItems) != (TogglesSinceBinding(evs) % 2 == 1))
    decreases |evs|
  {
    if evs != [] {
      var init := evs[..|evs| - 1];
      var last := evs[|evs| - 1];
      assert evs == init + [last];
      RunAppend(s, init, [last]);
      ExpansionFollowsToggleParity(s, init);
      assert Run(Run(s, init), [last]) == Step(Run(s, init), last) by {
        assert [last][1..] == [];
      }
    }
  }

  /**
   * A listening item's open flag is always the value most recently delivered
   * to it, and it stays listening.
   */
  lemma {:induction false} MirrorsLatestOpen(s: NavState, evs: seq<NavEvent>)
    requires s.openListening
    ensures Run(s, evs).openListening
    ensures Run(s, evs).drawerOpen == LatestOpen(evs, s.drawerOpen)
    decreases |evs|
  {
    if evs != [] {
      var init := evs[..|evs| - 1];
      var last := evs[|evs| - 1];
      assert evs == init + [last];
      RunAppend(s, init, [last]);
      MirrorsLatestOpen(s, init);
      assert Run(Run(s, init), [last]) == Step(Run(s, init), last) by {
        assert [last][1..] == [];
      }
    }
  }

  /**
   * After `ngOnInit` the item's open flag is the store's value at that moment,
   * and after each later emission it is the value most recently emitted.
   */
  lemma InitThenMirrors(s: NavState, current: bool, evs: seq<NavEvent>)
    ensures Run(s, [Initialised(current)] + evs).drawerOpen == LatestOpen(evs, current)
  {
    assert ([Initialised(current)] + evs)[1..] == evs;
    MirrorsLatestOpen(Init(s, current), evs);
  }

  /** Before `ngOnInit` the item ignores the store's open changes. */
  lemma NotListeningIgnoresOpen(s: NavState, open: bool)
    requires !s.openListening
    ensures OpenEmitted(s, open) == s
  {
  }

  /** A click on the right-side icon; counts the calls of `stopPropagation`. */
  class ClickEvent {
    var stopPropagationCalls: nat

    constructor ()
      ensures stopPropagationCalls == 0
    {
      stopPropagationCalls := 0;
    }

    method StopPropagation()
      modifies this
      ensures stopPropagationCalls == old(stopPropagationCalls) + 1
    {
      stopPropagationCalls := stopPropagationCalls + 1;
    }
  }

  /** The Angular component. */
  class DrawerNavItem {
    var activeItemBackgroundShape: ActiveItemBackgroundShape
    var hasChildren: bool
    var expandIcon: Option<string>
    var collapseIcon: Option<string>
    var useCustomIconAnimation: bool
    var showNestedNavItems: bool
    var toggled: bool
    var drawerOpen: bool
    /** Whether the item has subscribed to the store's open changes. */
    var openListening: bool

    function Inputs(): ItemInputs
      reads this
    {
      ItemInputs(activeItemBackgroundShape, hasChildren, expandIcon, collapseIcon, useCustomIconAnimation)
    }

    function State(): NavState
      reads this
    {
      NavState(showNestedNavItems, toggled, drawerOpen, openListening)
    }

    /** A new item, with every input at its declared default. */
    constructor ()
      ensures Inputs() == DefaultInputs && State() == InitialState
    {
      activeItemBackgroundShape := Round;
      hasChildren := false;
      expandIcon := None;
      collapseIcon := None;
      useCustomIconAnimation := true;
      showNestedNavItems := false;
      toggled := false;
      drawerOpen := false;
      openListening := false;
    }

    method NgOnInit(store: DrawerStore.Store)
      modifies this
      ensures Inputs() == old(Inputs())
      ensures State() == Init(old(State()), store.drawerOpen)
    {
      drawerOpen := store.drawerOpen;
      openListening := true;
    }

    /** The store's `drawerOpenChanges` delivers `open` to this item. */
    method DrawerOpenEmitted(open: bool)
      modifies this
      ensures Inputs() == old(Inputs())
      ensures State() == OpenEmitted(old(State()), open)
    {
      if openListening {
        drawerOpen := open;
      }
    }

    /**
     * Stops the event's propagation exactly when an event is given (a missing
     * event is accepted) and toggles the nested items either way.
     */
    method ToggleNestedNavItems(e: ClickEvent?)
      modifies this, e
      ensures Inputs() == old(Inputs())
      ensures State() == Toggle(old(State()))
      ensures e != null ==> e.stopPropagationCalls == old(e.stopPropagationCalls) + 1
    {
      if e != null {
        e.StopPropagation();
      }
      showNestedNavItems := !showNestedNavItems;
      if !toggled {
        toggled := !toggled;
      }
    }
  }
}
