/**
 * The drawer container (`DrawerComponent`): it mirrors its inputs into the
 * shared store and runs the hover-to-temporarily-open logic.
 *
 * Timers are explicit: `setTimeout` hands out a fresh id (`nextTimer`) and adds
 * it to `pending`, `clearTimeout` removes an id from `pending`, and the event
 * loop later fires a pending id (`TimerFired`). An id that is no longer pending
 * never fires. The hover delay is kept as an input but no clock is modelled.
 *
 * Each operation is a pure step function on `DrawerState`; the class
 * `DrawerComponent` performs the same updates on its fields and its methods are
 * proved to agree with the step functions, about which the properties are
 * proved.
 */
module Drawer {
  import opened Wrappers
  import opened DrawerStore

  /** A handle returned by `setTimeout`. */
  type TimerId = nat

  /** The component's inputs, as the host last bound them. */
  datatype Inputs = Inputs(
    open: bool,
    openOnHover: bool,
    openOnHoverDelay: int,
    condensed: bool,
    disableRailTooltip: bool,
    disableActiveItemParentStyles: bool,
    sideBorder: bool)

  /**
   * Everything the drawer's operations read or write: its inputs, the shared
   * store, the `hoverDelayTimeout` slot, the timers scheduled and not yet fired
   * or cleared, the next id `setTimeout` will hand out, and whether the
   * selection listener has been subscribed.
   */
  datatype DrawerState = DrawerState(
    inputs: Inputs,
    store: Store,
    hoverDelayTimeout: Option<TimerId>,
    pending: set<TimerId>,
    nextTimer: TimerId,
    selectionListening: bool)

  /** The inputs' declared defaults, with `open` as the host binds it. */
  function DefaultInputs(open: bool): Inputs {
    Inputs(open, true, 500, false, false, false, false)
  }

  /** Timer ids handed out so far are exactly those below `nextTimer`. */
  ghost predicate TimersWellFormed(s: DrawerState) {
    (forall t :: t in s.pending ==> t < s.nextTimer) &&
    (s.hoverDelayTimeout.Some? ==> s.hoverDelayTimeout.value < s.nextTimer)
  }

  /** `ngOnInit`: publish `open` and subscribe the selection listener. */
  function OnInit(s: DrawerState): DrawerState {
    s.(store := Apply(s.store, Write(DrawerOpen, s.inputs.open)), selectionListening := true)
  }

  /** The setter calls `ngOnChanges` makes, in its order. */
  function ChangeWrites(i: Inputs): seq<StoreWrite> {
    [Write(SideBorder, i.sideBorder),
     Write(DrawerOpen, i.open),
     Write(Condensed, i.condensed),
     Write(DisableRailTooltip, i.disableRailTooltip),
     Write(DisableActiveItemParentStyles, i.disableActiveItemParentStyles),
     Write(OpenOnHover, i.openOnHover)]
  }

  /**
   * `ngOnChanges`: broadcast the inputs to the store, one setter after the other.
   * The calls are written out rather than folded over `ChangeWrites`, so that
   * each field's final value is visible without unrolling `ApplyAll`;
   * `OnChangesAppliesChangeWrites` proves the two descriptions equal.
   */
  function OnChanges(s: DrawerState): DrawerState {
    var i := s.inputs;
    var st1 := Apply(s.store, Write(SideBorder, i.sideBorder));
    var st2 := Apply(st1, Write(DrawerOpen, i.open));
    var st3 := Apply(st2, Write(Condensed, i.condensed));
    var st4 := Apply(st3, Write(DisableRailTooltip, i.disableRailTooltip));
    var st5 := Apply(st4, Write(DisableActiveItemParentStyles, i.disableActiveItemParentStyles));
    s.(store := Apply(st5, Write(OpenOnHover, i.openOnHover)))
  }

  /** `hoverDrawer`: schedule the temporary opening when closed and enabled. */
  function Hover(s: DrawerState): DrawerState {
    if !s.inputs.open && s.inputs.openOnHover then
      s.(hoverDelayTimeout := Some(s.nextTimer),
         pending := s.pending + {s.nextTimer},
         nextTimer := s.nextTimer + 1)
    else s
  }

  /** `clearTimeout(slot)`: clearing `undefined` does nothing. */
  function ClearTimeout(pending: set<TimerId>, slot: Option<TimerId>): set<TimerId> {
    match slot
    case Some(id) => pending - {id}
    case None => pending
  }

  /** `unhoverDrawer`: cancel the timer in the slot and close a temporary opening. */
  function Unhover(s: DrawerState): DrawerState {
    if s.inputs.openOnHover then
      s.(pending := ClearTimeout(s.pending, s.hoverDelayTimeout),
         store := if s.store.tempOpen then Apply(s.store, Write(TempOpen, false)) else s.store)
    else s
  }

  /** The selection listener's callback, for an item with or without children. */
  function OnSelection(s: DrawerState, hasChildren: bool): DrawerState {
    if s.store.tempOpen && !hasChildren then
      s.(store := Apply(s.store, Write(TempOpen, false)))
    else s
  }

  /** The event loop fires timer `id`; the callback opens the drawer temporarily. */
  function Fire(s: DrawerState, id: TimerId): DrawerState {
    if id in s.pending then
      s.(pending := s.pending - {id}, store := Apply(s.store, Write(TempOpen, true)))
    else s
  }

  /** What can happen to a drawer. */
  datatype Event =
    | Init
      /** The host binds new inputs; Angular then calls `ngOnChanges`. */
    | InputsChanged(inputs: Inputs)
    | MouseEnter
    | MouseLeave
      /** A nav item emits on the store's selection channel. */
    | SelectionEmitted(hasChildren: bool)
    | TimerFired(id: TimerId)

  function Step(s: DrawerState, e: Event): DrawerState {
    match e
    case Init => OnInit(s)
    case InputsChanged(i) => OnChanges(s.(inputs := i))
    case MouseEnter => Hover(s)
    case MouseLeave => Unhover(s)
    case SelectionEmitted(hasChildren) =>
      if s.selectionListening then OnSelection(s, hasChildren) else s
    case TimerFired(id) => Fire(s, id)
  }

  function Run(s: DrawerState, evs: seq<Event>): DrawerState
    decreases |evs|
  {
    if evs == [] then s else Run(Step(s, evs[0]), evs[1..])
  }

  // ---------------------------------------------------------------------------
  // One operation at a time

  /** `ngOnInit` publishes `open`, subscribes, and touches nothing else. */
  lemma InitMirrorsOpen(s: DrawerState)
    ensures OnInit(s).store.drawerOpen == s.inputs.open
    ensures OnInit(s).store.writes == s.store.writes + [Write(DrawerOpen, s.inputs.open)]
    ensures OnInit(s).selectionListening
    ensures OnInit(s).store.tempOpen == s.store.tempOpen
    ensures OnInit(s).store.variant == s.store.variant
    ensures OnInit(s).pending == s.pending && OnInit(s).hoverDelayTimeout == s.hoverDelayTimeout
    ensures forall f :: f != DrawerOpen ==> Get(OnInit(s).store, f) == Get(s.store, f)
    ensures OnInit(s).(store := s.store, selectionListening := s.selectionListening) == s
  {
  }

  /**
   * After `ngOnChanges` the six mirrored store fields equal the inputs; the
   * temporary opening, the variant, the slot and the pending timers are as
   * before (a pending timer is not cancelled).
   */
  lemma ChangesMirrorInputs(s: DrawerState)
    ensures var r := OnChanges(s);
      r.store.sideBorder == s.inputs.sideBorder &&
      r.store.drawerOpen == s.inputs.open &&
      r.store.condensed == s.inputs.condensed &&
      r.store.disableRailTooltip == s.inputs.disableRailTooltip &&
      r.store.disableActiveItemParentStyles == s.inputs.disableActiveItemParentStyles &&
      r.store.openOnHover == s.inputs.openOnHover
    ensures var r := OnChanges(s);
      r.store.tempOpen == s.store.tempOpen && r.store.variant == s.store.variant &&
      r.store.writes == s.store.writes + ChangeWrites(s.inputs)
    ensures var r := OnChanges(s);
      r.pending == s.pending && r.hoverDelayTimeout == s.hoverDelayTimeout &&
      r.inputs == s.inputs && r.nextTimer == s.nextTimer
    ensures OnChanges(s).(store := s.store) == s
  {
  }

  /** `ngOnChanges` is the six setter calls of `ChangeWrites`, made in order. */
  lemma OnChangesAppliesChangeWrites(s: DrawerState)
    ensures OnChanges(s).store == ApplyAll(s.store, ChangeWrites(s.inputs))
  {
    var ws := ChangeWrites(s.inputs);
    var st := s.store;
    assert ApplyAll(st, ws[..1]) == Apply(st, ws[0]) by { assert ws[..1][..0] == []; }
    assert ApplyAll(st, ws[..2]) == Apply(ApplyAll(st, ws[..1]), ws[1]) by { assert ws[..2][..1] == ws[..1]; }
    assert ApplyAll(st, ws[..3]) == Apply(ApplyAll(st, ws[..2]), ws[2]) by { assert ws[..3][..2] == ws[..2]; }
    assert ApplyAll(st, ws[..4]) == Apply(ApplyAll(st, ws[..3]), ws[3]) by { assert ws[..4][..3] == ws[..3]; }
    assert ApplyAll(st, ws[..5]) == Apply(ApplyAll(st, ws[..4]), ws[4]) by { assert ws[..5][..4] == ws[..4]; }
    assert ApplyAll(st, ws) == Apply(ApplyAll(st, ws[..5]), ws[5]) by { assert ws[..|ws| - 1] == ws[..5]; }
  }

  /**
   * `hoverDrawer` schedules a fresh timer and stores it in the slot exactly
   * when the drawer is closed and hover opening is enabled; otherwise the
   * state is unchanged. The store is not touched either way.
   */
  lemma HoverSchedulesWhenClosed(s: DrawerState)
    requires TimersWellFormed(s)
    ensures var r := Hover(s);
      if !s.inputs.open && s.inputs.openOnHover then
        s.nextTimer !in s.pending &&
        r.hoverDelayTimeout == Some(s.nextTimer) &&
        r.pending == s.pending + {s.nextTimer} &&
        |r.pending| == |s.pending| + 1 &&
        r.nextTimer == s.nextTimer + 1 &&
        r.store == s.store
      else r == s
    ensures Hover(s).(pending := s.pending, hoverDelayTimeout := s.hoverDelayTimeout, nextTimer := s.nextTimer) == s
  {
  }

  /**
   * `hoverDrawer` never looks at the store's variant: it schedules the same
   * timer whether the drawer is persistent, temporary or a rail.
   */
  lemma HoverIgnoresVariant(s: DrawerState, v: Variant)
    ensures var h := Hover(s);
      Hover(s.(store := s.store.(variant := v))) == h.(store := h.store.(variant := v))
    ensures !s.inputs.open && s.inputs.openOnHover ==>
      var r := Hover(s.(store := s.store.(variant := v)));
      r.hoverDelayTimeout == Some(s.nextTimer) && r.pending == s.pending + {s.nextTimer}
  {
  }

  /**
   * A pending timer's callback sets `tempOpen` whatever the inputs are at that
   * moment (it does not look at `open` or `openOnHover`); an id that is not
   * pending does nothing.
   */
  lemma FireSetsTempOpen(s: DrawerState, id: TimerId)
    ensures id in s.pending ==>
      Fire(s, id).store.tempOpen &&
      Fire(s, id).pending == s.pending - {id} &&
      Fire(s, id).store.writes == s.store.writes + [Write(TempOpen, true)] &&
      Fire(s, id).inputs == s.inputs
    ensures id !in s.pending ==> Fire(s, id) == s
    ensures forall f :: f != TempOpen ==> Get(Fire(s, id).store, f) == Get(s.store, f)
    ensures Fire(s, id).store.variant == s.store.variant
    ensures Fire(s, id).(pending := s.pending, store := s.store) == s
  {
  }

  /**
   * With hover opening enabled, `unhoverDrawer` cancels the timer held in the
   * slot (and no other), leaves `tempOpen` false, and writes `tempOpen` only
   * when it was true. With hover opening disabled it changes nothing.
   */
  lemma UnhoverCancelsSlot(s: DrawerState)
    ensures var r := Unhover(s);
      s.inputs.openOnHover ==>
        !r.store.tempOpen &&
        (s.hoverDelayTimeout.Some? ==> r.pending == s.pending - {s.hoverDelayTimeout.value}) &&
        (s.hoverDelayTimeout.None? ==> r.pending == s.pending) &&
        r.hoverDelayTimeout == s.hoverDelayTimeout &&
        r.store.writes == s.store.writes + (if s.store.tempOpen then [Write(TempOpen, false)] else [])
    ensures !s.inputs.openOnHover ==> Unhover(s) == s
    ensures forall f :: f != TempOpen ==> Get(Unhover(s).store, f) == Get(s.store, f)
    ensures Unhover(s).store.variant == s.store.variant
    ensures Unhover(s).(pending := s.pending, store := s.store) == s
  {
  }

  /**
   * A selection closes a temporary opening exactly when the selected item has
   * no children; otherwise the store is unchanged.
   */
  lemma SelectionClosesOnLeaf(s: DrawerState, hasChildren: bool)
    ensures var r := OnSelection(s, hasChildren);
      if s.store.tempOpen && !hasChildren then
        !r.store.tempOpen && r.store.writes == s.store.writes + [Write(TempOpen, false)]
      else r == s
    ensures OnSelection(s, hasChildren).pending == s.pending
    ensures forall f :: f != TempOpen ==> Get(OnSelection(s, hasChildren).store, f) == Get(s.store, f)
    ensures OnSelection(s, hasChildren).store.variant == s.store.variant
    ensures OnSelection(s, hasChildren).(store := s.store) == s
  {
  }

  // ---------------------------------------------------------------------------
  // Event traces

  lemma StepKeepsTimersWellFormed(s: DrawerState, e: Event)
    requires TimersWellFormed(s)
    ensures TimersWellFormed(Step(s, e))
    ensures Step(s, e).nextTimer >= s.nextTimer
  {
  }

  /** Every id ever pending or in the slot was handed out, whatever happens. */
  lemma {:induction false} RunKeepsTimersWellFormed(s: DrawerState, evs: seq<Event>)
    requires TimersWellFormed(s)
    ensures TimersWellFormed(Run(s, evs))
    ensures Run(s, evs).nextTimer >= s.nextTimer
    decreases |evs|
  {
    if evs != [] {
      StepKeepsTimersWellFormed(s, evs[0]);
      RunKeepsTimersWellFormed(Step(s, evs[0]), evs[1..]);
    }
  }

  /**
   * A timer that was handed out and is no longer pending (it fired or was
   * cleared) never becomes pending again, so it can never fire later.
   */
  lemma {:induction false} ClearedTimerNeverFires(s: DrawerState, evs: seq<Event>, id: TimerId)
    requires TimersWellFormed(s)
    requires id < s.nextTimer && id !in s.pending
    ensures id !in Run(s, evs).pending
    ensures Fire(Run(s, evs), id) == Run(s, evs)
    decreases |evs|
  {
    if evs != [] {
      StepKeepsTimersWellFormed(s, evs[0]);
      ClearedTimerNeverFires(Step(s, evs[0]), evs[1..], id);
    }
  }

  /** Only a timer firing ever raises `tempOpen`. */
  lemma {:induction false} TempOpenRaisedOnlyByTimer(s: DrawerState, evs: seq<Event>)
    requires !s.store.tempOpen
    requires forall k :: 0 <= k < |evs| ==> !evs[k].TimerFired?
    ensures !Run(s, evs).store.tempOpen
    decreases |evs|
  {
    if evs != [] {
      var t := Step(s, evs[0]);
      if evs[0].InputsChanged? {
        ChangesMirrorInputs(s.(inputs := evs[0].inputs));
      }
      TempOpenRaisedOnlyByTimer(t, evs[1..]);
    }
  }

  /** Without a new hover, no timer is ever pending and `tempOpen` stays false. */
  lemma {:induction false} NoHoverStaysClosed(s: DrawerState, evs: seq<Event>)
    requires s.pending == {} && !s.store.tempOpen
    requires forall k :: 0 <= k < |evs| ==> !evs[k].MouseEnter?
    ensures Run(s, evs).pending == {} && !Run(s, evs).store.tempOpen
    decreases |evs|
  {
    if evs != [] {
      if evs[0].InputsChanged? {
        ChangesMirrorInputs(s.(inputs := evs[0].inputs));
      }
      NoHoverStaysClosed(Step(s, evs[0]), evs[1..]);
    }
  }

  /**
   * A hover followed by a leave, with no other timer pending, never opens the
   * drawer temporarily, whatever follows as long as the pointer does not
   * enter again: the timer was cleared before it could fire.
   */
  lemma HoverThenLeaveNeverOpens(s: DrawerState, evs: seq<Event>)
    requires s.pending == {} && !s.store.tempOpen
    requires forall k :: 0 <= k < |evs| ==> !evs[k].MouseEnter?
    ensures !Run(s, [MouseEnter, MouseLeave] + evs).store.tempOpen
  {
    var t := Unhover(Hover(s));
    assert ([MouseEnter, MouseLeave] + evs)[1..] == [MouseLeave] + evs;
    assert ([MouseLeave] + evs)[1..] == evs;
    assert Run(s, [MouseEnter, MouseLeave] + evs) == Run(t, evs);
    NoHoverStaysClosed(t, evs);
  }

  /** A hover with no leave opens the drawer temporarily when its timer fires. */
  lemma HoverThenFireOpens(s: DrawerState)
    requires !s.inputs.open && s.inputs.openOnHover
    ensures Run(s, [MouseEnter, TimerFired(s.nextTimer)]).store.tempOpen
  {
    var evs := [MouseEnter, TimerFired(s.nextTimer)];
    assert evs[1..] == [TimerFired(s.nextTimer)] && evs[1..][1..] == [];
    assert Run(s, evs) == Run(Hover(s), evs[1..]);
    assert Run(Hover(s), evs[1..]) == Run(Fire(Hover(s), s.nextTimer), []);
  }

  /** `n` hovers in a row, with no leave between them. */
  function Hovers(s: DrawerState, n: nat): DrawerState {
    if n == 0 then s else Hover(Hovers(s, n - 1))
  }

  /** The ids `setTimeout` hands out in `n` calls starting from `first`. */
  function Ids(first: TimerId, n: nat): (ids: set<TimerId>)
    ensures forall t :: t in ids <==> first <= t < first + n
  {
    if n == 0 then {} else Ids(first, n - 1) + {first + n - 1}
  }

  /**
   * Repeated hovers while closed each schedule a new timer and overwrite the
   * slot with it; none of the earlier timers is cancelled.
   */
  lemma {:induction false} RepeatedHoversOverwriteSlot(s: DrawerState, n: nat)
    requires !s.inputs.open && s.inputs.openOnHover
    ensures var r := Hovers(s, n);
      r.pending == s.pending + Ids(s.nextTimer, n) &&
      r.nextTimer == s.nextTimer + n &&
      (n > 0 ==> r.hoverDelayTimeout == Some(s.nextTimer + n - 1)) &&
      r.store == s.store && r.inputs == s.inputs
  {
    if n > 0 {
      RepeatedHoversOverwriteSlot(s, n - 1);
    }
  }

  /**
   * After `n` hovers, a leave cancels only the most recent timer: the `n - 1`
   * earlier ones stay pending.
   */
  lemma UnhoverCancelsOnlyLatest(s: DrawerState, n: nat)
    requires TimersWellFormed(s)
    requires !s.inputs.open && s.inputs.openOnHover && n > 0
    ensures Unhover(Hovers(s, n)).pending == s.pending + Ids(s.nextTimer, n - 1)
    ensures s.nextTimer + n - 1 !in Unhover(Hovers(s, n)).pending
  {
    RepeatedHoversOverwriteSlot(s, n);
  }

  /**
   * Consequently two hovers and a leave still open the drawer temporarily when
   * the first timer fires, although the pointer has left.
   */
  lemma StaleTimerOpensAfterLeave(s: DrawerState)
    requires TimersWellFormed(s)
    requires !s.inputs.open && s.inputs.openOnHover
    ensures Fire(Unhover(Hovers(s, 2)), s.nextTimer).store.tempOpen
  {
    UnhoverCancelsOnlyLatest(s, 2);
    assert s.nextTimer in Ids(s.nextTimer, 1);
  }

  /**
   * `ngOnChanges` does not cancel a pending timer: a hover while closed, then
   * the host opening the drawer, then the timer firing leaves the store both
   * open and temporarily open.
   */
  lemma TempOpenWhileOpen(s: DrawerState)
    requires !s.inputs.open && s.inputs.openOnHover
    ensures var i := s.inputs.(open := true);
      var r := Run(s, [MouseEnter, InputsChanged(i), TimerFired(s.nextTimer)]);
      r.store.drawerOpen && r.store.tempOpen
  {
    var i := s.inputs.(open := true);
    var evs := [MouseEnter, InputsChanged(i), TimerFired(s.nextTimer)];
    assert evs[1..] == [InputsChanged(i), TimerFired(s.nextTimer)];
    assert evs[1..][1..] == [TimerFired(s.nextTimer)];
    assert evs[1..][1..][1..] == [];
    var h := Hover(s);
    ChangesMirrorInputs(h.(inputs := i));
    var c := OnChanges(h.(inputs := i));
    assert s.nextTimer in c.pending;
    assert Run(s, evs) == Run(h, evs[1..]);
    assert Run(h, evs[1..]) == Run(c, evs[1..][1..]);
    assert Run(c, evs[1..][1..]) == Run(Fire(c, s.nextTimer), []);
  }

  /**
   * `unhoverDrawer` clears nothing once the host has turned `openOnHover` off,
   * so a timer scheduled before that still fires after the pointer has left
   * and opens the drawer temporarily.
   */
  lemma TimerOutlivesHoverOptOut(s: DrawerState)
    requires !s.inputs.open && s.inputs.openOnHover
    ensures var i := s.inputs.(openOnHover := false);
      var r := Run(s, [MouseEnter, InputsChanged(i), MouseLeave, TimerFired(s.nextTimer)]);
      r.store.tempOpen && !r.store.openOnHover
  {
    var i := s.inputs.(openOnHover := false);
    var evs := [MouseEnter, InputsChanged(i), MouseLeave, TimerFired(s.nextTimer)];
    assert evs[1..] == [InputsChanged(i), MouseLeave, TimerFired(s.nextTimer)];
    assert evs[1..][1..] == [MouseLeave, TimerFired(s.nextTimer)];
    assert evs[1..][1..][1..] == [TimerFired(s.nextTimer)];
    assert evs[1..][1..][1..][1..] == [];
    var h := Hover(s);
    ChangesMirrorInputs(h.(inputs := i));
    var c := OnChanges(h.(inputs := i));
    assert s.nextTimer in c.pending;
    assert Unhover(c) == c;
    assert Run(s, evs) == Run(h, evs[1..]);
    assert Run(h, evs[1..]) == Run(c, evs[1..][1..]);
    assert Run(c, evs[1..][1..]) == Run(c, evs[1..][1..][1..]);
    assert Run(c, evs[1..][1..][1..]) == Run(Fire(c, s.nextTimer), []);
  }

  /**
   * No drawer operation changes the store's variant, so the answer of
   * `isTemporaryVariant` is the same after any sequence of events.
   */
  lemma {:induction false} RunKeepsVariant(s: DrawerState, evs: seq<Event>)
    ensures Run(s, evs).store.variant == s.store.variant
    decreases |evs|
  {
    if evs != [] {
      if evs[0].InputsChanged? {
        ChangesMirrorInputs(s.(inputs := evs[0].inputs));
      }
      RunKeepsVariant(Step(s, evs[0]), evs[1..]);
    }
  }

  /** Every store field the drawer writes always holds the value last written. */
  lemma {:induction false} RunKeepsStoreConsistent(s: DrawerState, evs: seq<Event>)
    requires Consistent(s.store)
    ensures Consistent(Run(s, evs).store)
    decreases |evs|
  {
    if evs != [] {
      if evs[0].InputsChanged? {
        var s' := s.(inputs := evs[0].inputs);
        OnChangesAppliesChangeWrites(s');
        ApplyAllKeepsConsistent(s'.store, ChangeWrites(s'.inputs));
      } else {
        ApplyKeepsConsistent(s.store, Write(DrawerOpen, s.inputs.open));
        ApplyKeepsConsistent(s.store, Write(TempOpen, false));
        ApplyKeepsConsistent(s.store, Write(TempOpen, true));
      }
      RunKeepsStoreConsistent(Step(s, evs[0]), evs[1..]);
    }
  }

  /** The Angular component: its inputs, its timer slot, and the state it drives. */
  class DrawerComponent {
    var open: bool
    var openOnHover: bool
    var openOnHoverDelay: int
    var condensed: bool
    var disableRailTooltip: bool
    var disableActiveItemParentStyles: bool
    var sideBorder: bool
    var hoverDelayTimeout: Option<TimerId>
    /** Whether `drawerSelectionListener` has been subscribed. */
    var selectionListening: bool
    /** The shared store. */
    var store: Store
    /** The event loop's timers that this drawer scheduled and that are still to fire. */
    var pending: set<TimerId>
    /** The id the event loop's `setTimeout` hands out next. */
    var nextTimer: TimerId

    function State(): DrawerState
      reads this
    {
      DrawerState(
        Inputs(open, openOnHover, openOnHoverDelay, condensed, disableRailTooltip,
               disableActiveItemParentStyles, sideBorder),
        store, hoverDelayTimeout, pending, nextTimer, selectionListening)
    }

    ghost predicate Valid()
      reads this
    {
      TimersWellFormed(State())
    }

    /** A drawer bound to `open`, with every other input at its default. */
    constructor (open: bool, store: Store)
      ensures Valid()
      ensures State() == DrawerState(DefaultInputs(open), store, None, {}, 0, false)
    {
      this.open := open;
      openOnHover := true;
      openOnHoverDelay := 500;
      condensed := false;
      disableRailTooltip := false;
      disableActiveItemParentStyles := false;
      sideBorder := false;
      hoverDelayTimeout := None;
      selectionListening := false;
      this.store := store;
      pending := {};
      nextTimer := 0;
    }

    method NgOnInit()
      requires Valid()
      modifies this
      ensures Valid()
      ensures State() == OnInit(old(State()))
    {
      store := Apply(store, Write(DrawerOpen, open));
      selectionListening := true;
    }

    method NgOnChanges()
      requires Valid()
      modifies this
      ensures Valid()
      ensures State() == OnChanges(old(State()))
    {
      var st := store;
      st := Apply(st, Write(SideBorder, sideBorder));
      st := Apply(st, Write(DrawerOpen, open));
      st := Apply(st, Write(Condensed, condensed));
      st := Apply(st, Write(DisableRailTooltip, disableRailTooltip));
      st := Apply(st, Write(DisableActiveItemParentStyles, disableActiveItemParentStyles));
      st := Apply(st, Write(OpenOnHover, openOnHover));
      assert st == OnChanges(State()).store;
      store := st;
    }

    method HoverDrawer()
      requires Valid()
      modifies this
      ensures Valid()
      ensures State() == Hover(old(State()))
    {
      if !open && openOnHover {
        var id := nextTimer;
        nextTimer := nextTimer + 1;
        pending := pending + {id};
        hoverDelayTimeout := Some(id);
      }
    }

    method UnhoverDrawer()
      requires Valid()
      modifies this
      ensures Valid()
      ensures State() == Unhover(old(State()))
    {
      if openOnHover {
        if hoverDelayTimeout.Some? {
          pending := pending - {hoverDelayTimeout.value};
        }
        if store.tempOpen {
          store := Apply(store, Write(TempOpen, false));
        }
      }
    }

    /** The store's selection channel delivers `hasChildren` to this drawer. */
    method DrawerSelectionEmitted(hasChildren: bool)
      requires Valid()
      modifies this
      ensures Valid()
      ensures State() == Step(old(State()), SelectionEmitted(hasChildren))
    {
      if selectionListening && store.tempOpen && !hasChildren {
        store := Apply(store, Write(TempOpen, false));
      }
    }

    /** The event loop runs the callback of timer `id`, if it is still pending. */
    method TimerFires(id: TimerId)
      requires Valid()
      modifies this
      ensures Valid()
      ensures State() == Fire(old(State()), id)
    {
      if id in pending {
        pending := pending - {id};
        store := Apply(store, Write(TempOpen, true));
      }
    }

    method IsTemporaryVariant() returns (r: bool)
      ensures r <==> store.variant == Temporary
    {
      r := store.variant == Temporary;
    }
  }
}
