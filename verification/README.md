# Drawer state coordination, modelled in Dafny

This project models the state coordination at the core of the navigation
drawer of an Angular component library. Two small, sequential state machines
are modelled, together with the boolean rules of the nav item's template:

- **The drawer container** (`DrawerComponent`). It mirrors its inputs into the
  shared drawer store on `ngOnInit` and `ngOnChanges`. It opens the drawer
  temporarily (`tempOpen`) when the pointer rests on it: `hoverDrawer`
  schedules a timer, and the timer's callback sets `tempOpen`. `unhoverDrawer`
  clears the timer held in `hoverDelayTimeout` and closes a temporary opening.
  The selection listener closes a temporary opening when a leaf item is
  selected.
- **The nav item** (`DrawerNavItemComponent`). It keeps three per-item flags:
  `showNestedNavItems`, a monotonic `toggled` flag, and `drawerOpen`, a copy of
  the store's open flag. Its template decides from these which background
  classes apply, which expand/collapse icon renders, whether icon animation is
  disabled and whether nested items render.

Files:

- `wrappers.dfy`: `Option`, standing for JavaScript's `undefined`.
- `store.dfy`, module `DrawerStore`: the shared store as a record. It holds the
  fields the drawer writes and reads and a log of the setter calls it received.
- `drawer.dfy`, module `Drawer`: the container.
  - Each operation is a pure step function on `DrawerState`.
  - Event traces are run with `Run`.
  - The class `DrawerComponent` has the component's fields, and its methods are
    proved to agree with the step functions.
  - Timers are explicit. `setTimeout` hands out the fresh id `nextTimer` and
    adds it to `pending`; `clearTimeout` removes an id; the event loop fires a
    pending id (`TimerFires`). An id that is no longer pending does nothing.
- `nav_item.dfy`, module `NavItem`: the nav item.
  - Step functions on `NavState`.
  - The template predicates.
  - The class `DrawerNavItem` and a `ClickEvent` class that counts
    `stopPropagation` calls.
- `sync.dfy`, module `DrawerSync`: how the store's setter calls reach every
  listening nav item through `drawerOpenChanges()`. Every `setDrawerOpen` call
  is delivered. Whether `setDrawerTempOpen` calls are delivered too is decided
  inside the store, so it is a parameter (`tempOpenNotifies`).
  `EmissionsCarryLastNotified`, `NavItemFollowsNotifications`,
  `TempOpenReachesNavItemsOnlyIfNotifying` and `ChangesReachNavItems` hold for
  both values. `OnlyOpenWritesNotify` and `NavItemMirrorsStore` hold only when
  `setDrawerTempOpen` does not notify. When it does, an item can end up closed
  while the store is open (`TempNotifiesSplitsItemFromStore`).

The model follows the code as written:

- A repeated hover does not reuse a pending timer. It schedules another one and
  overwrites the slot, so a later leave cancels only the newest timer, and an
  earlier one can still open the drawer after the pointer has left
  (`StaleTimerOpensAfterLeave`).
- The hover delay is not clamped.
- A change of `open` does not cancel a pending timer, and the timer's callback
  does not check `open` or `openOnHover` again. So the store can end up both
  open and temporarily open (`TempOpenWhileOpen`).
- `unhoverDrawer` clears nothing while `openOnHover` is off. A timer scheduled
  before the host turns `openOnHover` off therefore still fires after the
  pointer has left, and it opens the drawer temporarily
  (`TimerOutlivesHoverOptOut`).
- Nothing in the nav item emits selection events. They enter the model as an
  external event.
- The doc comments of `openOnHover` and `openOnHoverDelay` say hover opening
  applies to the persistent variant only. `hoverDrawer` never reads the
  variant, so a hover schedules the same timer in every variant
  (`HoverIgnoresVariant`).
- `showNestedNavItems` is an input. A host binding sets it, and the item's
  own toggles flip it from there (`ExpansionFollowsToggleParity`).

## Model

| member | source | states |
|---|---|---|
| `DrawerStore.Apply` | components/src/core/drawer/drawer.component.ts:93-98 | a setter call makes the getter of its field return the written value, leaves every other field and the variant as they were, and appends the call to the store's log |
| `DrawerStore.ApplyAllLastWins` | components/src/core/drawer/drawer.component.ts:92-99 | after any sequence of setter calls, each getter returns the value last set for its field, or its old value if the sequence never set it; the log grows by exactly those calls |
| `Drawer.OnChangesAppliesChangeWrites` | components/src/core/drawer/drawer.component.ts:92-99 | `ngOnChanges` leaves the store exactly as the six setter calls, made in source order, leave it |
| `Drawer.RunKeepsStoreConsistent` | components/src/core/drawer/drawer.component.ts:85-129 | whatever events the drawer handles, every store field it writes holds the value last written to it |
| `Drawer.InitMirrorsOpen` | components/src/core/drawer/drawer.component.ts:85-89 | `ngOnInit` sets the store's `drawerOpen` to `open` with one setter call and subscribes the selection listener; nothing else changes: the inputs, the timers, the slot, the variant and every other store field are as before |
| `Drawer.ChangesMirrorInputs` | components/src/core/drawer/drawer.component.ts:92-99 | after `ngOnChanges`, `sideBorder`, `drawerOpen`, `condensed`, `disableRailTooltip`, `disableActiveItemParentStyles` and `openOnHover` in the store equal the inputs; the six setter calls are logged in source order; nothing outside the store changes (inputs, timers, slot and selection listener), and `tempOpen` and the variant are untouched |
| `Drawer.HoverSchedulesWhenClosed` | components/src/core/drawer/drawer.component.ts:101-108 | `hoverDrawer` adds one fresh timer to the pending set and stores it in `hoverDelayTimeout` exactly when `open` is false and `openOnHover` is true; the next timer id advances by one and nothing else changes; otherwise the state is unchanged; the store is never touched |
| `Drawer.HoverIgnoresVariant` | components/src/core/drawer/drawer.component.ts:101-108 | whatever the store's variant, a hover while closed with hover opening enabled schedules one fresh timer in the slot; the whole result is the same for every variant, apart from the variant field itself |
| `Drawer.FireSetsTempOpen` | components/src/core/drawer/drawer.component.ts:103-106 | a pending timer firing sets `tempOpen` to true and removes itself from the pending set, whatever `open` and `openOnHover` are; the inputs, slot, next id, selection listener, variant and every other store field are kept; a timer that is not pending does nothing |
| `Drawer.UnhoverCancelsSlot` | components/src/core/drawer/drawer.component.ts:110-118 | with `openOnHover`, `unhoverDrawer` removes exactly the slot's timer from the pending set and leaves `tempOpen` false, writing it only when it was true; the inputs, slot, next id, selection listener, variant and every other store field are kept; without `openOnHover` nothing changes |
| `Drawer.SelectionClosesOnLeaf` | components/src/core/drawer/drawer.component.ts:122-129 | a selection with `tempOpen` true and no children writes `tempOpen` false; with children, or with `tempOpen` already false, the state is unchanged; only the store's `tempOpen` and log can change |
| `Drawer.RunKeepsTimersWellFormed` | components/src/core/drawer/drawer.component.ts:101-118 | along any trace, every pending id and the slot's id are ids `setTimeout` already handed out, and the next id never decreases |
| `Drawer.ClearedTimerNeverFires` | components/src/core/drawer/drawer.component.ts:110-112 | a timer that was cleared or has fired never becomes pending again, whatever happens next, so firing it later changes nothing |
| `Drawer.TempOpenRaisedOnlyByTimer` | components/src/core/drawer/drawer.component.ts:103-106 | along any trace without a timer firing, a `tempOpen` that was false stays false |
| `Drawer.NoHoverStaysClosed` | components/src/core/drawer/drawer.component.ts:101-118 | with no timer pending and `tempOpen` false, a trace without a hover keeps no timer pending and `tempOpen` false |
| `Drawer.HoverThenLeaveNeverOpens` | components/src/core/drawer/drawer.component.ts:101-118 | a hover followed by a leave, with no other timer pending, never makes `tempOpen` true in any continuation that has no new hover |
| `Drawer.HoverThenFireOpens` | components/src/core/drawer/drawer.component.ts:101-106 | a hover while closed with hover opening enabled, followed by its timer firing, sets `tempOpen` |
| `Drawer.RepeatedHoversOverwriteSlot` | components/src/core/drawer/drawer.component.ts:101-108 | `n` hovers while closed schedule `n` fresh timers, all pending, and leave the newest in the slot; the store and the inputs are unchanged |
| `Drawer.UnhoverCancelsOnlyLatest` | components/src/core/drawer/drawer.component.ts:103-112 | after `n` hovers, a leave cancels only the newest timer; the `n - 1` earlier ones stay pending |
| `Drawer.StaleTimerOpensAfterLeave` | components/src/core/drawer/drawer.component.ts:101-118 | after two hovers and a leave, the first timer still fires and sets `tempOpen` |
| `Drawer.TempOpenWhileOpen` | components/src/core/drawer/drawer.component.ts:92-106 | a hover while closed, then the host opening the drawer, then the timer firing leaves the store both open and temporarily open |
| `Drawer.DrawerComponent.constructor` | components/src/core/drawer/drawer.component.ts:52-78 | a new drawer has the declared input defaults (`openOnHover` true, delay 500, the flags false), an empty slot, no pending timer and no selection listener |
| `Drawer.DrawerComponent.NgOnInit` | components/src/core/drawer/drawer.component.ts:85-89 | performs `OnInit` on the component's fields and keeps the timer invariant |
| `Drawer.DrawerComponent.NgOnChanges` | components/src/core/drawer/drawer.component.ts:92-99 | performs `OnChanges`: the six setter calls in source order |
| `Drawer.DrawerComponent.HoverDrawer` | components/src/core/drawer/drawer.component.ts:101-108 | performs `Hover` on the fields and keeps the timer invariant |
| `Drawer.DrawerComponent.UnhoverDrawer` | components/src/core/drawer/drawer.component.ts:110-118 | performs `Unhover` on the fields and keeps the timer invariant |
| `Drawer.DrawerComponent.DrawerSelectionEmitted` | components/src/core/drawer/drawer.component.ts:122-129 | runs the selection callback only once `ngOnInit` has subscribed it, as `Step` does for a selection event |
| `Drawer.DrawerComponent.TimerFires` | components/src/core/drawer/drawer.component.ts:103-106 | performs `Fire`: a still-pending timer's callback sets `tempOpen` |
| `Drawer.TimerOutlivesHoverOptOut` | components/src/core/drawer/drawer.component.ts:101-118 | a hover, then the host turning `openOnHover` off, then a leave, then the hover's timer firing leaves the store temporarily open: the leave cleared nothing |
| `Drawer.RunKeepsVariant` | components/src/core/drawer/drawer.component.ts:85-133 | no event the drawer handles changes the store's variant: the drawer only reads it, so `isTemporaryVariant` gives the same answer after any trace |
| `Drawer.DrawerComponent.IsTemporaryVariant` | components/src/core/drawer/drawer.component.ts:131-133 | true exactly when the store's variant is `temporary`; by `RunKeepsVariant`, the answer stays fixed along any trace of the drawer's own events |
| `NavItem.BackgroundClasses` | components/src/core/drawer/drawer-nav-item/drawer-nav-item.component.ts:70-71 | `round` applies iff the shape is round; `square` applies when the shape is square or the drawer is closed; one of them always applies; both apply exactly when the shape is round and the drawer is closed |
| `NavItem.RightIconsExclusive` | components/src/core/drawer/drawer-nav-item/drawer-nav-item.component.ts:81-101 | at most one of the expand, collapse and default icon blocks renders; none renders without children; expand needs the items collapsed, collapse needs them expanded, and default needs both icons falsy |
| `NavItem.RightIconChoice` | components/src/core/drawer/drawer-nav-item/drawer-nav-item.component.ts:81-101 | with children and both icons, the expansion chooses exactly one icon; with children and neither icon, the default renders; with only an expand icon, no icon renders while expanded |
| `NavItem.IconAnimationGate` | components/src/core/drawer/drawer-nav-item/drawer-nav-item.component.ts:86-95 | icon animation is disabled iff the item was never toggled or custom icon animation is off, so it never animates before the first toggle |
| `NavItem.NestedItemsNeedExpandedAndOpen` | components/src/core/drawer/drawer-nav-item/drawer-nav-item.component.ts:114-134 | nested items render only when expanded and the drawer is open; a new item with the defaults hides them |
| `NavItem.ToggleTwiceRestores` | components/src/core/drawer/drawer-nav-item/drawer-nav-item.component.ts:152-158 | a toggle negates `showNestedNavItems`, so two toggles restore it; after a toggle `toggled` is true; the open flag and the subscription are untouched |
| `NavItem.ToggledIsMonotonic` | components/src/core/drawer/drawer-nav-item/drawer-nav-item.component.ts:139-157 | after any trace, `toggled` is true iff it was true before or the trace holds a toggle; no event sets it back to false |
| `NavItem.ExpansionFollowsToggleParity` | components/src/core/drawer/drawer-nav-item/drawer-nav-item.component.ts:134-158 | after any trace, `showNestedNavItems` is the value of the last host binding in the trace (or its old value when there is none), flipped once per toggle after that binding |
| `NavItem.MirrorsLatestOpen` | components/src/core/drawer/drawer-nav-item/drawer-nav-item.component.ts:144-150 | a listening item's `drawerOpen` is always the open value most recently delivered to it, and it keeps listening |
| `NavItem.InitThenMirrors` | components/src/core/drawer/drawer-nav-item/drawer-nav-item.component.ts:144-150 | after `ngOnInit`, `drawerOpen` is the store's value read at that moment until an emission arrives, and the latest emitted value afterwards |
| `NavItem.NotListeningIgnoresOpen` | components/src/core/drawer/drawer-nav-item/drawer-nav-item.component.ts:144-150 | before `ngOnInit` subscribes, an open change leaves the item unchanged |
| `NavItem.DrawerNavItem.constructor` | components/src/core/drawer/drawer-nav-item/drawer-nav-item.component.ts:124-140 | a new item has the declared defaults: round shape, no children, no custom icons, custom icon animation on, collapsed, never toggled |
| `NavItem.DrawerNavItem.NgOnInit` | components/src/core/drawer/drawer-nav-item/drawer-nav-item.component.ts:144-150 | copies the store's `drawerOpen` and subscribes; inputs unchanged |
| `NavItem.DrawerNavItem.DrawerOpenEmitted` | components/src/core/drawer/drawer-nav-item/drawer-nav-item.component.ts:146-149 | a subscribed item takes the emitted value; inputs unchanged |
| `NavItem.DrawerNavItem.ToggleNestedNavItems` | components/src/core/drawer/drawer-nav-item/drawer-nav-item.component.ts:152-158 | calls `stopPropagation` exactly once when an event is given, accepts a missing event, and toggles either way (`Toggle`); inputs unchanged |
| `DrawerSync.EmissionsCarryLastNotified` | components/src/core/drawer/drawer-nav-item/drawer-nav-item.component.ts:146-149 | for either notification rule, the last open notification a sequence of setter calls delivers carries the value of the last notifying call |
| `DrawerSync.OnlyOpenWritesNotify` | components/src/core/drawer/drawer.component.ts:92-99 | when only `setDrawerOpen` notifies, the last notifying call is the last write to the store's open flag |
| `DrawerSync.NavItemFollowsNotifications` | components/src/core/drawer/drawer-nav-item/drawer-nav-item.component.ts:144-150 | for either notification rule, a listening item holds the value of the last notifying setter call, or its old value when there was none |
| `DrawerSync.NavItemMirrorsStore` | components/src/core/drawer/drawer-nav-item/drawer-nav-item.component.ts:144-150 | when `setDrawerTempOpen` does not notify, a listening nav item that agrees with the store's open flag keeps agreeing with it through any sequence of setter calls |
| `DrawerSync.TempNotifiesSplitsItemFromStore` | components/src/core/drawer/drawer.component.ts:92-116 | when `setDrawerTempOpen` notifies, an open from the host, then a temporary opening and a temporary closing, leave a listening item closed while the store is open |
| `DrawerSync.TempOpenReachesNavItemsOnlyIfNotifying` | components/src/core/drawer/drawer.component.ts:103-116 | a final `setDrawerTempOpen(v)` gives every listening item `drawerOpen == v` when temporary writes notify, and leaves the item as it was when they do not |
| `DrawerSync.ChangesReachNavItems` | components/src/core/drawer/drawer.component.ts:92-99 | after the drawer's `ngOnChanges`, every listening nav item holds the drawer's `open` input, under either notification rule |

## Left out

- The store's own source (`DrawerService`) and the listener base class (`StateListener`) are not part of this model. The store is a record of the fields the drawer writes and reads. Its setters update one field and are logged. Subscriptions are synchronous callbacks.
- Which setter calls `drawerOpenChanges()` delivers is decided in that unseen store. The model assumes every `setDrawerOpen` call is delivered and no call to the other setters except possibly `setDrawerTempOpen`. For `setDrawerTempOpen` it takes the parameter `tempOpenNotifies`. Module `DrawerSync` says which of its results hold for both values and which only when `setDrawerTempOpen` does not notify.
- `listenForDrawerChanges`, called by the drawer's `ngOnInit`, and `isOpen()`, used by the drawer's template, belong to that base class and are not modelled.
- Clock time: the hover delay `openOnHoverDelay` is kept as an input, but no clock is modelled. A timer fires when the event loop fires it.
- Change detection (`detectChanges`), the Angular decorators, the template markup beyond the boolean bindings listed above, and the animation definitions are rendering concerns with no effect on the modelled state.
- The nav item's other inputs (`chevron`, `divider`, `hidePadding`, `itemID`, `ripple`, `selected`, `statusColor`, `subtitle`, `title`) only feed rendering.
- Unsubscribing on teardown is not modelled because the components shown have no teardown code.
- `Drawer.DrawerComponent.constructor`: the required `open` input has no default and is `undefined` until the host binds it. The model takes it as a constructor argument and so does not model an unbound `open`.
- `NavItem.DrawerNavItem.constructor`: `drawerOpen` is `undefined` until `ngOnInit`. The model starts it at `false`, which every binding treats the same way.
- `NavItem.DrawerNavItem.ToggleNestedNavItems`: the event parameter is untyped. The model takes an event object or nothing, so a falsy non-object argument is not modelled.
- The selection toolbar component and the demo and documentation files have no drawer logic.
