/**
 * How the store's setter calls reach the nav items through the store's
 * `drawerOpenChanges()` channel.
 *
 * Every `setDrawerOpen` call is delivered to each listening item as an
 * open-change notification carrying the written value. Whether a
 * `setDrawerTempOpen` call is delivered on the same channel is decided inside
 * the store, whose source is not part of this model, so it is a parameter,
 * `tempOpenNotifies`. `EmissionsCarryLastNotified`, `NavItemFollowsNotifications`,
 * `TempOpenReachesNavItemsOnlyIfNotifying` and `ChangesReachNavItems` hold for
 * either answer; `OnlyOpenWritesNotify` and `NavItemMirrorsStore` hold only when
 * `setDrawerTempOpen` does not notify, and `TempNotifiesSplitsItemFromStore`
 * shows how the item and the store part when it does.
 * No other setter notifies the nav items.
 */
module DrawerSync {
  import opened DrawerStore
  import opened Wrappers
  import Drawer
  import NavItem

  /** Whether a setter call on field `f` is delivered on `drawerOpenChanges()`. */
  predicate Notifies(f: Field, tempOpenNotifies: bool) {
    f == DrawerOpen || (tempOpenNotifies && f == TempOpen)
  }

  /** The open-change notifications that the setter calls `ws` deliver, in order. */
  function OpenEmissions(ws: seq<StoreWrite>, tempOpenNotifies: bool): seq<NavItem.NavEvent>
    decreases |ws|
  {
    if ws == [] then []
    else
      var last := ws[|ws| - 1];
      OpenEmissions(ws[..|ws| - 1], tempOpenNotifies) +
        (if Notifies(last.field, tempOpenNotifies) then [NavItem.OpenChanged(last.value)] else [])
  }

  /** The value of the last setter call in `ws` that notifies, if any. */
  function LastNotified(ws: seq<StoreWrite>, tempOpenNotifies: bool): Option<bool>
    decreases |ws|
  {
    if ws == [] then None
    else if Notifies(ws[|ws| - 1].field, tempOpenNotifies) then Some(ws[|ws| - 1].value)
    else LastNotified(ws[..|ws| - 1], tempOpenNotifies)
  }

  /** The last notification carries the value of the last notifying setter call. */
  lemma {:induction false} EmissionsCarryLastNotified(ws: seq<StoreWrite>, tempOpenNotifies: bool, d: bool)
    ensures NavItem.LatestOpen(OpenEmissions(ws, tempOpenNotifies), d) ==
      LastNotified(ws, tempOpenNotifies).GetOr(d)
    decreases |ws|
  {
    if ws != [] {
      var init := ws[..|ws| - 1];
      if !Notifies(ws[|ws| - 1].field, tempOpenNotifies) {
        assert OpenEmissions(ws, tempOpenNotifies) == OpenEmissions(init, tempOpenNotifies);
        EmissionsCarryLastNotified(init, tempOpenNotifies, d);
      }
    }
  }

  /** When only `setDrawerOpen` notifies, the last notified value is the last one it wrote. */
  lemma {:induction false} OnlyOpenWritesNotify(ws: seq<StoreWrite>)
    ensures LastNotified(ws, false) == LastWrite(ws, DrawerOpen)
    decreases |ws|
  {
    if ws != [] {
      OnlyOpenWritesNotify(ws[..|ws| - 1]);
    }
  }

  /**
   * A listening nav item always holds the value of the last notifying setter
   * call, or what it held before when there was none.
   */
  lemma NavItemFollowsNotifications(ws: seq<StoreWrite>, tempOpenNotifies: bool, n: NavItem.NavState)
    requires n.openListening
    ensures NavItem.Run(n, OpenEmissions(ws, tempOpenNotifies)).drawerOpen ==
      LastNotified(ws, tempOpenNotifies).GetOr(n.drawerOpen)
  {
    NavItem.MirrorsLatestOpen(n, OpenEmissions(ws, tempOpenNotifies));
    EmissionsCarryLastNotified(ws, tempOpenNotifies, n.drawerOpen);
  }

  /**
   * When `setDrawerTempOpen` does not notify, a listening nav item that agreed
   * with the store's open flag keeps agreeing with it through any sequence of
   * setter calls.
   */
  lemma NavItemMirrorsStore(st: Store, ws: seq<StoreWrite>, n: NavItem.NavState)
    requires n.openListening && n.drawerOpen == st.drawerOpen
    ensures NavItem.Run(n, OpenEmissions(ws, false)).drawerOpen == ApplyAll(st, ws).drawerOpen
  {
    NavItemFollowsNotifications(ws, false, n);
    OnlyOpenWritesNotify(ws);
    ApplyAllLastWins(st, ws, DrawerOpen);
  }

  /**
   * When `setDrawerTempOpen` notifies, a listening item no longer follows the
   * store's open flag: the host opens the drawer, a hover opens it temporarily
   * and a leave closes that again, and the item is left closed while the
   * store is open.
   */
  lemma TempNotifiesSplitsItemFromStore(st: Store, n: NavItem.NavState)
    requires n.openListening
    ensures var ws := [Write(DrawerOpen, true), Write(TempOpen, true), Write(TempOpen, false)];
      ApplyAll(st, ws).drawerOpen && !NavItem.Run(n, OpenEmissions(ws, true)).drawerOpen
  {
    var ws := [Write(DrawerOpen, true), Write(TempOpen, true), Write(TempOpen, false)];
    NavItemFollowsNotifications(ws, true, n);
    ApplyAllLastWins(st, ws, DrawerOpen);
    assert ws[..2][..1] == [Write(DrawerOpen, true)] && ws[..2] == ws[..|ws| - 1];
  }

  /**
   * A temporary opening or closing reaches a listening nav item exactly when
   * `setDrawerTempOpen` notifies: then the item takes the written value;
   * otherwise the item is as the earlier calls left it.
   */
  lemma TempOpenReachesNavItemsOnlyIfNotifying(ws: seq<StoreWrite>, v: bool, n: NavItem.NavState)
    requires n.openListening
    ensures NavItem.Run(n, OpenEmissions(ws + [Write(TempOpen, v)], true)).drawerOpen == v
    ensures NavItem.Run(n, OpenEmissions(ws + [Write(TempOpen, v)], false)).drawerOpen ==
      NavItem.Run(n, OpenEmissions(ws, false)).drawerOpen
  {
    var ws' := ws + [Write(TempOpen, v)];
    assert ws'[..|ws'| - 1] == ws;
    NavItemFollowsNotifications(ws', true, n);
    NavItemFollowsNotifications(ws', false, n);
    NavItemFollowsNotifications(ws, false, n);
  }

  /**
   * After the drawer's `ngOnChanges`, every listening nav item holds the
   * drawer's `open` input, whether or not `setDrawerTempOpen` notifies.
   */
  lemma ChangesReachNavItems(i: Drawer.Inputs, n: NavItem.NavState, tempOpenNotifies: bool)
    requires n.openListening
    ensures NavItem.Run(n, OpenEmissions(Drawer.ChangeWrites(i), tempOpenNotifies)).drawerOpen == i.open
  {
    var ws := Drawer.ChangeWrites(i);
    assert ws[..|ws| - 1] == ws[..5];
    assert ws[..5][..4] == ws[..4] && ws[..4][..3] == ws[..3] && ws[..3][..2] == ws[..2];
    assert LastNotified(ws, tempOpenNotifies) == LastNotified(ws[..5], tempOpenNotifies);
    assert LastNotified(ws[..5], tempOpenNotifies) == LastNotified(ws[..4], tempOpenNotifies);
    assert LastNotified(ws[..4], tempOpenNotifies) == LastNotified(ws[..3], tempOpenNotifies);
    assert LastNotified(ws[..3], tempOpenNotifies) == LastNotified(ws[..2], tempOpenNotifies);
    assert LastNotified(ws[..2], tempOpenNotifies) == Some(i.open);
    NavItemFollowsNotifications(ws, tempOpenNotifies, n);
  }
}
