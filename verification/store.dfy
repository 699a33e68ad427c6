/**
 * The drawer's shared store (the `DrawerService` that the drawer container and
 * every nav item are given). Only the fields that the drawer container writes
 * and reads are kept. Besides the current value of each field, the store keeps
 * the log of setter calls it has received, in order. Which of these calls the
 * store passes on to its listeners is decided by the store's own source, which
 * is not part of this model; module DrawerSync takes it as a parameter.
 */
module DrawerStore {
  import opened Wrappers

  /** The drawer's structural mode; the drawer container only reads it. */
  datatype Variant = Persistent | Temporary | Rail

  /** The boolean store fields that have a setter the drawer container calls. */
  datatype Field =
    | SideBorder
    | DrawerOpen
    | Condensed
    | DisableRailTooltip
    | DisableActiveItemParentStyles
    | OpenOnHover
    | TempOpen

  /** One setter call: `setDrawerOpen(true)` is `Write(DrawerOpen, true)`. */
  datatype StoreWrite = Write(field: Field, value: bool)

  datatype Store = Store(
    drawerOpen: bool,
    tempOpen: bool,
    sideBorder: bool,
    condensed: bool,
    disableRailTooltip: bool,
    disableActiveItemParentStyles: bool,
    openOnHover: bool,
    variant: Variant,
    writes: seq<StoreWrite>)

  /** The getter of field `f`. */
  function Get(st: Store, f: Field): bool {
    match f
    case SideBorder => st.sideBorder
    case DrawerOpen => st.drawerOpen
    case Condensed => st.condensed
    case DisableRailTooltip => st.disableRailTooltip
    case DisableActiveItemParentStyles => st.disableActiveItemParentStyles
    case OpenOnHover => st.openOnHover
    case TempOpen => st.tempOpen
  }

  /** The record update a setter call makes, before any property of it is known. */
  function Update(st: Store, w: StoreWrite): Store {
    st.(sideBorder := if w.field == SideBorder then w.value else st.sideBorder,
        drawerOpen := if w.field == DrawerOpen then w.value else st.drawerOpen,
        condensed := if w.field == Condensed then w.value else st.condensed,
        disableRailTooltip := if w.field == DisableRailTooltip then w.value else st.disableRailTooltip,
        disableActiveItemParentStyles :=
          if w.field == DisableActiveItemParentStyles then w.value else st.disableActiveItemParentStyles,
        openOnHover := if w.field == OpenOnHover then w.value else st.openOnHover,
        tempOpen := if w.field == TempOpen then w.value else st.tempOpen,
        writes := st.writes + [w])
  }

  /** `Update` sets the written field and keeps every other one. */
  lemma UpdateFrame(st: Store, w: StoreWrite)
    ensures forall f :: Get(Update(st, w), f) == if f == w.field then w.value else Get(st, f)
  {
  }

  function Apply(st: Store, w: StoreWrite): (r: Store)
    ensures Get(r, w.field) == w.value
    ensures forall f :: f != w.field ==> Get(r, f) == Get(st, f)
    ensures r.variant == st.variant
    ensures r.writes == st.writes + [w]
  {
    UpdateFrame(st, w);
    Update(st, w)
  }

  /** The setter calls `ws`, made one after the other. */
  function ApplyAll(st: Store, ws: seq<StoreWrite>): Store
    decreases |ws|
  {
    if ws == [] then st else Apply(ApplyAll(st, ws[..|ws| - 1]), ws[|ws| - 1])
  }

  /** The value of the last write to field `f` in `ws`, if there is one. */
  function LastWrite(ws: seq<StoreWrite>, f: Field): Option<bool>
    decreases |ws|
  {
    if ws == [] then None
    else if ws[|ws| - 1].field == f then Some(ws[|ws| - 1].value)
    else LastWrite(ws[..|ws| - 1], f)
  }

  /** Every field that was ever written holds the value last written to it. */
  ghost predicate Consistent(st: Store) {
    forall f :: LastWrite(st.writes, f).Some? ==> Get(st, f) == LastWrite(st.writes, f).value
  }

  /**
   * After any sequence of setter calls each getter returns the value last set
   * for its field, or the value it had before when the sequence never set it;
   * the log grows by exactly the calls made, and the variant is untouched.
   */
  lemma {:induction false} ApplyAllLastWins(st: Store, ws: seq<StoreWrite>, f: Field)
    ensures ApplyAll(st, ws).writes == st.writes + ws
    ensures ApplyAll(st, ws).variant == st.variant
    ensures Get(ApplyAll(st, ws), f) == LastWrite(ws, f).GetOr(Get(st, f))
    decreases |ws|
  {
    if ws != [] {
      var init := ws[..|ws| - 1];
      ApplyAllLastWins(st, init, f);
      assert st.writes + init + [ws[|ws| - 1]] == st.writes + ws;
    }
  }

  /** A setter call keeps every field equal to the last value written to it. */
  lemma ApplyKeepsConsistent(st: Store, w: StoreWrite)
    requires Consistent(st)
    ensures Consistent(Apply(st, w))
  {
  }

  /** A sequence of setter calls keeps every field equal to its last write. */
  lemma {:induction false} ApplyAllKeepsConsistent(st: Store, ws: seq<StoreWrite>)
    requires Consistent(st)
    ensures Consistent(ApplyAll(st, ws))
    decreases |ws|
  {
    if ws != [] {
      ApplyAllKeepsConsistent(st, ws[..|ws| - 1]);
      ApplyKeepsConsistent(ApplyAll(st, ws[..|ws| - 1]), ws[|ws| - 1]);
    }
  }
}
