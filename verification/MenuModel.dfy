/** Flat menus, and mergers that keep the concatenation of their sub-menus in step with every single edit. */
module MenuModel {
  import opened Sequences

  /** A menu item, by identity, with the upper-cased label that orders it. */
  datatype MenuItem = MenuItem(id: nat, upperLabel: string)

  /** The menus and mergers that take part in one tree of menus. */
  datatype Forest = Forest(gmenus: set<GMenu>, mergers: set<MenuMerger>)

  /**
   * The parts of the tree that an edit of a menu at depth `r` can reach are well linked: every merger owns its
   * output menu, lists distinct menus that lie deeper than its output, and is the observer of those up to depth `r`.
   */
  ghost predicate Linked(f: Forest, r: nat)
    reads f.gmenus`observer, f.mergers`menus
  {
    && (forall m <- f.mergers :: m.gmenu in f.gmenus && Distinct(m.menus))
    && (forall m <- f.mergers, n <- f.mergers :: m.gmenu == n.gmenu ==> m == n)
    && (forall m <- f.mergers, i | 0 <= i < |m.menus| :: m.menus[i] in f.gmenus && m.gmenu.rank < m.menus[i].rank)
    && (forall m <- f.mergers, i | 0 <= i < |m.menus| :: m.menus[i].rank <= r ==> m.menus[i].observer == m)
    && (forall g <- f.gmenus :: g.observer != null ==> g.observer in f.mergers && g in g.observer.menus)
  }

  /** The merger repeats, flattened, the contents it has seen, and indexes where each part starts. */
  ghost predicate Repeats(m: MenuMerger)
    reads m, m.gmenu`items
  {
    && |m.seen| == |m.menus|
    && m.gmenu.items == Flatten(m.seen)
    && forall i :: 0 <= i < |m.menus| ==>
         m.menus[i] in m.startPositions && m.startPositions[m.menus[i]] == Start(m.seen, i)
  }

  /** The merger repeats the current contents of its menus. */
  ghost predicate Synced(m: MenuMerger)
    reads m, m.gmenu`items, m.menus`items
  {
    Repeats(m) && forall i :: 0 <= i < |m.menus| ==> m.menus[i].items == m.seen[i]
  }

  /** Every merger whose output lies above depth `r`, except `x`, is synced. */
  ghost predicate SyncedAbove(f: Forest, r: nat, x: MenuMerger?)
    requires Linked(f, r)
    reads f.gmenus, f.mergers
  {
    forall m <- f.mergers :: m.gmenu.rank < r && m != x ==> Synced(m)
  }

  /** Every menu that a merger lists, except `x`, is observed by that merger. */
  ghost predicate Observed(f: Forest, x: GMenu?)
    reads f.gmenus`observer, f.mergers`menus
  {
    forall m <- f.mergers, i | 0 <= i < |m.menus| ::
      m.menus[i] in f.gmenus && (m.menus[i] != x ==> m.menus[i].observer == m)
  }

  /** The state between two events: every attached menu is observed by its merger, and every merger is synced. */
  ghost predicate Settled(f: Forest)
    reads f.gmenus, f.mergers
  {
    && Linked(f, 0)
    && Observed(f, null)
    && forall m <- f.mergers :: Synced(m)
  }

  /** Menus and mergers that are not attached to anything form a settled forest. */
  lemma UnattachedIsSettled(f: Forest)
    requires forall g <- f.gmenus :: g.observer == null
    requires forall m <- f.mergers :: m.gmenu in f.gmenus && m.menus == [] && Synced(m)
    requires forall m <- f.mergers, n <- f.mergers :: m.gmenu == n.gmenu ==> m == n
    ensures Settled(f)
  {
  }

  /** Nothing at depth `r` or below changed, except the items of `g` and the index of `x`. */
  twostate predicate OnlyAbove(f: Forest, r: nat, g: GMenu, x: MenuMerger?)
    reads f.gmenus`items, f.mergers`startPositions, f.mergers`seen
  {
    && (forall h <- f.gmenus :: h.rank >= r && h != g ==> h.items == old(h.items))
    && (forall m <- f.mergers :: m.gmenu.rank >= r && m != x ==>
          m.startPositions == old(m.startPositions) && m.seen == old(m.seen))
  }

  /** The merger has seen everything but the change of `g` from `before`. */
  ghost predicate BehindBy(m: MenuMerger, g: GMenu, before: seq<MenuItem>)
    reads m, m.gmenu`items, m.menus`items
  {
    && Repeats(m)
    && forall i :: 0 <= i < |m.menus| ==> m.seen[i] == if m.menus[i] == g then before else m.menus[i].items
  }

  // ---------- GMenu ----------

  class GMenu {
    var items: seq<MenuItem>
    var observer: MenuMerger?  // the merger connected to the items-changed signal
    ghost const rank: nat      // depth in the tree of menus

    constructor (ghost rank: nat)
      ensures items == [] && observer == null && this.rank == rank
    {
      items, observer := [], null;
      this.rank := rank;
    }

    /** After a change of the items of this menu alone, only its observer is behind, and only by that change. */
    twostate lemma ObserverBehind(f: Forest)
      requires this in f.gmenus && old(Linked(f, rank)) && Linked(f, rank)
      requires old(SyncedAbove(f, rank, null))
      requires OnlyAbove(f, 0, this, null)
      requires forall h <- f.gmenus :: h.observer == old(h.observer)
      requires forall m <- f.mergers :: m.menus == old(m.menus)
      ensures SyncedAbove(f, rank, observer)
      ensures observer != null ==> BehindBy(observer, this, old(items))
    {
    }

    method InsertItem(pos: nat, item: MenuItem, ghost f: Forest)
      requires pos <= |items|
      requires this in f.gmenus && Linked(f, rank) && SyncedAbove(f, rank, null)
      modifies f.gmenus`items, f.mergers`startPositions, f.mergers`seen
      ensures items == Splice(old(items), pos, 0, [item])
      ensures OnlyAbove(f, rank, this, null) && SyncedAbove(f, rank, null)
      decreases rank, 2
    {
      ghost var before := items;
      items := items[..pos] + [item] + items[pos..];
      assert items[pos..pos + 1] == [item];
      ObserverBehind(f);
      EmitItemsChanged(pos, 0, 1, before, f);
    }

    method RemoveItem(pos: nat, ghost f: Forest)
      requires pos < |items|
      requires this in f.gmenus && Linked(f, rank) && SyncedAbove(f, rank, null)
      modifies f.gmenus`items, f.mergers`startPositions, f.mergers`seen
      ensures items == Splice(old(items), pos, 1, [])
      ensures OnlyAbove(f, rank, this, null) && SyncedAbove(f, rank, null)
      decreases rank, 2
    {
      ghost var before := items;
      items := items[..pos] + items[pos + 1..];
      ObserverBehind(f);
      EmitItemsChanged(pos, 1, 0, before, f);
    }

    method RemoveAllItems(ghost f: Forest)
      requires this in f.gmenus && Linked(f, rank) && SyncedAbove(f, rank, null)
      modifies f.gmenus`items, f.mergers`startPositions, f.mergers`seen
      ensures items == []
      ensures OnlyAbove(f, rank, this, null) && SyncedAbove(f, rank, null)
      decreases rank, 2
    {
      ghost var before := items;
      var n := |items|;
      items := [];
      ObserverBehind(f);
      EmitItemsChanged(0, n, 0, before, f);
    }

    /** The items-changed signal, delivered to the connected merger while the edit is the latest one. */
    method EmitItemsChanged(pos: nat, removed: nat, added: nat, ghost before: seq<MenuItem>, ghost f: Forest)
      requires pos + removed <= |before| && pos + added <= |items|
      requires items == Splice(before, pos, removed, items[pos..pos + added])
      requires this in f.gmenus && Linked(f, rank) && SyncedAbove(f, rank, observer)
      requires observer != null ==> BehindBy(observer, this, before)
      modifies f.gmenus`items, f.mergers`startPositions, f.mergers`seen
      ensures items == old(items)
      ensures OnlyAbove(f, rank, this, null) && SyncedAbove(f, rank, null)
      decreases rank, 1
    {
      if observer != null {
        var m: MenuMerger := observer;
        ghost var k :| 0 <= k < |m.menus| && m.menus[k] == this;
        m.ItemsChangedCallback(this, pos, removed, added, k, before, f);
        SiblingsKept(f);
      }
    }

    /** Mergers above this menu that the observer's own edits did not reach are still synced. */
    twostate lemma SiblingsKept(f: Forest)
      requires this in f.gmenus && old(Linked(f, rank)) && Linked(f, rank)
      requires observer != null && observer.gmenu.rank < rank
      requires old(SyncedAbove(f, rank, observer))
      requires OnlyAbove(f, observer.gmenu.rank, observer.gmenu, observer)
      requires SyncedAbove(f, observer.gmenu.rank, null)
      requires forall m <- f.mergers :: m.menus == old(m.menus)
      ensures SyncedAbove(f, rank, observer)
    {
    }
  }

  // ---------- MenuMerger ----------

  class MenuMerger {
    const gmenu: GMenu
    var menus: seq<GMenu>
    var startPositions: map<GMenu, int>
    ghost var seen: seq<seq<MenuItem>>  // the contents of each menu, as far as this merger was told

    constructor (ghost rank: nat)
      ensures menus == [] && Synced(this)
      ensures fresh(gmenu) && gmenu.items == [] && gmenu.observer == null && gmenu.rank == rank
    {
      gmenu := new GMenu(rank);
      menus, startPositions, seen := [], map[], [];
    }

    /** Repeats an edit of the menu at `k` in the flat list, one item at a time. */
    method ItemsChanged(model: GMenu, position: nat, removed: nat, added: nat, ghost k: nat, ghost f: Forest)
      requires this in f.mergers && gmenu in f.gmenus && model in f.gmenus && gmenu.rank < model.rank
      requires k < |menus| && menus[k] == model && Distinct(menus) && Repeats(this)
      requires position + removed <= |seen[k]| && position + added <= |model.items|
      requires Linked(f, gmenu.rank) && SyncedAbove(f, gmenu.rank, null)
      modifies f.gmenus`items, f.mergers`startPositions, f.mergers`seen
      ensures Repeats(this) && startPositions.Keys == old(startPositions.Keys)
      ensures seen == old(seen)[k := Splice(old(seen)[k], position, removed, old(model.items)[position..position + added])]
      ensures OnlyAbove(f, gmenu.rank, gmenu, this) && SyncedAbove(f, gmenu.rank, null)
      decreases model.rank, 0, 0
    {
      hide Linked, Flatten;
      ghost var ins := model.items[position..position + added];
      FlattenSplice(seen, k, position, removed, ins);
      var offset := startPositions[model] + position;
      RemoveRun(offset, removed, f);
      InsertRun(offset, model, position, added, f);
      ShiftStarts(model, added - removed, k, Splice(seen[k], position, removed, ins));
    }

    /** The loop that removes `removed` items one at a time, always at the same position. */
    method RemoveRun(offset: nat, removed: nat, ghost f: Forest)
      requires this in f.mergers && gmenu in f.gmenus && offset + removed <= |gmenu.items|
      requires Linked(f, gmenu.rank) && SyncedAbove(f, gmenu.rank, null)
      modifies f.gmenus`items, f.mergers`startPositions, f.mergers`seen
      ensures gmenu.items == Splice(old(gmenu.items), offset, removed, [])
      ensures OnlyAbove(f, gmenu.rank, gmenu, null) && SyncedAbove(f, gmenu.rank, null)
      decreases gmenu.rank, 3
    {
      for i := 0 to removed
        invariant gmenu.items == Splice(old(gmenu.items), offset, i, [])
        invariant OnlyAbove(f, gmenu.rank, gmenu, null) && SyncedAbove(f, gmenu.rank, null)
      {
        SpliceGrows(old(gmenu.items), offset, i, [], MenuItem(0, ""));
        gmenu.RemoveItem(offset, f);
      }
    }

    /** The loop that inserts `added` items of `model` back to front, always at the same position. */
    method InsertRun(offset: nat, model: GMenu, position: nat, added: nat, ghost f: Forest)
      requires this in f.mergers && gmenu in f.gmenus && offset <= |gmenu.items|
      requires model in f.gmenus && gmenu.rank < model.rank && position + added <= |model.items|
      requires Linked(f, gmenu.rank) && SyncedAbove(f, gmenu.rank, null)
      modifies f.gmenus`items, f.mergers`startPositions, f.mergers`seen
      ensures gmenu.items == Splice(old(gmenu.items), offset, 0, old(model.items)[position..position + added])
      ensures OnlyAbove(f, gmenu.rank, gmenu, null) && SyncedAbove(f, gmenu.rank, null)
      decreases gmenu.rank, 3
    {
      ghost var source := model.items[position..position + added];
      var i := added - 1;
      while i >= 0
        invariant -1 <= i < added
        invariant OnlyAbove(f, gmenu.rank, gmenu, null) && SyncedAbove(f, gmenu.rank, null)
        invariant gmenu.items == Splice(old(gmenu.items), offset, 0, source[i + 1..])
      {
        SpliceGrows(old(gmenu.items), offset, 0, source[i + 1..], source[i]);
        assert source[i..] == [source[i]] + source[i + 1..];
        gmenu.InsertItem(offset, model.items[position + i], f);
        i := i - 1;
      }
    }

    /** Moves the start positions of the menus behind `model`, which now counts as showing `part`. */
    method ShiftStarts(model: GMenu, delta: int, ghost k: nat, ghost part: seq<MenuItem>)
      requires k < |menus| == |seen| && menus[k] == model && Distinct(menus) && delta == |part| - |seen[k]|
      requires forall i :: 0 <= i < |menus| ==>
                 menus[i] in startPositions && startPositions[menus[i]] == Start(seen, i)
      requires gmenu.items == Flatten(seen[k := part])
      modifies this`startPositions, this`seen
      ensures Repeats(this) && seen == old(seen)[k := part] && startPositions.Keys == old(startPositions.Keys)
    {
      var update := false;
      for i := 0 to |menus|
        invariant update == (k < i) && seen == old(seen) && startPositions.Keys == old(startPositions).Keys
        invariant forall j :: 0 <= j < |menus| ==>
          startPositions[menus[j]] == old(startPositions)[menus[j]] + if k < j < i then delta else 0
      {
        if update {
          startPositions := startPositions[menus[i] := startPositions[menus[i]] + delta];
        } else if menus[i] == model {
          update := true;
        }
      }
      forall j | 0 <= j < |menus| ensures startPositions[menus[j]] == Start(seen[k := part], j) {
        StartReplaced(seen, k, part, j);
      }
      seen := seen[k := part];
    }

    /** The handler of the items-changed signal of the sub-menu at `k`, whose items were `before` until this edit. */
    method ItemsChangedCallback(model: GMenu, position: nat, removed: nat, added: nat,
                                ghost k: nat, ghost before: seq<MenuItem>, ghost f: Forest)
      requires this in f.mergers && k < |menus| && menus[k] == model
      requires Linked(f, model.rank) && SyncedAbove(f, gmenu.rank, null) && BehindBy(this, model, before)
      requires position + removed <= |before| && position + added <= |model.items|
      requires model.items == Splice(before, position, removed, model.items[position..position + added])
      modifies f.gmenus`items, f.mergers`startPositions, f.mergers`seen
      ensures OnlyAbove(f, gmenu.rank, gmenu, this) && SyncedAbove(f, gmenu.rank, null) && Synced(this)
      decreases model.rank, 0, 1
    {
      ItemsChanged(model, position, removed, added, k, f);
    }

    /** All mergers but this one are synced, once the edits of this one's output have settled above it. */
    twostate lemma OthersKept(f: Forest)
      requires this in f.mergers && old(Linked(f, gmenu.rank)) && Linked(f, gmenu.rank)
      requires old(forall m <- f.mergers :: m != this ==> Synced(m))
      requires OnlyAbove(f, gmenu.rank, gmenu, this) && SyncedAbove(f, gmenu.rank, null)
      requires forall m <- f.mergers :: m != this ==> m.menus == old(m.menus)
      ensures forall m <- f.mergers :: m != this ==> Synced(m)
    {
    }

    /** Registers `menu` behind the other menus, with nothing of it shown yet. */
    method Register(menu: GMenu)
      requires Synced(this) && menu !in menus
      modifies this`menus, this`startPositions, this`seen
      ensures menus == old(menus) + [menu] && seen == old(seen) + [[]] && Repeats(this)
    {
      FlattenAppended(seen, []);
      var position := 0;
      if menus != [] {
        var last := menus[|menus| - 1];
        position := startPositions[last] + |last.items|;
        FlattenAround(seen, |menus| - 1);
      }
      menus := menus + [menu];
      startPositions := startPositions[menu := position];
      seen := seen + [[]];
    }

    /** Unregisters the menu at `k`, of which nothing is shown any more. */
    method Unregister(menu: GMenu, ghost k: nat)
      requires k < |menus| && menus[k] == menu && Distinct(menus)
      requires Repeats(this) && seen[k] == []
      modifies this`menus, this`startPositions, this`seen
      ensures menus == Without(old(menus), menu) == old(menus)[..k] + old(menus)[k + 1..]
      ensures seen == old(seen)[..k] + old(seen)[k + 1..] && Repeats(this)
    {
      hide Flatten, Without;
      FlattenDropped(seen, k);
      WithoutDistinct(menus, k);
      ghost var rest := seen[..k] + seen[k + 1..];
      forall j | 0 <= j < |rest| ensures Start(rest, j) == Start(seen, if j < k then j else j + 1) {
        StartDropped(seen, k, j);
      }
      startPositions := startPositions - {menu};
      menus := Without(menus, menu);
      seen := rest;
    }

    /** Registering a menu that lies deeper and is not observed keeps the links. */
    twostate lemma LinkedRegistered(f: Forest)
      requires this in f.mergers && old(Linked(f, gmenu.rank)) && old(Observed(f, null))
      requires menus != [] && menus[..|menus| - 1] == old(menus) && menus[|menus| - 1] !in old(menus)
      requires menus[|menus| - 1] in f.gmenus && gmenu.rank < menus[|menus| - 1].rank
      requires forall m <- f.mergers :: m != this ==> m.menus == old(m.menus)
      requires forall g <- f.gmenus :: g.observer == old(g.observer)
      ensures Linked(f, gmenu.rank) && Observed(f, menus[|menus| - 1])
    {
      assert menus == old(menus) + [menus[|menus| - 1]];
    }

    /** Unregistering the menu that was disconnected keeps the links. */
    twostate lemma LinkedUnregistered(new k: nat, f: Forest)
      requires this in f.mergers && k < |old(menus)| && old(Linked(f, gmenu.rank)) && old(Observed(f, menus[k]))
      requires menus == old(menus)[..k] + old(menus)[k + 1..] && old(menus[k].observer) == null
      requires forall m <- f.mergers :: m != this ==> m.menus == old(m.menus) && old(menus)[k] !in m.menus
      requires forall g <- f.gmenus :: g.observer == old(g.observer)
      ensures Linked(f, gmenu.rank) && Observed(f, null)
    {
    }

    method Connect(menu: GMenu, ghost f: Forest)
      requires this in f.mergers && menus != [] && menus[|menus| - 1] == menu && menu.observer == null
      requires Linked(f, gmenu.rank) && Observed(f, menu) && forall m <- f.mergers :: Synced(m)
      requires forall m <- f.mergers :: menu in m.menus ==> m == this
      modifies menu`observer
      ensures menu.observer == this && Settled(f)
    {
      menu.observer := this;
    }

    method RegisterLinked(menu: GMenu, ghost f: Forest)
      requires this in f.mergers && menu in f.gmenus && gmenu.rank < menu.rank && menu !in menus
      requires Settled(f)
      modifies this`menus, this`startPositions, this`seen
      ensures menus == old(menus) + [menu] && seen == old(seen) + [[]] && Repeats(this)
      ensures Linked(f, gmenu.rank) && Observed(f, menu)
      ensures forall m <- f.mergers :: m != this ==> Synced(m)
    {
      Register(menu);
      assert forall m <- f.mergers :: m != this ==> Synced(m);
      LinkedRegistered(f);
    }

    method UnregisterLinked(menu: GMenu, ghost k: nat, ghost f: Forest)
      requires this in f.mergers && k < |menus| && menus[k] == menu && menu.observer == null
      requires Linked(f, gmenu.rank) && Observed(f, menu) && Repeats(this) && seen[k] == []
      requires forall m <- f.mergers :: m != this ==> Synced(m) && menu !in m.menus
      requires forall i :: 0 <= i < |menus| && i != k ==> menus[i].items == seen[i]
      modifies this`menus, this`startPositions, this`seen
      ensures menus == Without(old(menus), menu) && Settled(f)
    {
      Unregister(menu, k);
      assert Synced(this);
      assert forall m <- f.mergers :: Synced(m);
      LinkedUnregistered(k, f);
      assert Linked(f, 0);
    }

    /** Replaces all that is shown of the menu at `k`, while its signal is not connected. */
    method ShowInstead(menu: GMenu, removed: nat, added: nat, ghost k: nat, ghost f: Forest)
      requires this in f.mergers && k < |menus| && menus[k] == menu && Repeats(this)
      requires removed == |seen[k]| && added <= |menu.items|
      requires Linked(f, gmenu.rank) && Observed(f, menu) && forall m <- f.mergers :: m != this ==> Synced(m)
      modifies f.gmenus`items, f.mergers`startPositions, f.mergers`seen
      ensures Repeats(this) && seen == old(seen)[k := old(menu.items)[..added]]
      ensures OnlyAbove(f, gmenu.rank, gmenu, this) && forall m <- f.mergers :: m != this ==> Synced(m)
    {
      ghost var part := menu.items[..added];
      assert Splice(seen[k], 0, removed, menu.items[0..0 + added]) == part;
      ItemsChanged(menu, 0, removed, added, k, f);
      OthersKept(f);
    }

    method Append(menu: GMenu, ghost f: Forest)
      requires this in f.mergers && menu in f.gmenus && gmenu.rank < menu.rank && Settled(f)
      requires menu !in menus && menu.observer == null
      modifies f.gmenus`items, f.mergers`startPositions, f.mergers`seen, this`menus, menu`observer
      ensures menus == old(menus) + [menu] && menu.observer == this
      ensures Settled(f) && OnlyAbove(f, gmenu.rank, gmenu, this)
    {
      AppendItems(menu, f);
      Connect(menu, f);
    }

    method AppendItems(menu: GMenu, ghost f: Forest)
      requires this in f.mergers && menu in f.gmenus && gmenu.rank < menu.rank && Settled(f)
      requires menu !in menus && menu.observer == null
      modifies f.gmenus`items, f.mergers`startPositions, f.mergers`seen, this`menus
      ensures menus == old(menus) + [menu] && OnlyAbove(f, gmenu.rank, gmenu, this)
      ensures Linked(f, gmenu.rank) && Observed(f, menu) && forall m <- f.mergers :: Synced(m)
    {
      RegisterLinked(menu, f);
      assert menu.items[..|menu.items|] == menu.items;
      ShowInstead(menu, 0, |menu.items|, |menus| - 1, f);
      assert Synced(this);
    }

    method Remove(menu: GMenu, ghost f: Forest)
      requires this in f.mergers && Settled(f) && menu in menus
      modifies f.gmenus`items, f.mergers`startPositions, f.mergers`seen, this`menus, menu`observer
      ensures menus == Without(old(menus), menu) && menu.observer == null
      ensures Settled(f) && OnlyAbove(f, gmenu.rank, gmenu, this)
    {
      hide Settled, Linked, Observed, Flatten;
      ghost var k :| 0 <= k < |menus| && menus[k] == menu;
      Disconnect(menu, f);
      ShowInstead(menu, |menu.items|, 0, k, f);
      assert OnlyAbove(f, gmenu.rank, gmenu, this);
      UnregisterLinked(menu, k, f);
    }

    method Disconnect(menu: GMenu, ghost f: Forest)
      requires this in f.mergers && Settled(f) && menu in menus
      modifies menu`observer
      ensures menu.observer == null && Linked(f, gmenu.rank) && Observed(f, menu)
      ensures forall m <- f.mergers :: Synced(m) && (m != this ==> menu !in m.menus)
    {
      menu.observer := null;
    }

    /** Removes every menu. */
    method Clear(ghost f: Forest)
      requires this in f.mergers && Settled(f)
      modifies f.gmenus`items, f.mergers`startPositions, f.mergers`seen, this`menus, menus`observer
      ensures menus == [] && gmenu.items == []
      ensures Settled(f) && OnlyAbove(f, gmenu.rank, gmenu, this)
    {
      var tmp := menus;
      for i := 0 to |tmp|
        invariant menus == tmp[i..]
        invariant Settled(f) && OnlyAbove(f, gmenu.rank, gmenu, this)
      {
        WithoutDistinct(menus, 0);
        Remove(tmp[i], f);
      }
      assert Synced(this);
    }
  }

  // ---------- depth-first reading of the tree ----------

  /** All items below `g`, leaf by leaf: its own items, unless a merger writes them. */
  ghost function DepthFirst(f: Forest, bound: nat, g: GMenu): seq<MenuItem>
    requires Linked(f, 0) && g in f.gmenus && forall h <- f.gmenus :: h.rank < bound
    reads f.gmenus, f.mergers
    decreases bound - g.rank, 0
  {
    if exists m :: m in f.mergers && m.gmenu == g then
      var m :| m in f.mergers && m.gmenu == g;
      DepthFirstList(f, bound, m.menus, g.rank)
    else
      g.items
  }

  ghost function DepthFirstList(f: Forest, bound: nat, menus: seq<GMenu>, depth: nat): seq<MenuItem>
    requires Linked(f, 0) && forall h <- f.gmenus :: h.rank < bound
    requires depth < bound && forall i | 0 <= i < |menus| :: menus[i] in f.gmenus && depth < menus[i].rank
    reads f.gmenus, f.mergers
    decreases bound - depth, 0, |menus|
  {
    if menus == [] then []
    else DepthFirst(f, bound, menus[0]) + DepthFirstList(f, bound, menus[1..], depth)
  }

  /** Between events the flat list of any menu of the tree is the depth-first concatenation of the leaves below it. */
  lemma {:induction false} ItemsAreDepthFirst(f: Forest, bound: nat, g: GMenu)
    requires Settled(f) && g in f.gmenus && forall h <- f.gmenus :: h.rank < bound
    ensures g.items == DepthFirst(f, bound, g)
    decreases bound - g.rank, 0
  {
    if m: MenuMerger :| m in f.mergers && m.gmenu == g {
      assert Synced(m);
      SeenIsDepthFirst(f, bound, m.menus, m.seen, g.rank);
    }
  }

  lemma {:induction false} SeenIsDepthFirst(f: Forest, bound: nat, menus: seq<GMenu>, seen: seq<seq<MenuItem>>, depth: nat)
    requires Settled(f) && forall h <- f.gmenus :: h.rank < bound
    requires depth < bound && forall i | 0 <= i < |menus| :: menus[i] in f.gmenus && depth < menus[i].rank
    requires |seen| == |menus| && forall i :: 0 <= i < |menus| ==> menus[i].items == seen[i]
    ensures Flatten(seen) == DepthFirstList(f, bound, menus, depth)
    decreases bound - depth, 0, |menus|
  {
    if menus != [] {
      ItemsAreDepthFirst(f, bound, menus[0]);
      SeenIsDepthFirst(f, bound, menus[1..], seen[1..], depth);
    }
  }

  // ---------- Menu ----------

  class Menu {
    const gmenu: GMenu
    var items: seq<MenuItem>

    constructor (ghost rank: nat)
      ensures items == [] && Mirrored()
      ensures fresh(gmenu) && gmenu.observer == null && gmenu.rank == rank
    {
      gmenu := new GMenu(rank);
      items := [];
    }

    /** The GMenu shows the items, position by position. */
    ghost predicate Mirrored()
      reads this, gmenu
    {
      gmenu.items == items
    }

    /** The menu is a leaf of a settled tree. */
    ghost predicate LeafOf(f: Forest)
      reads f.gmenus, f.mergers
    {
      gmenu in f.gmenus && Settled(f) && forall m <- f.mergers :: m.gmenu != gmenu
    }

    /** After edits of this leaf, the tree has settled again, and only it and what is above it changed. */
    twostate predicate Edited(f: Forest)
      reads this, gmenu, f.gmenus, f.mergers
    {
      Mirrored() && LeafOf(f) && OnlyAbove(f, gmenu.rank, gmenu, null)
    }

    twostate lemma Resettled(f: Forest)
      requires old(LeafOf(f)) && OnlyAbove(f, gmenu.rank, gmenu, null)
      requires forall g <- f.gmenus :: g.observer == old(g.observer)
      requires forall m <- f.mergers :: m.menus == old(m.menus)
      requires Linked(f, gmenu.rank) && SyncedAbove(f, gmenu.rank, null)
      ensures LeafOf(f)
    {
    }

    /** One insertion into the GMenu of this leaf. */
    method InsertIntoGMenu(index: nat, item: MenuItem, ghost f: Forest)
      requires LeafOf(f) && index <= |gmenu.items|
      modifies f.gmenus`items, f.mergers`startPositions, f.mergers`seen
      ensures gmenu.items == Splice(old(gmenu.items), index, 0, [item])
      ensures LeafOf(f) && OnlyAbove(f, gmenu.rank, gmenu, null)
    {
      gmenu.InsertItem(index, item, f);
      Resettled(f);
    }

    /** One removal from the GMenu of this leaf. */
    method RemoveFromGMenu(index: nat, ghost f: Forest)
      requires LeafOf(f) && index < |gmenu.items|
      modifies f.gmenus`items, f.mergers`startPositions, f.mergers`seen
      ensures gmenu.items == Splice(old(gmenu.items), index, 1, [])
      ensures LeafOf(f) && OnlyAbove(f, gmenu.rank, gmenu, null)
    {
      gmenu.RemoveItem(index, f);
      Resettled(f);
    }

    method Append(item: MenuItem, ghost f: Forest)
      requires LeafOf(f) && Mirrored()
      modifies this`items, f.gmenus`items, f.mergers`startPositions, f.mergers`seen
      ensures items == old(items) + [item] && Edited(f)
    {
      items := items + [item];
      InsertIntoGMenu(|gmenu.items|, item, f);
    }

    /** Inserts in front of the position, which is an index of the list or its end. */
    method Insert(item: MenuItem, position: nat, ghost f: Forest)
      requires LeafOf(f) && Mirrored() && position <= |items|
      modifies this`items, f.gmenus`items, f.mergers`startPositions, f.mergers`seen
      ensures items == Splice(old(items), position, 0, [item]) && Edited(f)
    {
      var index := 0;
      while index < |items|
        invariant index <= position
      {
        if index == position {
          break;
        }
        index := index + 1;
      }
      InsertIntoGMenu(index, item, f);
      items := items[..position] + [item] + items[position..];
    }

    /** Inserts in front of the first item that `compare` puts behind the new one. */
    method InsertOrdered(item: MenuItem, compare: (MenuItem, MenuItem) -> bool, ghost f: Forest)
      requires LeafOf(f) && Mirrored()
      modifies this`items, f.gmenus`items, f.mergers`startPositions, f.mergers`seen
      ensures items == InsertInOrder(compare, old(items), item) && Edited(f)
    {
      for i := 0 to |items|
        invariant i + InsertionPoint(compare, items[i..], item) == InsertionPoint(compare, items, item)
        invariant items == old(items) && LeafOf(f) && Mirrored() && OnlyAbove(f, 0, gmenu, null)
      {
        if compare(item, items[i]) {
          Insert(item, i, f);
          return;
        }
      }
      Append(item, f);
    }

    /** Removes the item at the position; the end of the list is ignored. */
    method Remove(position: nat, ghost f: Forest)
      requires LeafOf(f) && Mirrored() && position <= |items|
      modifies this`items, f.gmenus`items, f.mergers`startPositions, f.mergers`seen
      ensures items == if position < old(|items|) then Splice(old(items), position, 1, []) else old(items)
      ensures Edited(f)
    {
      var index := 0;
      while index != position && index < |items|
        invariant index <= position
      {
        index := index + 1;
      }
      if index == |items| {
        return;
      }
      RemoveFromGMenu(index, f);
      items := items[..position] + items[position + 1..];
    }

    /** Removes every occurrence of `item`, working backwards so that the positions in both lists agree. */
    method RemoveAll(item: MenuItem, ghost f: Forest)
      requires LeafOf(f) && Mirrored()
      modifies this`items, f.gmenus`items, f.mergers`startPositions, f.mergers`seen
      ensures items == Without(old(items), item) && Edited(f)
    {
      assert Without([], item) == [];
      hide Settled, Without;
      var index := |items| - 1;
      while index >= 0
        invariant -1 <= index < |items| && items == old(items)
        invariant gmenu.items == items[..index + 1] + Without(items[index + 1..], item)
        invariant LeafOf(f) && OnlyAbove(f, gmenu.rank, gmenu, null)
      {
        WithoutBackwards(items, index, item);
        if items[index] == item {
          RemoveFromGMenu(index, f);
        }
        index := index - 1;
      }
      assert items[0..] == items;
      items := Without(items, item);
    }

    method Clear(ghost f: Forest)
      requires LeafOf(f) && Mirrored()
      modifies this`items, f.gmenus`items, f.mergers`startPositions, f.mergers`seen
      ensures items == [] && Edited(f)
    {
      gmenu.RemoveAllItems(f);
      items := [];
      Resettled(f);
    }

    /** The attributes of an item changed: it is shown anew at each of its positions. */
    method ItemChanged(item: MenuItem, changed: MenuItem, ghost f: Forest)
      requires LeafOf(f) && Mirrored()
      modifies this`items, f.gmenus`items, f.mergers`startPositions, f.mergers`seen
      ensures |items| == |old(items)|
      ensures forall i :: 0 <= i < |items| ==> items[i] == if old(items)[i] == item then changed else old(items)[i]
      ensures Edited(f)
    {
      hide Settled;
      for index := 0 to |items|
        invariant items == old(items) && |gmenu.items| == |items|
        invariant forall i :: 0 <= i < |items| ==> gmenu.items[i] == if i < index && items[i] == item then changed else items[i]
        invariant LeafOf(f) && OnlyAbove(f, gmenu.rank, gmenu, null)
      {
        if items[index] == item {
          RemoveFromGMenu(index, f);
          InsertIntoGMenu(index, changed, f);
        }
      }
      var before := items;
      items := seq(|before|, i requires 0 <= i < |before| => if before[i] == item then changed else before[i]);
    }
  }
}
