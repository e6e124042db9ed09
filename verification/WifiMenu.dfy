/** The menu of one Wi-Fi link: the access point in use in one sub-menu, all others, ordered, in the next. */
module WifiMenu {
  import opened MenuModel
  import opened OptionType
  import opened Sequences

  /** An access point, by identity, with its SSID and the upper-cased SSID that orders it. */
  datatype AccessPoint = AccessPoint(id: nat, ssid: string, upperSsid: string)

  /** The order of the menu items: alphabetical by upper-cased SSID. */
  predicate BySsid(a: MenuItem, b: MenuItem) {
    StringLess(a.upperLabel, b.upperLabel)
  }

  lemma BySsidIsWeakOrder()
    ensures StrictWeakOrder(BySsid)
  {
    forall a: MenuItem ensures !BySsid(a, a) {
      StringLessTrichotomy(a.upperLabel, a.upperLabel);
    }
    forall a: MenuItem, b: MenuItem, c: MenuItem | BySsid(a, b) && BySsid(b, c) ensures BySsid(a, c) {
      StringLessTransitive(a.upperLabel, b.upperLabel, c.upperLabel);
    }
    forall a: MenuItem, b: MenuItem, c: MenuItem | BySsid(a, b) ensures BySsid(a, c) || BySsid(c, b) {
      StringLessTrichotomy(a.upperLabel, c.upperLabel);
      StringLessTrichotomy(c.upperLabel, b.upperLabel);
      if BySsid(c, a) {
        StringLessTransitive(c.upperLabel, a.upperLabel, b.upperLabel);
      }
    }
  }

  /** The menu items of some access points. */
  ghost function ItemsOf(items: map<AccessPoint, MenuItem>, aps: set<AccessPoint>): set<MenuItem>
    requires aps <= items.Keys
  {
    set ap | ap in aps :: items[ap]
  }

  /** Distinct access points have distinct items, each labelled with its SSID. */
  ghost predicate ProperItems(items: map<AccessPoint, MenuItem>, lastId: nat)
  {
    && (forall ap <- items :: items[ap].id <= lastId && items[ap].upperLabel == ap.upperSsid && ap.ssid != "")
    && (forall ap <- items, other <- items :: items[ap].id == items[other].id ==> ap == other)
  }

  /** The list holds the items of exactly these access points, each once, in order. */
  ghost predicate Lists(list: seq<MenuItem>, items: map<AccessPoint, MenuItem>, aps: set<AccessPoint>)
    requires aps <= items.Keys
  {
    Sorted(BySsid, list) && multiset(list) == multiset(ItemsOf(items, aps))
  }

  lemma InsertInOrderBySsid(list: seq<MenuItem>, item: MenuItem)
    requires Sorted(BySsid, list)
    ensures Sorted(BySsid, InsertInOrder(BySsid, list, item))
    ensures multiset(InsertInOrder(BySsid, list, item)) == multiset(list) + multiset{item}
  {
    BySsidIsWeakOrder();
    InsertInOrderSorted(BySsid, list, item);
    InsertInOrderElements(BySsid, list, item);
  }

  lemma ListsInserted(list: seq<MenuItem>, items: map<AccessPoint, MenuItem>, lastId: nat,
                      aps: set<AccessPoint>, ap: AccessPoint)
    requires ProperItems(items, lastId) && aps <= items.Keys && ap in items && ap !in aps
    requires Lists(list, items, aps)
    ensures Lists(InsertInOrder(BySsid, list, items[ap]), items, aps + {ap})
  {
    hide Sorted, InsertInOrder;
    InsertInOrderBySsid(list, items[ap]);
    assert ItemsOf(items, aps + {ap}) == ItemsOf(items, aps) + {items[ap]};
    assert items[ap] !in ItemsOf(items, aps);
  }

  lemma ListsRemoved(list: seq<MenuItem>, items: map<AccessPoint, MenuItem>, lastId: nat,
                     aps: set<AccessPoint>, ap: AccessPoint)
    requires ProperItems(items, lastId) && aps <= items.Keys && ap in items
    requires Lists(list, items, aps)
    ensures Lists(Without(list, items[ap]), items, aps - {ap})
  {
    WithoutSorted(BySsid, list, items[ap]);
    WithoutIsFilter(list, items[ap]);
    assert ItemsOf(items, aps - {ap}) == ItemsOf(items, aps) - {items[ap]};
  }

  // ---------- what the menus must show ----------

  /** Same items, same lists: growing or shrinking the map elsewhere does not matter. */
  lemma ListsSame(list: seq<MenuItem>, items: map<AccessPoint, MenuItem>, other: map<AccessPoint, MenuItem>,
                  aps: set<AccessPoint>)
    requires aps <= items.Keys && Lists(list, items, aps)
    requires forall ap <- aps :: ap in other && other[ap] == items[ap]
    ensures aps <= other.Keys && Lists(list, other, aps)
  {
    assert ItemsOf(other, aps) == ItemsOf(items, aps);
  }

  /** The tracked access points other than the active one. */
  ghost function OthersOf(active: Option<AccessPoint>, items: map<AccessPoint, MenuItem>): (r: set<AccessPoint>)
    ensures r <= items.Keys
  {
    set ap <- items.Keys | active != Some(ap)
  }

  predicate IsTracked(active: Option<AccessPoint>, items: map<AccessPoint, MenuItem>) {
    active.Some? && active.value in items
  }

  /** The two menus and the action states agree with the tracked access points and the active one. */
  ghost predicate Coherent(active: Option<AccessPoint>, items: map<AccessPoint, MenuItem>, states: map<AccessPoint, bool>,
                           connected: seq<MenuItem>, others: seq<MenuItem>)
  {
    && Lists(others, items, OthersOf(active, items))
    && connected == (if IsTracked(active, items) then [items[active.value]] else [])
    && states.Keys == items.Keys && forall ap <- items :: states[ap] == (active == Some(ap))
  }

  /** The menus list the access points `shown`, at most one of them in the connected menu. */
  ghost predicate Shown(items: map<AccessPoint, MenuItem>, connected: seq<MenuItem>, others: seq<MenuItem>,
                        shown: set<AccessPoint>)
  {
    && shown <= items.Keys
    && if connected == [] then Lists(others, items, shown)
       else |connected| == 1 && exists ap <- shown :: connected[0] == items[ap] && Lists(others, items, shown - {ap})
  }

  lemma EmptyIsCoherent()
    ensures Coherent(None, map[], map[], [], []) && ProperItems(map[], 0)
  {
    assert ItemsOf(map[], {}) == {};
  }

  lemma CoherentIsShown(active: Option<AccessPoint>, items: map<AccessPoint, MenuItem>, states: map<AccessPoint, bool>,
                        connected: seq<MenuItem>, others: seq<MenuItem>)
    requires Coherent(active, items, states, connected, others)
    ensures Shown(items, connected, others, items.Keys) && states.Keys == items.Keys
  {
    if IsTracked(active, items) {
      assert OthersOf(active, items) == items.Keys - {active.value};
    } else {
      assert OthersOf(active, items) == items.Keys;
    }
  }

  lemma ReturnedIsShown(items: map<AccessPoint, MenuItem>, lastId: nat, connected: seq<MenuItem>, others: seq<MenuItem>,
                        shown: set<AccessPoint>)
    requires ProperItems(items, lastId) && Shown(items, connected, others, shown) && connected != []
    ensures Shown(items, [], InsertInOrder(BySsid, others, connected[0]), shown)
  {
    var ap :| ap in shown && connected[0] == items[ap] && Lists(others, items, shown - {ap});
    ListsInserted(others, items, lastId, shown - {ap}, ap);
    assert shown - {ap} + {ap} == shown;
  }

  /** Progress of the loop that shows the active access point: all but `rest` have been visited. */
  ghost predicate Showing(active: Option<AccessPoint>, items: map<AccessPoint, MenuItem>, states: map<AccessPoint, bool>,
                          connected: seq<MenuItem>, others: seq<MenuItem>, shown: set<AccessPoint>, rest: set<AccessPoint>)
  {
    && shown <= items.Keys && rest <= items.Keys && states.Keys == items.Keys
    && (forall ap <- items :: ap !in rest ==> states[ap] == (active == Some(ap)))
    && if IsTracked(active, items) && active.value !in rest
       then connected == [items[active.value]] && Lists(others, items, shown - {active.value})
       else connected == [] && Lists(others, items, shown)
  }

  lemma ShowingActive(active: Option<AccessPoint>, items: map<AccessPoint, MenuItem>, lastId: nat,
                      states: map<AccessPoint, bool>, connected: seq<MenuItem>, others: seq<MenuItem>,
                      shown: set<AccessPoint>, rest: set<AccessPoint>, key: AccessPoint)
    requires ProperItems(items, lastId) && key in rest
    requires Showing(active, items, states, connected, others, shown, rest)
    ensures active == Some(key) ==>
              Showing(active, items, states[key := true], [items[key]] + connected, Without(others, items[key]), shown, rest - {key})
    ensures active != Some(key) ==>
              Showing(active, items, states[key := false], connected, others, shown, rest - {key})
  {
    if active == Some(key) {
      ListsRemoved(others, items, lastId, shown, key);
    }
  }

  lemma ShowingIsCoherent(active: Option<AccessPoint>, items: map<AccessPoint, MenuItem>, states: map<AccessPoint, bool>,
                          connected: seq<MenuItem>, others: seq<MenuItem>, shown: set<AccessPoint>)
    requires Showing(active, items, states, connected, others, shown, {})
    requires items.Keys <= shown + (if active.Some? then {active.value} else {})
    ensures Coherent(active, items, states, connected, others)
  {
    if IsTracked(active, items) {
      assert OthersOf(active, items) == shown - {active.value};
    } else {
      assert OthersOf(active, items) == shown;
    }
  }

  /** A new access point with a new item, before any menu lists it. */
  lemma TrackedIsListed(active: Option<AccessPoint>, items: map<AccessPoint, MenuItem>, lastId: nat,
                        others: seq<MenuItem>, ap: AccessPoint, item: MenuItem)
    requires ProperItems(items, lastId) && Lists(others, items, OthersOf(active, items))
    requires ap !in items && ap.ssid != "" && item == MenuItem(lastId + 1, ap.upperSsid)
    ensures ProperItems(items[ap := item], lastId + 1)
    ensures Lists(others, items[ap := item], OthersOf(active, items))
    ensures OthersOf(active, items[ap := item]) == OthersOf(active, items) + if active == Some(ap) then {} else {ap}
  {
    hide Lists;
    ListsSame(others, items, items[ap := item], OthersOf(active, items));
  }

  lemma TrackedIsCoherent(active: Option<AccessPoint>, items: map<AccessPoint, MenuItem>, lastId: nat,
                          states: map<AccessPoint, bool>, connected: seq<MenuItem>, others: seq<MenuItem>,
                          ap: AccessPoint, item: MenuItem)
    requires ProperItems(items, lastId) && Coherent(active, items, states, connected, others)
    requires ap !in items && ap.ssid != "" && item == MenuItem(lastId + 1, ap.upperSsid)
    ensures ProperItems(items[ap := item], lastId + 1)
    ensures active != Some(ap) ==>
              Coherent(active, items[ap := item], states[ap := false], connected, InsertInOrder(BySsid, others, item))
    ensures active == Some(ap) ==> Shown(items[ap := item], connected, others, items.Keys)
  {
    hide Lists, ProperItems;
    var listed := OthersOf(active, items);
    TrackedIsListed(active, items, lastId, others, ap, item);
    if active == Some(ap) {
      assert listed == items.Keys;
    } else {
      ListsInserted(others, items[ap := item], lastId + 1, listed, ap);
    }
  }

  lemma UntrackedIsCoherent(active: Option<AccessPoint>, items: map<AccessPoint, MenuItem>, lastId: nat,
                            states: map<AccessPoint, bool>, connected: seq<MenuItem>, others: seq<MenuItem>, ap: AccessPoint)
    requires ProperItems(items, lastId) && Coherent(active, items, states, connected, others) && ap in items
    ensures ProperItems(items - {ap}, lastId)
    ensures active == Some(ap) ==>
              Coherent(active, items - {ap}, states - {ap}, Without(connected, items[ap]), others)
    ensures active != Some(ap) ==>
              Coherent(active, items - {ap}, states - {ap}, connected, Without(others, items[ap]))
  {
    var listed := OthersOf(active, items);
    assert OthersOf(active, items - {ap}) == listed - {ap};
    if active == Some(ap) {
      ListsSame(others, items, items - {ap}, listed - {ap});
    } else {
      ListsRemoved(others, items, lastId, listed, ap);
      ListsSame(Without(others, items[ap]), items, items - {ap}, listed - {ap});
    }
  }

  class WifiLinkItem {
    var activeAccessPoint: Option<AccessPoint>
    var menuItems: map<AccessPoint, MenuItem>     // the menu item of each tracked access point
    var activeStates: map<AccessPoint, bool>      // the state of its activate action
    var lastId: nat                               // the counter that numbers the items
    const connected: Menu
    const others: Menu
    ghost const forest: Forest

    const topMenu: Menu
    const bottomMenu: Menu
    const apsMerger: MenuMerger
    const rootMerger: MenuMerger

    /** The first half of the construction: empty menus, none of them attached. */
    constructor ()
      ensures Valid() && Unassembled() && activeAccessPoint == None && menuItems == map[]
      ensures fresh(connected) && fresh(others) && fresh(apsMerger) && fresh(rootMerger)
      ensures fresh(forest.gmenus) && fresh(forest.mergers)
    {
      hide Settled, Synced, Linked, Repeats, Coherent, ProperItems, MenusValid;
      activeAccessPoint, menuItems, activeStates, lastId := None, map[], map[], 0;
      var top := new Menu(1);
      var before := new Menu(2);
      var never := new Menu(2);
      var aps := new MenuMerger(1);
      var bottom := new Menu(1);
      var root := new MenuMerger(0);
      assert before.gmenu != aps.gmenu && before.gmenu != root.gmenu && never.gmenu != aps.gmenu && never.gmenu != root.gmenu;
      topMenu, connected, others, apsMerger, bottomMenu, rootMerger := top, before, never, aps, bottom, root;
      forest := Forest({top.gmenu, before.gmenu, never.gmenu, bottom.gmenu, aps.gmenu, root.gmenu}, {aps, root});
      new;
      UnattachedIsSettled(forest);
      EmptyIsCoherent();
      assert forall g <- forest.gmenus :: fresh(g) && g.observer == null;
      TwoLeaves();
    }

    lemma TwoLeaves()
      requires Unassembled() && connected.Mirrored() && others.Mirrored()
      requires connected != others
      requires apsMerger.gmenu !in {connected.gmenu, others.gmenu} && rootMerger.gmenu !in {connected.gmenu, others.gmenu}
      ensures MenusValid()
    {
      hide Settled;
    }

    /** The second half of the construction: the access points, then the active one, then the menus are attached. */
    method Populate(accessPoints: set<AccessPoint>, active: Option<AccessPoint>)
      requires Valid() && Unassembled()
      modifies this, connected, others, apsMerger, rootMerger, forest.gmenus, forest.mergers
      ensures Valid() && Assembled()
      ensures activeAccessPoint == active && menuItems.Keys == set ap <- accessPoints | ap.ssid != ""
    {
      hide Settled, Coherent, ProperItems, Synced, Shown;
      UpdateAccessPoints(accessPoints);
      CoherentIsShown(activeAccessPoint, menuItems, activeStates, connected.items, others.items);
      UpdateActiveAccessPoint(active, menuItems.Keys);
      Assemble();
    }

    /** None of the menus is attached yet. */
    ghost predicate Unassembled()
      reads this, apsMerger, rootMerger, forest.gmenus, forest.mergers
    {
      && Settled(forest) && forest.mergers == {apsMerger, rootMerger} && apsMerger.menus == rootMerger.menus == []
      && {topMenu.gmenu, connected.gmenu, others.gmenu, bottomMenu.gmenu, apsMerger.gmenu} <= forest.gmenus
      && (forall g <- forest.gmenus :: g.observer == null)
      && topMenu.gmenu.rank == bottomMenu.gmenu.rank == apsMerger.gmenu.rank == 1 && rootMerger.gmenu.rank == 0
      && connected.gmenu.rank == others.gmenu.rank == 2 && connected.gmenu != others.gmenu
      && topMenu.gmenu != bottomMenu.gmenu && topMenu.gmenu != apsMerger.gmenu && bottomMenu.gmenu != apsMerger.gmenu
    }

    method Assemble()
      requires Valid() && Unassembled()
      modifies apsMerger, rootMerger, forest.gmenus, forest.mergers
      ensures Valid() && Assembled()
    {
      hide Settled, Coherent, ProperItems, Synced, MenusValid;
      Attach(rootMerger, topMenu.gmenu);
      Attach(apsMerger, connected.gmenu);
      Attach(apsMerger, others.gmenu);
      Attach(rootMerger, apsMerger.gmenu);
      Attach(rootMerger, bottomMenu.gmenu);
    }

    /** Appends a menu to a merger that does not lie deeper than the two sub-menus. */
    method Attach(merger: MenuMerger, menu: GMenu)
      requires MenusValid() && merger in forest.mergers && merger.gmenu.rank <= connected.gmenu.rank && Settled(forest)
      requires menu in forest.gmenus && merger.gmenu.rank < menu.rank && menu !in merger.menus && menu.observer == null
      modifies forest.gmenus`items, forest.mergers`startPositions, forest.mergers`seen, merger`menus, menu`observer
      ensures MenusValid() && Settled(forest) && merger.menus == old(merger.menus) + [menu]
    {
      hide Settled;
      merger.Append(menu, forest);
    }

    /** The sub-menus are attached: top, access points (connected, others) and bottom. */
    ghost predicate Assembled()
      reads this, apsMerger, rootMerger, forest.gmenus, forest.mergers
    {
      && Settled(forest) && {apsMerger, rootMerger} <= forest.mergers
      && apsMerger.menus == [connected.gmenu, others.gmenu]
      && rootMerger.menus == [topMenu.gmenu, apsMerger.gmenu, bottomMenu.gmenu]
    }

    /** The two sub-menus are siblings in a settled tree of menus. */
    ghost predicate MenusValid()
      reads this, connected, others, connected.gmenu, others.gmenu, forest.gmenus, forest.mergers
    {
      && connected.gmenu != others.gmenu && connected != others && connected.gmenu.rank == others.gmenu.rank
      && connected.LeafOf(forest) && connected.Mirrored() && others.LeafOf(forest) && others.Mirrored()
    }

    ghost predicate Valid()
      reads this, connected, others, connected.gmenu, others.gmenu, forest.gmenus, forest.mergers
    {
      && MenusValid() && ProperItems(menuItems, lastId)
      && Coherent(activeAccessPoint, menuItems, activeStates, connected.items, others.items)
    }

    method InsertOther(item: MenuItem)
      requires MenusValid()
      modifies others`items, forest.gmenus`items, forest.mergers`startPositions, forest.mergers`seen
      ensures MenusValid() && others.items == InsertInOrder(BySsid, old(others.items), item)
    {
      others.InsertOrdered(item, BySsid, forest);
    }

    method RemoveOther(item: MenuItem)
      requires MenusValid()
      modifies others`items, forest.gmenus`items, forest.mergers`startPositions, forest.mergers`seen
      ensures MenusValid() && others.items == Without(old(others.items), item)
    {
      others.RemoveAll(item, forest);
    }

    method ClearConnected()
      requires MenusValid()
      modifies connected`items, forest.gmenus`items, forest.mergers`startPositions, forest.mergers`seen
      ensures MenusValid() && connected.items == []
    {
      connected.Clear(forest);
    }

    method RemoveConnected(item: MenuItem)
      requires MenusValid()
      modifies connected`items, forest.gmenus`items, forest.mergers`startPositions, forest.mergers`seen
      ensures MenusValid() && connected.items == Without(old(connected.items), item)
    {
      connected.RemoveAll(item, forest);
    }

    method InsertConnected(item: MenuItem)
      requires MenusValid()
      modifies connected`items, forest.gmenus`items, forest.mergers`startPositions, forest.mergers`seen
      ensures MenusValid() && connected.items == [item] + old(connected.items)
    {
      connected.Insert(item, 0, forest);
    }

    /** Moves the item of the connected menu, if any, to the other menu. */
    method ReturnConnected(ghost shown: set<AccessPoint>)
      requires MenusValid() && ProperItems(menuItems, lastId) && Shown(menuItems, connected.items, others.items, shown)
      modifies connected`items, others`items, forest.gmenus`items, forest.mergers`startPositions, forest.mergers`seen
      ensures MenusValid() && connected.items == [] && Shown(menuItems, [], others.items, shown)
    {
      hide Settled, ProperItems, Lists;
      if connected.items != [] {
        ReturnedIsShown(menuItems, lastId, connected.items, others.items, shown);
        InsertOther(connected.items[0]);
        ClearConnected();
      }
    }

    /** Shows the active access point in the connected menu, and sets the action state of every access point. */
    method ShowActive(ghost shown: set<AccessPoint>)
      requires MenusValid() && ProperItems(menuItems, lastId) && activeStates.Keys == menuItems.Keys
      requires connected.items == [] && Shown(menuItems, [], others.items, shown)
      modifies this`activeStates, connected`items, others`items
      modifies forest.gmenus`items, forest.mergers`startPositions, forest.mergers`seen
      ensures MenusValid()
      ensures Showing(activeAccessPoint, menuItems, activeStates, connected.items, others.items, shown, {})
    {
      hide Settled, ProperItems, Lists;
      var rest := menuItems.Keys;
      while rest != {}
        invariant MenusValid()
        invariant Showing(activeAccessPoint, menuItems, activeStates, connected.items, others.items, shown, rest)
      {
        var key :| key in rest;
        ShowingActive(activeAccessPoint, menuItems, lastId, activeStates, connected.items, others.items, shown, rest, key);
        if activeAccessPoint == Some(key) {
          InsertConnected(menuItems[key]);
          activeStates := activeStates[key := true];
          RemoveOther(menuItems[key]);
        } else {
          activeStates := activeStates[key := false];
        }
        rest := rest - {key};
      }
    }

    method UpdateActiveAccessPoint(ap: Option<AccessPoint>, ghost shown: set<AccessPoint>)
      requires MenusValid() && ProperItems(menuItems, lastId) && activeStates.Keys == menuItems.Keys
      requires Shown(menuItems, connected.items, others.items, shown)
      requires menuItems.Keys <= shown + (if ap.Some? then {ap.value} else {})
      modifies this`activeAccessPoint, this`activeStates, connected`items, others`items
      modifies forest.gmenus`items, forest.mergers`startPositions, forest.mergers`seen
      ensures Valid() && activeAccessPoint == ap
    {
      hide Settled, ProperItems, Lists, Showing, Coherent;
      activeAccessPoint := ap;
      ReturnConnected(shown);
      ShowActive(shown);
      ShowingIsCoherent(ap, menuItems, activeStates, connected.items, others.items, shown);
    }

    /** Stops tracking an access point and takes its item out of the menu it is in. */
    method Untrack(ap: AccessPoint)
      requires Valid() && ap in menuItems
      modifies this`menuItems, this`activeStates, connected`items, others`items
      modifies forest.gmenus`items, forest.mergers`startPositions, forest.mergers`seen
      ensures Valid() && menuItems == old(menuItems) - {ap}
    {
      hide Settled, ProperItems, Lists, Coherent, Without, OthersOf;
      UntrackedIsCoherent(activeAccessPoint, menuItems, lastId, activeStates, connected.items, others.items, ap);
      if activeAccessPoint == Some(ap) {
        RemoveConnected(menuItems[ap]);
      } else {
        RemoveOther(menuItems[ap]);
      }
      menuItems := menuItems - {ap};
      activeStates := activeStates - {ap};
    }

    /** Starts tracking an access point with a new item. */
    method Track(ap: AccessPoint)
      requires Valid() && ap !in menuItems && ap.ssid != ""
      modifies this`menuItems, this`activeStates, this`activeAccessPoint, this`lastId, connected`items, others`items
      modifies forest.gmenus`items, forest.mergers`startPositions, forest.mergers`seen
      ensures Valid() && activeAccessPoint == old(activeAccessPoint)
      ensures ap in menuItems && menuItems - {ap} == old(menuItems)
    {
      hide Settled, ProperItems, Lists, Shown;
      ghost var listed := menuItems.Keys;
      var isActive := activeAccessPoint == Some(ap);
      var item := MenuItem(lastId + 1, ap.upperSsid);
      TrackedIsCoherent(activeAccessPoint, menuItems, lastId, activeStates, connected.items, others.items, ap, item);
      lastId := lastId + 1;
      menuItems := menuItems[ap := item];
      activeStates := activeStates[ap := isActive];
      if isActive {
        UpdateActiveAccessPoint(activeAccessPoint, listed);
      } else {
        InsertOther(item);
      }
    }

    method UntrackAll(removed: set<AccessPoint>)
      requires Valid() && removed <= menuItems.Keys
      modifies this`menuItems, this`activeStates, connected`items, others`items
      modifies forest.gmenus`items, forest.mergers`startPositions, forest.mergers`seen
      ensures Valid() && menuItems == old(menuItems) - removed
    {
      hide MenusValid, Coherent;
      var rest := removed;
      while rest != {}
        invariant Valid() && rest <= removed && menuItems == old(menuItems) - (removed - rest)
      {
        var ap :| ap in rest;
        Untrack(ap);
        rest := rest - {ap};
      }
    }

    method TrackAll(added: set<AccessPoint>)
      requires Valid() && added !! menuItems.Keys
      modifies this`menuItems, this`activeStates, this`activeAccessPoint, this`lastId, connected`items, others`items
      modifies forest.gmenus`items, forest.mergers`startPositions, forest.mergers`seen
      ensures Valid() && activeAccessPoint == old(activeAccessPoint) && menuItems - added == old(menuItems)
      ensures forall ap <- added :: ap in menuItems <==> ap.ssid != ""
    {
      hide MenusValid, Coherent;
      var rest := added;
      while rest != {}
        invariant Valid() && activeAccessPoint == old(activeAccessPoint) && rest <= added && rest !! menuItems.Keys
        invariant menuItems - added == old(menuItems)
        invariant forall ap <- added :: ap !in rest ==> (ap in menuItems <==> ap.ssid != "")
      {
        var ap :| ap in rest;
        rest := rest - {ap};
        if ap.ssid == "" {
          continue;
        }
        Track(ap);
      }
    }

    method UpdateAccessPoints(accessPoints: set<AccessPoint>)
      requires Valid()
      modifies this`menuItems, this`activeStates, this`activeAccessPoint, this`lastId, connected`items, others`items
      modifies forest.gmenus`items, forest.mergers`startPositions, forest.mergers`seen
      ensures Valid() && activeAccessPoint == old(activeAccessPoint)
      ensures menuItems.Keys == set ap <- accessPoints | ap.ssid != ""
      ensures forall ap <- accessPoints :: ap in old(menuItems) ==> menuItems[ap] == old(menuItems)[ap]
    {
      hide MenusValid, Coherent;
      var known := menuItems.Keys;
      var added := accessPoints - known;
      var removed := known - accessPoints;
      UntrackAll(removed);
      TrackAll(added);
    }
  }

  // ---------- the whole menu ----------

  /** The section shows the item of the active access point first, and then all others in order, between top and bottom. */
  lemma RootShowsActiveFirst(link: WifiLinkItem)
    requires link.Valid() && link.Assembled()
    ensures link.rootMerger.gmenu.items
         == link.topMenu.gmenu.items + link.connected.items + link.others.items + link.bottomMenu.gmenu.items
  {
    hide Coherent, ProperItems;
    assert Synced(link.rootMerger) && Synced(link.apsMerger);
    var aps, root := link.apsMerger.seen, link.rootMerger.seen;
    assert aps[1..] == [aps[1]] && root[1..] == [root[1], root[2]] && root[1..][1..] == [root[2]];
    assert Flatten([aps[1]]) == aps[1] && Flatten([root[2]]) == root[2];
    assert Flatten(root[1..]) == root[1] + root[2];
  }

  // ---------- what the menus show, item by item ----------

  /** The items of the other menu stand in ascending order of their labels, character by character. */
  lemma OthersAscend(link: WifiLinkItem, i: nat, j: nat)
    requires link.Valid() && i < j < |link.others.items|
    ensures var a, b := link.others.items[i].upperLabel, link.others.items[j].upperLabel;
      exists k :: 0 <= k <= |a| && k <= |b| && a[..k] == b[..k] && (k == |a| || (k < |b| && a[k] < b[k]))
  {
    NotLessMeans(link.others.items[i].upperLabel, link.others.items[j].upperLabel);
  }

  /** The active access point alone is in the connected menu and has its action on; each other one is once in the next. */
  lemma MenusShowAccessPoints(link: WifiLinkItem)
    requires link.Valid()
    ensures forall ap <- link.menuItems :: link.menuItems[ap].upperLabel == ap.upperSsid && ap.ssid != ""
    ensures forall ap <- link.menuItems, other <- link.menuItems :: link.menuItems[ap] == link.menuItems[other] ==> ap == other
    ensures link.activeStates.Keys == link.menuItems.Keys
    ensures forall ap <- link.menuItems :: link.activeStates[ap] <==> link.activeAccessPoint == Some(ap)
    ensures forall ap <- link.menuItems :: link.activeAccessPoint == Some(ap) ==> link.connected.items == [link.menuItems[ap]]
    ensures (forall ap <- link.menuItems :: link.activeAccessPoint != Some(ap)) ==> link.connected.items == []
    ensures forall ap <- link.menuItems ::
              link.menuItems[ap] in link.others.items <==> link.activeAccessPoint != Some(ap)
    ensures forall item <- link.others.items :: exists ap :: ap in link.menuItems && link.menuItems[ap] == item
    ensures forall i, j :: 0 <= i < j < |link.others.items| ==> link.others.items[i] != link.others.items[j]
  {
    var items, others := link.menuItems, link.others.items;
    var listed := ItemsOf(items, OthersOf(link.activeAccessPoint, items));
    assert forall item :: item in others <==> item in multiset(others);
    assert forall item :: item in others <==> item in listed;
    forall i, j | 0 <= i < j < |others| ensures others[i] != others[j] {
      if others[i] == others[j] {
        CountedTwice(others, i, j);
      }
    }
  }
}
