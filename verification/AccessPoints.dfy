/** Access points grouped by network, each group with a cached strength and time of last connection. */
module AccessPoints {
  import opened OptionType
  import opened Sequences

  /** What a network is known by. */
  datatype Key = Key(ssid: string, secflags: int, mode: int)

  /** What the bus tells about a new access point. */
  datatype Properties = Properties(key: Key, strength: real)

  class AccessPoint {
    const objectPath: string
    const key: Key
    var strength: real
    var lastConnected: int  // ticks of the system clock; 0 for never

    constructor (objectPath: string, properties: Properties)
      ensures this.objectPath == objectPath && key == properties.key && strength == properties.strength
      ensures lastConnected == 0
    {
      this.objectPath, key, strength, lastConnected := objectPath, properties.key, properties.strength, 0;
    }
  }

  // ---------- the cached maximum ----------

  function Max(a: real, b: real): real {
    if a < b then b else a
  }

  /** The greatest strength. */
  ghost function Greatest(s: seq<real>): real
    requires s != []
  {
    if |s| == 1 then s[0] else Max(s[0], Greatest(s[1..]))
  }

  /** The greatest strength or 0, whichever is more: what adding the access points one by one to an empty group caches. */
  ghost function MaxStrength(s: seq<real>): real {
    if s == [] then 0.0 else Max(s[0], MaxStrength(s[1..]))
  }

  ghost predicate NonNegative(s: seq<real>) {
    forall i :: 0 <= i < |s| ==> s[i] >= 0.0
  }

  lemma {:induction false} GreatestIsMaximum(s: seq<real>)
    requires s != []
    ensures forall i :: 0 <= i < |s| ==> s[i] <= Greatest(s)
    ensures Greatest(s) in s
  {
    if |s| > 1 {
      GreatestIsMaximum(s[1..]);
      assert s == [s[0]] + s[1..];
    }
  }

  lemma {:induction false} MaxStrengthIsFloored(s: seq<real>)
    ensures MaxStrength(s) >= 0.0
    ensures s != [] ==> MaxStrength(s) == Max(0.0, Greatest(s))
  {
    if s != [] {
      MaxStrengthIsFloored(s[1..]);
    }
  }

  /** Strengths that are not negative have their maximum, 0 for none, as what is cached. */
  lemma MaxStrengthIsGreatest(s: seq<real>)
    requires NonNegative(s) && s != []
    ensures MaxStrength(s) == Greatest(s)
  {
    MaxStrengthIsFloored(s);
    GreatestIsMaximum(s);
  }

  lemma {:induction false} Appended(s: seq<real>, x: real)
    ensures MaxStrength(s + [x]) == Max(MaxStrength(s), x)
    ensures Greatest(s + [x]) == if s == [] then x else Max(Greatest(s), x)
  {
    if s == [] {
    } else {
      Appended(s[1..], x);
      assert (s + [x])[1..] == s[1..] + [x];
    }
  }

  /** The cached value is at most a hundredth away from the maximum. */
  ghost predicate Near(cached: real, maximum: real) {
    -0.01 <= cached - maximum <= 0.01
  }

  /** The cached value is near the maximum, or near 0 while no strength exceeds 0. */
  ghost predicate NearMaximum(cached: real, s: seq<real>) {
    Near(cached, MaxStrength(s)) || (s != [] && Near(cached, Greatest(s)))
  }

  lemma NearAppended(cached: real, s: seq<real>, x: real)
    requires NearMaximum(cached, s)
    ensures NearMaximum(Max(cached, x), s + [x])
  {
    Appended(s, x);
  }

  predicate IsWhole(x: real) {
    x == x.Floor as real
  }

  /** Every strength is a whole number, as those that the access points report. */
  ghost predicate Whole(s: seq<real>) {
    forall i :: 0 <= i < |s| ==> IsWhole(s[i])
  }

  /** Between whole numbers, near means equal. */
  lemma NearWholeIsEqual(a: real, b: real)
    requires Near(a, b) && IsWhole(a) && IsWhole(b)
    ensures a == b
  {
    var m, n := a.Floor, b.Floor;
    assert a - b == (m - n) as real;
  }

  // ---------- one group ----------

  ghost function Strengths(aps: seq<AccessPoint>): (r: seq<real>)
    reads aps`strength
    ensures |r| == |aps| && forall i :: 0 <= i < |r| ==> r[i] == aps[i].strength
  {
    if aps == [] then [] else [aps[0].strength] + Strengths(aps[1..])
  }

  /** The access points with another path, in order. */
  function OtherPaths(aps: seq<AccessPoint>, path: string): (r: seq<AccessPoint>)
    ensures forall ap <- r :: ap in aps && ap.objectPath != path
    ensures |r| <= |aps| && (|r| == |aps| ==> r == aps)
  {
    if aps == [] then
      []
    else
      var others := OtherPaths(aps[..|aps| - 1], path);
      if aps[|aps| - 1].objectPath != path then others + [aps[|aps| - 1]] else others
  }

  /** Nothing else is left out, and nothing is repeated. */
  lemma {:induction false} OtherPathsKeeps(aps: seq<AccessPoint>, path: string)
    ensures forall ap <- aps :: ap.objectPath != path ==> ap in OtherPaths(aps, path)
    ensures Distinct(aps) ==> Distinct(OtherPaths(aps, path))
  {
    if aps != [] {
      OtherPathsKeeps(aps[..|aps| - 1], path);
    }
  }

  class GroupedAccessPoint {
    var aplist: seq<AccessPoint>
    var strength: real
    var lastTime: int
    ghost var timesSeen: set<int>

    /**
      * One name; the cached strength is near the maximum; the cached time is the latest seen, or the epoch, and
      * covers every member's.
      */
    ghost predicate Valid()
      reads this, aplist
    {
      Consistent() && NearMaximum(strength, Strengths(aplist))
    }

    /** Everything but the cached strength. */
    ghost predicate Consistent()
      reads this, aplist
    {
      && (forall i :: 0 <= i < |aplist| ==> aplist[i].key.ssid == aplist[0].key.ssid)
      && LatestSeen()
      && forall i :: 0 <= i < |aplist| ==> aplist[i].lastConnected in timesSeen
    }

    ghost predicate LatestSeen()
      reads this`lastTime, this`timesSeen
    {
      && lastTime in timesSeen + {0}
      && forall t <- timesSeen + {0} :: t <= lastTime
    }

    /** The cached strength is the maximum or 0, whichever is more. */
    ghost predicate Exact()
      reads this, aplist
    {
      strength == MaxStrength(Strengths(aplist))
    }

    /** The cached strength is the maximum. */
    ghost predicate AtGreatest()
      reads this, aplist
    {
      aplist != [] && strength == Greatest(Strengths(aplist))
    }

    /** The cached strength and all strengths are whole numbers. */
    ghost predicate WholeNumbers()
      reads this, aplist
    {
      IsWhole(strength) && Whole(Strengths(aplist))
    }

    constructor (ap: AccessPoint)
      ensures Valid() && aplist == [ap] && Exact() && timesSeen == {ap.lastConnected}
      ensures strength == (if ap.strength > 0.0 then ap.strength else 0.0)
      ensures IsWhole(ap.strength) ==> WholeNumbers()
    {
      aplist, strength, lastTime, timesSeen := [], 0.0, 0, {};
      new;
      var ok := AddAp(ap);
    }

    /** The cached time becomes the latest of all times seen. */
    method UpdateLastTime(time: int)
      requires LatestSeen()
      modifies this`lastTime, this`timesSeen
      ensures LatestSeen() && timesSeen == old(timesSeen) + {time}
      ensures lastTime >= time && lastTime >= old(lastTime) && lastTime in {time, old(lastTime)}
    {
      if time > lastTime {
        lastTime := time;
      }
      timesSeen := timesSeen + {time};
    }

    /** Adds an access point, unless its name differs from that of the group. */
    method AddAp(ap: AccessPoint) returns (ok: bool)
      requires Valid()
      modifies this
      ensures ok <==> old(aplist) == [] || ap.key.ssid == old(aplist)[0].key.ssid
      ensures !ok ==> unchanged(this)
      ensures ok ==> Valid() && aplist == old(aplist) + [ap] && timesSeen == old(timesSeen) + {ap.lastConnected}
      ensures ok ==> strength == if ap.strength > old(strength) then ap.strength else old(strength)
      ensures ok && old(Exact()) ==> Exact()
      ensures ok && old(WholeNumbers()) && IsWhole(ap.strength) ==> WholeNumbers()
    {
      if aplist != [] {
        if aplist[0].key.ssid != ap.key.ssid {
          return false;
        }
      }
      StrengthsAppended(aplist, ap);
      Appended(Strengths(aplist), ap.strength);
      NearAppended(strength, Strengths(aplist), ap.strength);
      aplist := aplist + [ap];
      if ap.strength > strength {
        strength := ap.strength;
      }
      UpdateLastTime(ap.lastConnected);
      ok := true;
    }

    /** Clears the group and adds some of its members again, which keeps the times seen. */
    method Rebuild(newAps: seq<AccessPoint>)
      requires Valid() && forall i :: 0 <= i < |newAps| ==> newAps[i] in aplist
      modifies this
      ensures Valid() && Exact() && aplist == newAps && timesSeen == old(timesSeen)
      ensures old(WholeNumbers()) ==> WholeNumbers()
    {
      aplist := [];
      strength := 0.0;
      for i := 0 to |newAps|
        invariant aplist == newAps[..i] && Valid() && Exact() && timesSeen == old(timesSeen)
        invariant old(WholeNumbers()) ==> WholeNumbers()
      {
        ghost var j :| 0 <= j < |old(aplist)| && old(aplist)[j] == newAps[i];
        assert old(WholeNumbers()) ==> IsWhole(old(Strengths(aplist))[j]);
        assert newAps[i] in old(aplist) && (i > 0 ==> newAps[0] in old(aplist));
        var ok := AddAp(newAps[i]);
      }
    }

    /**
      * Removes the access points with the path of `ap`. What is cached then is the maximum of the others exactly if
      * that is not negative.
      */
    method RemoveAp(ap: AccessPoint)
      requires Valid()
      modifies this
      ensures Valid() && aplist == OtherPaths(old(aplist), ap.objectPath)
      ensures timesSeen == old(timesSeen)
      ensures aplist == old(aplist) ==> unchanged(this)
      ensures aplist != old(aplist) ==> Exact()
      ensures aplist != old(aplist) && aplist != [] ==> (AtGreatest() <==> Greatest(Strengths(aplist)) >= 0.0)
      ensures old(WholeNumbers()) ==> WholeNumbers()
    {
      var newAps := [];
      for i := 0 to |aplist|
        invariant newAps == OtherPaths(aplist[..i], ap.objectPath)
      {
        assert aplist[..i + 1][..i] == aplist[..i];
        if aplist[i].objectPath != ap.objectPath {
          newAps := newAps + [aplist[i]];
        }
      }
      assert aplist[..|aplist|] == aplist;
      if |newAps| >= |aplist| {
        return;
      }
      Rebuild(newAps);
      MaxStrengthIsFloored(Strengths(aplist));
    }

    /** The strength of some member changed: the cached strength follows if it is off by more than a hundredth. */
    method UpdateStrength()
      requires Consistent() && aplist != []
      modifies this`strength
      ensures Valid()
      ensures var greatest := Greatest(Strengths(aplist));
        strength == if -0.01 <= old(strength) - greatest <= 0.01 then old(strength) else greatest
      ensures IsWhole(old(strength)) && Whole(Strengths(aplist)) ==> WholeNumbers()
    {
      var best := 0;
      for i := 1 to |aplist|
        invariant 0 <= best < |aplist|
        invariant forall j :: 0 <= j < i ==> aplist[j].strength <= aplist[best].strength
      {
        if aplist[best].strength < aplist[i].strength {
          best := i;
        }
      }
      GreatestIsMaximum(Strengths(aplist));
      var newStrength := aplist[best].strength;
      if newStrength - strength > 0.01 || strength - newStrength > 0.01 {
        strength := newStrength;
      }
    }

    /** A member reports its strength. */
    method StrengthUpdated(ap: AccessPoint, s: real)
      requires Valid() && ap in aplist
      modifies this`strength, ap`strength
      ensures Valid() && ap.strength == s
      ensures old(WholeNumbers()) && IsWhole(s) ==> WholeNumbers()
    {
      ap.strength := s;
      assert old(WholeNumbers()) && IsWhole(s) ==> Whole(Strengths(aplist)) by {
        assert forall i :: 0 <= i < |aplist| ==> Strengths(aplist)[i] == s || Strengths(aplist)[i] == old(Strengths(aplist))[i];
      }
      UpdateStrength();
    }

    /** A member reports when it was last connected. */
    method LastConnectedUpdated(ap: AccessPoint, time: int)
      requires Valid() && ap in aplist
      modifies this`lastTime, this`timesSeen, ap`lastConnected
      ensures Valid() && ap.lastConnected == time && timesSeen == old(timesSeen) + {time}
      ensures lastTime >= time && lastTime >= old(lastTime)
    {
      ap.lastConnected := time;
      UpdateLastTime(time);
    }

    /** The cached strength is that of some member with the greatest one, or 0 if none exceeds that, up to a hundredth. */
    lemma CachedMeans()
      requires Valid() && aplist != []
      ensures (exists best :: 0 <= best < |aplist| && -0.01 <= strength - aplist[best].strength <= 0.01
                  && forall j :: 0 <= j < |aplist| ==> aplist[j].strength <= aplist[best].strength)
              || (-0.01 <= strength <= 0.01 && forall j :: 0 <= j < |aplist| ==> aplist[j].strength <= 0.0)
      ensures forall j :: 0 <= j < |aplist| ==> aplist[j].lastConnected <= lastTime && aplist[j].key.ssid == aplist[0].key.ssid
      ensures 0 <= lastTime
    {
      var s := Strengths(aplist);
      GreatestIsMaximum(s);
      MaxStrengthIsFloored(s);
      var best :| 0 <= best < |s| && s[best] == Greatest(s);
      assert forall j :: 0 <= j < |aplist| ==> s[j] == aplist[j].strength;
    }

    /** The exact cached strength is that of some member, or 0, and no member has more. */
    lemma ExactMeans()
      requires Exact()
      ensures strength >= 0.0 && forall j :: 0 <= j < |aplist| ==> aplist[j].strength <= strength
      ensures strength == 0.0 || exists best :: 0 <= best < |aplist| && aplist[best].strength == strength
    {
      var s := Strengths(aplist);
      MaxStrengthIsFloored(s);
      if aplist != [] {
        GreatestIsMaximum(s);
        var best :| 0 <= best < |s| && s[best] == Greatest(s);
        assert s[best] == aplist[best].strength;
        assert forall j :: 0 <= j < |aplist| ==> s[j] == aplist[j].strength;
      }
    }

    /** With whole-numbered strengths the cache lags behind only while no strength exceeds 0. */
    lemma WholeIsExact()
      requires Valid() && WholeNumbers()
      ensures Exact() || AtGreatest()
      ensures NonNegative(Strengths(aplist)) ==> Exact() && (aplist != [] ==> AtGreatest())
    {
      var s := Strengths(aplist);
      MaxStrengthIsFloored(s);
      if s != [] {
        GreatestIsMaximum(s);
        assert IsWhole(Greatest(s)) && IsWhole(MaxStrength(s));
        if Near(strength, Greatest(s)) {
          NearWholeIsEqual(strength, Greatest(s));
        }
      }
      if Near(strength, MaxStrength(s)) {
        NearWholeIsEqual(strength, MaxStrength(s));
      }
    }
  }

  lemma FirstOfTwo(a: AccessPoint, b: AccessPoint)
    requires a.objectPath != b.objectPath
    ensures OtherPaths([a, b], b.objectPath) == [a] && Strengths([a]) == [a.strength]
    ensures MaxStrength([a.strength]) == Max(0.0, a.strength) && Greatest([a.strength]) == a.strength
  {
    assert [a, b][..1] == [a] && [a][..0] == [];
  }

  /**
    * The stronger of two members leaves after the weaker one has reported `s`: what is cached is `s` or 0, whichever
    * is more. A byte of 200 is reported as -56, and is not what is cached then.
    */
  method StrongerLeaves(s: real) returns (group: GroupedAccessPoint)
    ensures group.Valid() && Strengths(group.aplist) == [s] && group.strength == if s < 0.0 then 0.0 else s
    ensures group.AtGreatest() <==> s >= 0.0
  {
    hide GroupedAccessPoint.Valid, OtherPaths, Strengths, MaxStrength, Greatest;
    var key := Key("network", 0, 2);
    var weak := new AccessPoint("/weak", Properties(key, 10.0));
    var strong := new AccessPoint("/strong", Properties(key, 20.0));
    group := new GroupedAccessPoint(weak);
    var ok := group.AddAp(strong);
    assert group.aplist == [weak, strong];
    group.StrengthUpdated(weak, s);
    FirstOfTwo(weak, strong);
    group.RemoveAp(strong);
    assert group.aplist == [weak];
    FirstOfTwo(weak, strong);
  }

  lemma {:induction false} StrengthsAppended(aps: seq<AccessPoint>, ap: AccessPoint)
    ensures Strengths(aps + [ap]) == Strengths(aps) + [ap.strength]
  {
  }

  // ---------- the split of access points into groups ----------

  /** The groups hold all access points, each under its key; none is empty and none repeats an access point. */
  ghost predicate Splits(raw: set<AccessPoint>, groups: map<Key, seq<AccessPoint>>) {
    && (forall k <- groups :: groups[k] != [] && Distinct(groups[k]))
    && (forall k <- groups :: forall ap <- groups[k] :: ap in raw && ap.key == k)
    && forall ap <- raw :: ap.key in groups && ap in groups[ap.key]
  }

  ghost predicate UniquePaths(raw: set<AccessPoint>) {
    forall a <- raw, b <- raw :: a.objectPath == b.objectPath ==> a == b
  }

  ghost function GroupOf(groups: map<Key, seq<AccessPoint>>, k: Key): seq<AccessPoint> {
    if k in groups then groups[k] else []
  }

  /** The groups with one more access point. */
  ghost function Joined(groups: map<Key, seq<AccessPoint>>, ap: AccessPoint): map<Key, seq<AccessPoint>> {
    groups[ap.key := GroupOf(groups, ap.key) + [ap]]
  }

  /** The groups without the access points at the path of `ap`. */
  ghost function Left(groups: map<Key, seq<AccessPoint>>, ap: AccessPoint): map<Key, seq<AccessPoint>> {
    var rest := OtherPaths(GroupOf(groups, ap.key), ap.objectPath);
    if rest == [] then groups - {ap.key} else groups[ap.key := rest]
  }

  /** The strengths with one more strength under a key, where 0 counts for a key that is not there yet. */
  ghost function Raised(strengths: map<Key, real>, k: Key, s: real): map<Key, real> {
    strengths[k := Max(s, if k in strengths then strengths[k] else 0.0)]
  }

  lemma JoinedSplits(raw: set<AccessPoint>, groups: map<Key, seq<AccessPoint>>, ap: AccessPoint)
    requires Splits(raw, groups) && ap !in raw
    ensures Splits(raw + {ap}, Joined(groups, ap))
  {
  }

  lemma LeftSplits(raw: set<AccessPoint>, groups: map<Key, seq<AccessPoint>>, ap: AccessPoint)
    requires Splits(raw, groups) && UniquePaths(raw) && ap in raw
    ensures Splits(raw - {ap}, Left(groups, ap))
  {
    OtherPathsKeeps(groups[ap.key], ap.objectPath);
  }

  /** The sum of the group sizes, over a list of keys. */
  ghost function TotalSize(keys: seq<Key>, groups: map<Key, seq<AccessPoint>>): nat
    requires forall k <- keys :: k in groups
  {
    if keys == [] then 0 else |groups[keys[0]]| + TotalSize(keys[1..], groups)
  }

  /** The sizes of the groups add up to the number of access points. */
  lemma {:induction false} SizesAddUp(keys: seq<Key>, groups: map<Key, seq<AccessPoint>>, raw: set<AccessPoint>)
    requires Splits(raw, groups) && Distinct(keys)
    requires forall k :: k in keys <==> k in groups
    ensures TotalSize(keys, groups) == |raw|
  {
    if keys == [] {
      assert raw == {};
    } else {
      var k := keys[0];
      var members := set ap | ap in groups[k];
      DistinctMembers(groups[k]);
      var rest := groups - {k};
      assert Splits(raw - members, rest);
      SizesAddUp(keys[1..], rest, raw - members);
      SameSizes(keys[1..], groups, rest);
    }
  }

  lemma {:induction false} SameSizes(keys: seq<Key>, a: map<Key, seq<AccessPoint>>, b: map<Key, seq<AccessPoint>>)
    requires forall k <- keys :: k in a && k in b && a[k] == b[k]
    ensures TotalSize(keys, a) == TotalSize(keys, b)
  {
    if keys != [] {
      SameSizes(keys[1..], a, b);
    }
  }

  /** A list without repetitions has as many members as positions. */
  lemma {:induction false} DistinctMembers<T>(s: seq<T>)
    requires Distinct(s)
    ensures |set x | x in s| == |s|
  {
    if s != [] {
      DistinctMembers(s[1..]);
      assert (set x | x in s) == {s[0]} + set x | x in s[1..];
    }
  }

  // ---------- the link ----------

  class WifiLink {
    var raw: set<AccessPoint>
    var grouper: map<Key, GroupedAccessPoint>
    var published: set<GroupedAccessPoint>
    var disconnectWifi: bool
    var announced: set<GroupedAccessPoint>  // the last value of the accessPointsUpdated signal
    ghost var groups: set<GroupedAccessPoint>  // all groups there have been

    ghost predicate Owned()
      reads this`grouper, this`groups
    {
      forall k <- grouper :: grouper[k] in groups
    }

    /** The members of each group. */
    ghost function Groups(): map<Key, seq<AccessPoint>>
      requires Owned()
      reads this`grouper, this`groups, groups`aplist
    {
      map k | k in grouper :: grouper[k].aplist
    }

    /** The cached strength of each group. */
    ghost function CachedStrengths(): map<Key, real>
      reads this`grouper, grouper.Values`strength
    {
      map k | k in grouper :: grouper[k].strength
    }

    /** Each key has a group of its own. */
    ghost predicate Separate()
      reads this`grouper
    {
      forall k <- grouper, l <- grouper :: k != l ==> grouper[k] != grouper[l]
    }

    /** Each group has its members among `aps` and keeps its cached values. */
    ghost predicate AllCached(aps: set<AccessPoint>)
      reads this`grouper, this`groups, groups, aps
    {
      && Owned()
      && (forall k <- grouper :: forall i :: 0 <= i < |grouper[k].aplist| ==> grouper[k].aplist[i] in aps)
      && forall k <- grouper :: grouper[k].Valid()
    }

    /** The groups split the access points by key, and each group keeps its cached values. */
    ghost predicate Grouped()
      reads this`raw, this`grouper, this`groups, groups, raw
    {
      Owned() && UniquePaths(raw) && Splits(raw, Groups()) && Separate() && AllCached(raw)
    }

    /** All strengths are whole numbers, reported or cached. */
    ghost predicate AllWhole(aps: set<AccessPoint>)
      requires AllCached(aps)
      reads this`grouper, this`groups, groups, aps
    {
      forall k <- grouper :: grouper[k].WholeNumbers()
    }

    /** What is published is what the map holds, and what is announced is that, or nothing while disconnecting. */
    ghost predicate Published()
      reads this
    {
      && published == (set k | k in grouper :: grouper[k])
      && announced == if disconnectWifi then {} else published
    }

    ghost predicate Valid()
      reads this, groups, raw
    {
      Grouped() && Published()
    }

    constructor ()
      ensures Valid() && raw == {} && groups == {} && !disconnectWifi
    {
      raw, grouper, published, disconnectWifi, announced, groups := {}, map[], {}, false, {}, {};
    }

    method UpdateGroupedAccessPoints()
      modifies this`published, this`announced
      ensures Published()
    {
      published := {};
      var keys := grouper.Keys;
      while keys != {}
        invariant keys <= grouper.Keys
        invariant published == set k | k in grouper && k !in keys :: grouper[k]
      {
        var k :| k in keys;
        published := published + {grouper[k]};
        keys := keys - {k};
      }
      announced := if disconnectWifi then {} else published;
    }

    method SetDisconnectWifi(disconnect: bool)
      requires Valid()
      modifies this`disconnectWifi, this`published, this`announced
      ensures Valid() && disconnectWifi == disconnect
    {
      hide Grouped, Published;
      if disconnect == disconnectWifi {
        return;
      }
      disconnectWifi := disconnect;
      UpdateGroupedAccessPoints();
    }

    /** The group of its key takes a new access point; it never refuses it. */
    method AddToGroup(shap: AccessPoint, ghost aps: set<AccessPoint>)
      requires Separate() && AllCached(aps) && shap in aps && shap.key in grouper
      requires grouper[shap.key].aplist != [] && grouper[shap.key].aplist[0].key == shap.key
      modifies groups
      ensures Separate() && AllCached(aps)
      ensures var group := grouper[shap.key];
        group.aplist == old(group.aplist) + [shap] && group.strength == Max(shap.strength, old(group.strength))
      ensures forall k <- grouper :: k != shap.key ==>
                grouper[k].aplist == old(grouper[k].aplist) && grouper[k].strength == old(grouper[k].strength)
      ensures old(AllWhole(aps)) && IsWhole(shap.strength) ==> AllWhole(aps)
    {
      hide GroupedAccessPoint.Valid, GroupedAccessPoint.Exact, GroupedAccessPoint.WholeNumbers;
      var group := grouper[shap.key];
      var ok := group.AddAp(shap);
      assert ok;
      assert forall l <- grouper :: l != shap.key ==> grouper[l] != group;
    }

    /** Puts a new access point into the group of its key. */
    method Join(shap: AccessPoint, ghost aps: set<AccessPoint>)
      requires Separate() && AllCached(aps) && shap in aps && shap.key in grouper
      requires grouper[shap.key].aplist != [] && grouper[shap.key].aplist[0].key == shap.key
      modifies groups
      ensures Separate() && AllCached(aps) && Groups() == Joined(old(Groups()), shap)
      ensures CachedStrengths() == Raised(old(CachedStrengths()), shap.key, shap.strength)
      ensures old(AllWhole(aps)) && IsWhole(shap.strength) ==> AllWhole(aps)
    {
      hide GroupedAccessPoint.Valid, AllWhole, Separate, Max;
      AddToGroup(shap, aps);
      assert Groups()[shap.key] == old(Groups())[shap.key] + [shap];
    }

    /** Makes a group for an access point with a new key. */
    method Found(shap: AccessPoint, ghost aps: set<AccessPoint>)
      requires Separate() && AllCached(aps) && shap in aps && shap.key !in grouper
      modifies this`grouper, this`groups
      ensures Separate() && AllCached(aps) && fresh(groups - old(groups)) && Groups() == Joined(old(Groups()), shap)
      ensures CachedStrengths() == Raised(old(CachedStrengths()), shap.key, shap.strength)
      ensures old(AllWhole(aps)) && IsWhole(shap.strength) ==> AllWhole(aps)
    {
      hide GroupedAccessPoint.Valid, GroupedAccessPoint.Exact, GroupedAccessPoint.WholeNumbers, Groups, Joined;
      hide CachedStrengths, Raised, Separate, AllWhole;
      var group := new GroupedAccessPoint(shap);
      assert group !in groups;
      Enter(group, shap, aps);
    }

    /** Enters a new group that holds one access point, and whose cached strength starts from 0. */
    method Enter(group: GroupedAccessPoint, shap: AccessPoint, ghost aps: set<AccessPoint>)
      requires Separate() && AllCached(aps) && shap in aps && shap.key !in grouper
      requires group !in groups && group.aplist == [shap] && group.Valid()
      requires group.strength == if shap.strength > 0.0 then shap.strength else 0.0
      modifies this`grouper, this`groups
      ensures Separate() && AllCached(aps) && groups == old(groups) + {group} && Groups() == Joined(old(Groups()), shap)
      ensures CachedStrengths() == Raised(old(CachedStrengths()), shap.key, shap.strength)
      ensures old(AllWhole(aps)) && group.WholeNumbers() ==> AllWhole(aps)
    {
      hide GroupedAccessPoint.Valid, AllWhole, Separate;
      EnterGroup(group, shap.key, aps);
      assert [] + [shap] == [shap];
    }

    method EnterGroup(group: GroupedAccessPoint, k: Key, ghost aps: set<AccessPoint>)
      requires Separate() && AllCached(aps) && k !in grouper
      requires group !in groups && group.Valid() && forall i :: 0 <= i < |group.aplist| ==> group.aplist[i] in aps
      modifies this`grouper, this`groups
      ensures Separate() && AllCached(aps) && groups == old(groups) + {group} && grouper == old(grouper)[k := group]
      ensures old(AllWhole(aps)) && group.WholeNumbers() ==> AllWhole(aps)
    {
      hide GroupedAccessPoint.Valid, GroupedAccessPoint.Exact, GroupedAccessPoint.WholeNumbers;
      grouper := grouper[k := group];
      groups := groups + {group};
    }

    /** The group under a key has members, all with that key. */
    lemma KeyOfGroup(k: Key)
      requires Owned() && Splits(raw, Groups()) && k in grouper
      ensures grouper[k].aplist != [] && forall i :: 0 <= i < |grouper[k].aplist| ==> grouper[k].aplist[i].key == k
    {
      assert Groups()[k] == grouper[k].aplist;
    }

    lemma NewPath(shap: AccessPoint)
      requires Grouped() && forall ap <- raw :: ap.objectPath != shap.objectPath
      ensures UniquePaths(raw + {shap})
    {
      hide Splits, Separate, AllCached, Groups, Owned;
    }

    /** Tracks a new access point and puts it into the group of its key. */
    method Track(shap: AccessPoint)
      requires Grouped() && UniquePaths(raw + {shap}) && shap !in raw
      modifies this`raw, this`grouper, this`groups, groups
      ensures Grouped() && fresh(groups - old(groups)) && raw == old(raw) + {shap} && Groups() == Joined(old(Groups()), shap)
      ensures CachedStrengths() == Raised(old(CachedStrengths()), shap.key, shap.strength)
      ensures old(AllWhole(raw)) && IsWhole(shap.strength) ==> AllWhole(raw)
    {
      hide GroupedAccessPoint.Valid, Groups, Joined, Separate, Splits, UniquePaths, CachedStrengths, Raised;
      JoinedSplits(raw, Groups(), shap);
      if shap.key in grouper {
        KeyOfGroup(shap.key);
      }
      raw := raw + {shap};
      if shap.key in grouper {
        Join(shap, raw);
      } else {
        Found(shap, raw);
      }
    }

    /** An access point of a known or a new network joins its group; one already known or not answering is ignored. */
    method ApAdded(path: string, reply: Option<Properties>)
      requires Valid()
      modifies this, groups
      ensures Valid() && disconnectWifi == old(disconnectWifi) && fresh(groups - old(groups))
      ensures (exists ap <- old(raw) :: ap.objectPath == path) || reply.None? ==>
                unchanged(this) && unchanged(old(groups))
      ensures !((exists ap <- old(raw) :: ap.objectPath == path) || reply.None?) ==>
                exists ap <- raw :: ap.objectPath == path && ap.key == reply.value.key && raw == old(raw) + {ap}
                                    && ap.strength == reply.value.strength && ap.lastConnected == 0
                                    && Groups() == Joined(old(Groups()), ap)
      ensures !((exists ap <- old(raw) :: ap.objectPath == path) || reply.None?) ==>
                CachedStrengths() == Raised(old(CachedStrengths()), reply.value.key, reply.value.strength)
      ensures old(AllWhole(raw)) && (reply.Some? ==> IsWhole(reply.value.strength)) ==> AllWhole(raw)
    {
      hide Grouped, Joined, Published, UniquePaths, CachedStrengths, Raised;
      if exists ap <- raw :: ap.objectPath == path {
        return;
      }
      if reply.None? {
        return;
      }
      var shap := new AccessPoint(path, reply.value);
      NewPath(shap);
      Track(shap);
      assert shap in raw && shap.objectPath == path;
      UpdateGroupedAccessPoints();
    }

    /** Takes an access point out of its group, which may then be empty. */
    method Shrink(shap: AccessPoint, ghost aps: set<AccessPoint>)
      requires Separate() && AllCached(aps) && shap.key in grouper
      modifies groups
      ensures Separate() && AllCached(aps) && (old(AllWhole(aps)) ==> AllWhole(aps))
      ensures Groups() == old(Groups())[shap.key := OtherPaths(old(Groups())[shap.key], shap.objectPath)]
    {
      hide GroupedAccessPoint.Valid, GroupedAccessPoint.Exact, GroupedAccessPoint.WholeNumbers, OtherPaths, Distinct;
      var group := grouper[shap.key];
      group.RemoveAp(shap);
      assert forall l <- grouper :: l != shap.key ==> grouper[l] != group;
      assert forall ap <- group.aplist :: ap in aps;
    }

    /** Takes an access point out of its group; an emptied group leaves the map. */
    method Leave(shap: AccessPoint, ghost aps: set<AccessPoint>)
      requires Separate() && AllCached(aps) && shap.key in grouper
      modifies this`grouper, groups
      ensures Separate() && AllCached(aps) && (old(AllWhole(aps)) ==> AllWhole(aps))
      ensures Groups() == Left(old(Groups()), shap)
    {
      hide GroupedAccessPoint.Valid, GroupedAccessPoint.Exact, GroupedAccessPoint.WholeNumbers, OtherPaths, Distinct;
      var k := shap.key;
      if k in grouper {
        ghost var before := Groups();
        Shrink(shap, aps);
        ghost var shrunk := Groups();
        assert shrunk[k] == grouper[k].aplist;
        if grouper[k].aplist == [] {
          grouper := grouper - {k};
          assert Groups() == shrunk - {k} == before - {k};
        }
      }
    }

    /** The members of the groups are tracked. */
    lemma OnlyTracked(aps: set<AccessPoint>)
      requires AllCached(aps) && Splits(raw, Groups())
      ensures Owned() && AllCached(raw)
    {
      hide GroupedAccessPoint.Valid;
      forall k <- grouper, i | 0 <= i < |grouper[k].aplist| ensures grouper[k].aplist[i] in raw {
        assert grouper[k].aplist[i] in Groups()[k];
      }
    }

    lemma FewerPaths(shap: AccessPoint)
      requires Owned() && UniquePaths(raw) && Splits(raw, Groups()) && shap in raw
      ensures UniquePaths(raw - {shap}) && shap.key in grouper
      ensures raw - {shap} == set ap | ap in raw && ap.objectPath != shap.objectPath
    {
    }

    /** Forgets an access point and takes it out of its group. */
    method Untrack(shap: AccessPoint)
      requires Grouped() && shap in raw
      modifies this`raw, this`grouper, this`groups, groups
      ensures Grouped() && groups == old(groups) && raw == old(raw) - {shap} && Groups() == Left(old(Groups()), shap)
      ensures old(AllWhole(raw)) ==> AllWhole(raw)
    {
      hide AllCached, Groups, Left, Separate, Splits, UniquePaths;
      LeftSplits(raw, Groups(), shap);
      FewerPaths(shap);
      raw := raw - {shap};
      Leave(shap, old(raw));
      OnlyTracked(old(raw));
    }

    /** The access point at a path leaves its group; an unknown path is ignored. */
    method ApRemoved(path: string)
      requires Valid()
      modifies this, groups
      ensures Valid() && disconnectWifi == old(disconnectWifi) && fresh(groups - old(groups))
      ensures raw == set ap | ap in old(raw) && ap.objectPath != path
      ensures raw == old(raw) ==> unchanged(this) && unchanged(old(groups))
      ensures forall ap <- old(raw) - raw :: Groups() == Left(old(Groups()), ap)
      ensures old(AllWhole(raw)) ==> AllWhole(raw)
    {
      hide Left, Published, Splits, Separate, AllCached, UniquePaths;
      if !exists ap <- raw :: ap.objectPath == path {
        return;
      }
      var shap :| shap in raw && shap.objectPath == path;
      FewerPaths(shap);
      Untrack(shap);
      UpdateGroupedAccessPoints();
    }

    /** An access point reports its strength, to which its group reacts. */
    method StrengthUpdated(ap: AccessPoint, s: real)
      requires Valid() && ap in raw
      modifies ap`strength, groups`strength
      ensures Valid() && ap.strength == s
      ensures old(AllWhole(raw)) && IsWhole(s) ==> AllWhole(raw)
    {
      hide GroupedAccessPoint.Valid, GroupedAccessPoint.Exact, GroupedAccessPoint.WholeNumbers, Published;
      OnlyInOwnGroup(ap);
      grouper[ap.key].StrengthUpdated(ap, s);
    }

    /** An access point reports when it was last connected; its group's time covers that from now on. */
    method LastConnectedUpdated(ap: AccessPoint, time: int)
      requires Valid() && ap in raw
      modifies ap`lastConnected, groups`lastTime, groups`timesSeen
      ensures Valid() && ap.lastConnected == time
      ensures ap.key in grouper && grouper[ap.key].lastTime >= time && grouper[ap.key].lastTime >= old(grouper[ap.key].lastTime)
      ensures forall k <- grouper :: k != ap.key ==> grouper[k].lastTime == old(grouper[k].lastTime)
    {
      hide GroupedAccessPoint.Valid, GroupedAccessPoint.Exact, GroupedAccessPoint.WholeNumbers, Published;
      OnlyInOwnGroup(ap);
      grouper[ap.key].LastConnectedUpdated(ap, time);
    }

    lemma OnlyInOwnGroup(ap: AccessPoint)
      requires Grouped() && ap in raw
      ensures ap.key in grouper && forall k <- grouper :: ap in grouper[k].aplist <==> k == ap.key
    {
      hide GroupedAccessPoint.Valid;
      assert forall k <- grouper :: grouper[k].aplist == Groups()[k];
    }

    /** While all strengths are whole numbers and none is negative, every group's cached strength is its maximum. */
    lemma WholeIsExact()
      requires Valid() && AllWhole(raw)
      ensures forall k <- grouper :: grouper[k].Exact() || grouper[k].AtGreatest()
      ensures (forall ap <- raw :: ap.strength >= 0.0) ==> forall k <- grouper :: grouper[k].AtGreatest()
    {
      hide GroupedAccessPoint.Valid, GroupedAccessPoint.Exact, GroupedAccessPoint.AtGreatest, GroupedAccessPoint.WholeNumbers;
      hide Splits, Groups, Published, Separate, UniquePaths;
      forall k <- grouper
        ensures grouper[k].Exact() || grouper[k].AtGreatest()
        ensures (forall ap <- raw :: ap.strength >= 0.0) ==> grouper[k].AtGreatest()
      {
        grouper[k].WholeIsExact();
        KeyOfGroup(k);
      }
    }

    /**
      * Every access point is in exactly one of the published groups, and two are in the same one exactly if they have
      * the same name, security and mode; a group is never empty; and while disconnecting nothing is announced.
      */
    lemma GroupsMean()
      requires Valid()
      ensures forall a <- raw, b <- raw :: a.objectPath == b.objectPath ==> a == b
      ensures forall ap <- raw :: exists g <- published :: ap in g.aplist
      ensures forall g <- published :: g.aplist != [] && forall ap <- g.aplist :: ap in raw
      ensures forall g <- published, i, j :: 0 <= i < j < |g.aplist| ==> g.aplist[i] != g.aplist[j]
      ensures forall g <- published, h <- published :: forall a <- g.aplist, b <- h.aplist :: a.key == b.key <==> g == h
      ensures announced == if disconnectWifi then {} else published
    {
      hide GroupedAccessPoint.Valid;
      assert forall k <- grouper :: grouper[k].aplist == Groups()[k];
      forall ap <- raw ensures ap.key in grouper && ap in grouper[ap.key].aplist {}
    }

    lemma SomeMember(k: Key)
      requires Grouped() && k in grouper
      ensures exists ap <- raw :: ap.key == k
    {
      hide AllCached, Separate, UniquePaths;
      KeyOfGroup(k);
      assert Groups()[k] == grouper[k].aplist;
      assert grouper[k].aplist[0] in raw;
    }

    lemma NewKey(k: Key)
      requires Valid() && forall ap <- raw :: ap.key != k
      ensures k !in grouper
    {
      if k in grouper {
        SomeMember(k);
      }
    }

    /** One more access point: the members and the cached strength of the group with its key. */
    method Appear(path: string, key: Key, s: real) returns (ap: AccessPoint, group: GroupedAccessPoint)
      requires Valid() && forall ap <- raw :: ap.objectPath != path
      modifies this, groups
      ensures Valid() && fresh(groups - old(groups)) && raw == old(raw) + {ap}
      ensures ap.objectPath == path && ap.key == key && ap.strength == s && ap.lastConnected == 0
      ensures key in grouper && group == grouper[key] && group in published
      ensures group.aplist == old(if key in grouper then grouper[key].aplist else []) + [ap]
      ensures group.strength == Max(s, old(if key in grouper then grouper[key].strength else 0.0))
    {
      hide AllCached, Separate, UniquePaths, Splits, Max, OtherPaths;
      ghost var lists, strengths := Groups(), CachedStrengths();
      ApAdded(path, Some(Properties(key, s)));
      ap :| ap in raw && ap.objectPath == path;
      GroupsMean();
      assert Groups() == Joined(lists, ap) && CachedStrengths() == Raised(strengths, key, s);
      assert key in Groups() && Groups()[key] == grouper[key].aplist && CachedStrengths()[key] == grouper[key].strength;
      group := grouper[key];
    }

    /**
      * Two access points of a network that was not there appear: the group caches the strength of the first, or 0 if
      * that is more, and then the strength of the second if that is more still.
      */
    method TwoAppear(key: Key, path: string, s: real, otherPath: string, t: real)
        returns (first: real, group: GroupedAccessPoint)
      requires Valid() && path != otherPath
      requires forall ap <- raw :: ap.key != key && ap.objectPath != path && ap.objectPath != otherPath
      modifies this, groups
      ensures Valid() && group in published
      ensures exists a, b :: group.aplist == [a, b] && a.objectPath == path && a.strength == s
                             && b.objectPath == otherPath && b.strength == t
      ensures first == if s < 0.0 then 0.0 else s
      ensures group.strength == if t < first then first else t
    {
      hide Valid;
      NewKey(key);
      var ap, other;
      ap, group := Appear(path, key, s);
      first := group.strength;
      other, group := Appear(otherPath, key, t);
      assert group.aplist == [ap, other];
    }
  }
}
