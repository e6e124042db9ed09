/** The manager of the VPN connections: one busy flag and one active path, copied to every connection. */
module VpnManagement {
  import opened Decimal
  import opened OptionType
  import opened Sequences
  import opened VpnConnections

  /** The path of the first active connection, empty if none is active. */
  ghost function FirstActive(s: seq<VpnConnection>): string
    reads s`active
  {
    if s == [] then "" else if s[0].active then s[0].path else FirstActive(s[1..])
  }

  ghost predicate AnyBusy(s: seq<VpnConnection>)
    reads s`busy
  {
    exists i :: 0 <= i < |s| && s[i].busy
  }

  /** The connections in the order of their paths, each path once; no path is empty. */
  ghost predicate ByPath(s: seq<VpnConnection>)
  {
    && (forall i :: 0 <= i < |s| ==> s[i].path != "")
    && forall i, j :: 0 <= i < j < |s| ==> StringLess(s[i].path, s[j].path)
  }

  lemma ByPathDistinct(s: seq<VpnConnection>)
    requires ByPath(s)
    ensures forall i, j :: 0 <= i < j < |s| ==> s[i] != s[j] && s[i].path != s[j].path
  {
    forall i, j | 0 <= i < j < |s| ensures s[i].path != s[j].path {
      StringLessTrichotomy(s[i].path, s[j].path);
      StringLessTrichotomy(s[i].path, s[i].path);
    }
  }

  /** The connection has been told these values, and its activatable flag follows from them. */
  ghost predicate Told(c: VpnConnection, busy: bool, activePath: string)
    reads c
  {
    c.otherConnectionIsBusy == busy && c.otherActiveConnectionPath == activePath && c.ActivatableFlag()
  }

  ghost predicate HasPath(s: seq<VpnConnection>, path: string) {
    exists c <- s :: c.path == path
  }

  class VpnManager {
    var connections: seq<VpnConnection>
    var busy: bool
    var activeConnectionPath: string

    constructor ()
      ensures connections == [] && Coherent()
    {
      connections, busy, activeConnectionPath := [], false, "";
    }

    ghost predicate Copied()
      reads this, connections
    {
      ByPath(connections) && forall i :: 0 <= i < |connections| ==> Told(connections[i], busy, activeConnectionPath)
    }

    /** The settled state: the manager's values are those of its connections, and all copies agree. */
    ghost predicate Coherent()
      reads this, connections
    {
      Copied() && busy == AnyBusy(connections) && activeConnectionPath == FirstActive(connections)
    }

    method SetBusy(value: bool)
      requires Copied()
      modifies this`busy, connections`otherConnectionIsBusy, connections`activatable
      ensures Copied() && busy == value
    {
      if busy == value {
        return;
      }
      ByPathDistinct(connections);
      hide StringLess;
      busy := value;
      for i := 0 to |connections|
        invariant busy == value
        invariant forall j | 0 <= j < |connections| :: Told(connections[j], if j < i then value else !value, activeConnectionPath)
      {
        connections[i].SetOtherConnectionIsBusy(value);
      }
    }

    method SetActiveConnectionPath(value: string)
      requires Copied()
      modifies this`activeConnectionPath, connections`otherActiveConnectionPath, connections`activatable
      ensures Copied() && activeConnectionPath == value
    {
      if activeConnectionPath == value {
        return;
      }
      ByPathDistinct(connections);
      hide StringLess;
      var previous := activeConnectionPath;
      activeConnectionPath := value;
      for i := 0 to |connections|
        invariant activeConnectionPath == value
        invariant forall j | 0 <= j < |connections| :: Told(connections[j], busy, if j < i then value else previous)
      {
        connections[i].SetActiveConnectionPath(value);
      }
    }

    method UpdateActiveAndBusy()
      requires Copied()
      modifies this`busy, this`activeConnectionPath
      modifies connections`otherConnectionIsBusy, connections`otherActiveConnectionPath, connections`activatable
      ensures Coherent()
    {
      hide StringLess, ByPath;
      var anyBusy := false;
      var i := 0;
      while i < |connections|
        invariant 0 <= i <= |connections| && anyBusy == AnyBusy(connections[..i])
      {
        if connections[i].busy {
          anyBusy := true;
          break;
        }
        i := i + 1;
      }
      assert anyBusy == AnyBusy(connections);
      SetBusy(anyBusy);

      var path := "";
      i := 0;
      while i < |connections|
        invariant 0 <= i <= |connections| && path == "" && FirstActive(connections) == FirstActive(connections[i..])
      {
        if connections[i].active {
          path := connections[i].path;
          break;
        }
        i := i + 1;
      }
      SetActiveConnectionPath(path);
    }

    /** The position of the first connection whose path is not before `path`. */
    method Position(path: string) returns (i: nat)
      requires ByPath(connections)
      ensures i <= |connections|
      ensures forall j :: 0 <= j < i ==> StringLess(connections[j].path, path)
      ensures forall j :: i <= j < |connections| ==> !StringLess(connections[j].path, path)
    {
      i := 0;
      while i < |connections| && StringLess(connections[i].path, path)
        invariant 0 <= i <= |connections|
        invariant forall j :: 0 <= j < i ==> StringLess(connections[j].path, path)
      {
        i := i + 1;
      }
      forall j | i <= j < |connections| ensures !StringLess(connections[j].path, path) {
        if i < j && StringLess(connections[j].path, path) {
          StringLessTransitive(connections[i].path, connections[j].path, path);
        }
      }
    }

    /** Enters a connection under its path, replacing the one that was there. */
    method Enter(c: VpnConnection)
      requires ByPath(connections) && c.path != ""
      modifies this`connections
      ensures ByPath(connections)
      ensures exists i, n :: 0 <= i <= |old(connections)| && 0 <= n <= 1 && i + n <= |old(connections)|
                && connections == Splice(old(connections), i, n, [c])
                && (n == 1 ==> old(connections)[i].path == c.path)
      ensures forall d <- old(connections) :: d.path != c.path ==> d in connections
    {
      var i := Position(c.path);
      var n := if i < |connections| && connections[i].path == c.path then 1 else 0;
      EnteredByPath(connections, i, n, c);
      connections := connections[..i] + [c] + connections[i + n..];
      assert connections == Splice(old(connections), i, n, [c]);
    }

    /** A connection was found; if it is a VPN, it is entered and told the current values. */
    method NewConnection(c: VpnConnection, shouldUpdateActiveAndBusy: bool)
      requires c.path != "" && (if shouldUpdateActiveAndBusy then Coherent() else Copied())
      modifies this, c`otherConnectionIsBusy, c`otherActiveConnectionPath, c`activatable
      modifies connections`otherConnectionIsBusy, connections`otherActiveConnectionPath, connections`activatable
      ensures if shouldUpdateActiveAndBusy then Coherent() else Copied()
      ensures c.valid ==> c in connections && forall d <- old(connections) :: d.path != c.path ==> d in connections
      ensures forall d <- connections :: d == c || d in old(connections)
      ensures !c.valid ==> connections == old(connections)
    {
      hide AnyBusy, FirstActive, StringLess, HasPath;
      if c.valid {
        Enter(c);
        c.SetOtherConnectionIsBusy(busy);
        c.SetActiveConnectionPath(activeConnectionPath);
        if shouldUpdateActiveAndBusy {
          UpdateActiveAndBusy();
        }
      }
    }

    /** The connections found at the start are entered one by one, and the values are settled once. */
    method LoadConnections(found: seq<VpnConnection>)
      requires Coherent() && connections == [] && forall c <- found :: c.path != ""
      modifies this, found`otherConnectionIsBusy, found`otherActiveConnectionPath, found`activatable
      ensures Coherent()
      ensures forall c <- connections :: c in found && c.valid
      ensures forall c <- found :: c.valid ==> exists d <- connections :: d.path == c.path
    {
      hide AnyBusy, FirstActive, StringLess;
      for i := 0 to |found|
        invariant Copied()
        invariant forall k :: 0 <= k < |connections| ==> connections[k] in found && connections[k].valid
        invariant forall j :: 0 <= j < i && found[j].valid ==> HasPath(connections, found[j].path)
      {
        ghost var before := connections;
        NewConnection(found[i], false);
        forall k | 0 <= k < |connections| ensures connections[k] in found && connections[k].valid {
          assert connections[k] == found[i] || connections[k] in before;
        }
        forall j | 0 <= j < i + 1 && found[j].valid ensures HasPath(connections, found[j].path) {
          if found[i].valid && found[j].path == found[i].path {
            assert found[i] in connections;
          } else {
            assert HasPath(before, found[j].path);
          }
        }
      }
      UpdateActiveAndBusy();
    }

    method ConnectionRemoved(path: string)
      requires Coherent()
      modifies this
      modifies connections`otherConnectionIsBusy, connections`otherActiveConnectionPath, connections`activatable
      ensures Coherent()
      ensures forall c <- old(connections) :: c.path != path ==> c in connections
      ensures forall c <- connections :: c.path != path && c in old(connections)
    {
      var i := Position(path);
      ByPathDistinct(connections);
      if i < |connections| && connections[i].path == path {
        connections := connections[..i] + connections[i + 1..];
        UpdateActiveAndBusy();
      } else {
        StringLessTrichotomy(path, path);
      }
    }

    /** A state change of the active connection object of `c`: first the active flag, then the busy flag. */
    method ConnectionUpdated(c: VpnConnection, state: State)
      requires Coherent() && c in connections
      modifies this`busy, this`activeConnectionPath, c`active, c`busy
      modifies connections`otherConnectionIsBusy, connections`otherActiveConnectionPath, connections`activatable
      ensures Coherent()
      ensures c.active <==> state in {activating, activated}
      ensures c.busy <==> state in {activating, deactivating, deactivated}
    {
      SetConnectionActive(c, IsActiveState(state));
      SetConnectionBusy(c, IsBusyState(state));
    }

    /** The active connection objects changed, and none of them belongs to `c` any more. */
    method ConnectionGone(c: VpnConnection)
      requires Coherent() && c in connections
      modifies this`busy, this`activeConnectionPath, c`active, c`busy
      modifies connections`otherConnectionIsBusy, connections`otherActiveConnectionPath, connections`activatable
      ensures Coherent() && !c.active && !c.busy
    {
      SetConnectionActive(c, false);
      SetConnectionBusy(c, false);
    }

    /** One state change while all other connections are idle: what is shown, and which connections can be activated. */
    method AloneUpdated(c: VpnConnection, state: State) returns (path: string, activatable: set<VpnConnection>)
      requires Coherent() && c in connections && forall d <- connections :: d != c ==> !d.busy && !d.active
      modifies this`busy, this`activeConnectionPath, c`active, c`busy
      modifies connections`otherConnectionIsBusy, connections`otherActiveConnectionPath, connections`activatable
      ensures Coherent() && path == activeConnectionPath && activatable == set d <- connections | d.activatable
      ensures path == if state in {activating, activated} then c.path else ""
      ensures state in {activating, deactivating, deactivated} ==> activatable == {}
      ensures state == activated ==> activatable == {c}
      ensures state == unknown ==> activatable == set d <- connections
    {
      hide Coherent;
      ConnectionUpdated(c, state);
      path, activatable := activeConnectionPath, set d <- connections | d.activatable;
      SettledMeans(this);
    }

    /**
     * The life of an activation of `c` while all other connections are idle: nothing can be activated while it comes
     * up, only `c` itself while it is up, nothing while it goes down, and everything once it is gone.
     */
    method ActivationLife(c: VpnConnection) returns (paths: seq<string>, activatable: seq<set<VpnConnection>>)
      requires Coherent() && c in connections && forall d <- connections :: d != c ==> !d.busy && !d.active
      modifies this`busy, this`activeConnectionPath, c`active, c`busy
      modifies connections`otherConnectionIsBusy, connections`otherActiveConnectionPath, connections`activatable
      ensures Coherent()
      ensures paths == [c.path, c.path, "", "", ""]
      ensures activatable == [{}, {c}, {}, {}, set d <- connections]
    {
      hide Coherent;
      var path1, during := AloneUpdated(c, State.activating);
      var path2, up := AloneUpdated(c, State.activated);
      var path3, leaving := AloneUpdated(c, State.deactivating);
      var path4, left := AloneUpdated(c, State.deactivated);
      ConnectionGone(c);
      SettledMeans(this);
      assert (set d <- connections | d.activatable) == set d <- connections;
      paths := [path1, path2, path3, path4, activeConnectionPath];
      activatable := [during, up, leaving, left, set d <- connections | d.activatable];
    }

    /** A client switches a connection: on takes effect at once, off only asks; returns the activation asked for. */
    method SwitchConnection(c: VpnConnection, value: bool) returns (asked: Option<bool>)
      requires Coherent() && c in connections
      modifies this`busy, this`activeConnectionPath, c`active
      modifies connections`otherConnectionIsBusy, connections`otherActiveConnectionPath, connections`activatable
      ensures Coherent() && asked == (if old(c.active) == value then None else Some(value))
      ensures c.active == (old(c.active) || value)
    {
      if value == c.active {
        return None;
      }
      if value {
        SetConnectionActive(c, true);
      }
      asked := Some(value);
    }

    method SetConnectionActive(c: VpnConnection, value: bool)
      requires Coherent() && c in connections
      modifies this`busy, this`activeConnectionPath, c`active
      modifies connections`otherConnectionIsBusy, connections`otherActiveConnectionPath, connections`activatable
      ensures Coherent() && c.active == value
    {
      var changed := c.SetActive(value);
      if changed {
        UpdateActiveAndBusy();
      }
    }

    method SetConnectionBusy(c: VpnConnection, value: bool)
      requires Coherent() && c in connections
      modifies this`busy, this`activeConnectionPath, c`busy
      modifies connections`otherConnectionIsBusy, connections`otherActiveConnectionPath, connections`activatable
      ensures Coherent() && c.busy == value
    {
      var changed := c.SetBusy(value);
      if changed {
        UpdateActiveAndBusy();
      }
    }
  }

  lemma EnteredByPath(s: seq<VpnConnection>, i: nat, n: nat, c: VpnConnection)
    requires ByPath(s) && c.path != "" && n <= 1 && i + n <= |s|
    requires forall j :: 0 <= j < i ==> StringLess(s[j].path, c.path)
    requires forall j :: i <= j < |s| ==> !StringLess(s[j].path, c.path)
    requires n == 1 <==> i < |s| && s[i].path == c.path
    ensures ByPath(s[..i] + [c] + s[i + n..])
    ensures forall d <- s :: d.path != c.path ==> d in s[..i] + [c] + s[i + n..]
  {
    var r := s[..i] + [c] + s[i + n..];
    forall j | i + n <= j < |s| ensures StringLess(c.path, s[j].path) {
      StringLessTrichotomy(s[j].path, c.path);
      if n == 1 {
        StringLessTrichotomy(c.path, c.path);
      } else if i < j {
        StringLessTrichotomy(s[i].path, c.path);
      }
    }
  }

  // ---------- what the settled state means ----------

  /** The active path is the least one of an active connection, and empty exactly if none is active. */
  lemma {:induction false} FirstActiveIsLeast(s: seq<VpnConnection>)
    requires ByPath(s)
    ensures FirstActive(s) == "" <==> forall c <- s :: !c.active
    ensures FirstActive(s) != "" ==> exists c <- s :: c.active && c.path == FirstActive(s)
    ensures forall c <- s :: c.active ==> c.path == FirstActive(s) || StringLess(FirstActive(s), c.path)
  {
    if s != [] {
      FirstActiveIsLeast(s[1..]);
      assert s == [s[0]] + s[1..];
    }
  }

  /**
   * The manager is busy if any connection is; its path is that of the active connection whose path goes before those
   * of all other active ones; and a connection can be activated if nobody is busy and nobody else is shown as active.
   */
  lemma SettledMeans(m: VpnManager)
    requires m.Coherent()
    ensures m.busy <==> exists c <- m.connections :: c.busy
    ensures m.activeConnectionPath == "" <==> forall c <- m.connections :: !c.active
    ensures m.activeConnectionPath != "" ==> exists c <- m.connections :: c.active && c.path == m.activeConnectionPath
    ensures forall c <- m.connections ::
              c.activatable <==> !m.busy && (m.activeConnectionPath == "" || m.activeConnectionPath == c.path)
    ensures forall c <- m.connections :: c.path != ""
    ensures forall c <- m.connections, d <- m.connections :: c.path == d.path ==> c == d
  {
    var s := m.connections;
    FirstActiveIsLeast(s);
    ByPathDistinct(s);
    forall c <- s ensures Told(c, m.busy, m.activeConnectionPath) {}
    hide StringLess;
  }

  /** Of several active connections the one whose path goes first, character by character, is shown. */
  lemma ShownGoesFirst(m: VpnManager, c: VpnConnection)
    requires m.Coherent() && c in m.connections && c.active && c.path != m.activeConnectionPath
    ensures var a, b := m.activeConnectionPath, c.path;
      exists k :: 0 <= k <= |a| && k < |b| && a[..k] == b[..k] && (k == |a| || a[k] < b[k])
  {
    FirstActiveIsLeast(m.connections);
    StringLessMeans(m.activeConnectionPath, c.path);
  }

  /** Busy: no connection can be activated. Idle: all can. Otherwise exactly the active one can. */
  lemma ActivatableTrichotomy(m: VpnManager)
    requires m.Coherent()
    ensures (exists c <- m.connections :: c.busy) ==> forall c <- m.connections :: !c.activatable
    ensures (forall c <- m.connections :: !c.busy && !c.active) ==> forall c <- m.connections :: c.activatable
    ensures (forall c <- m.connections :: !c.busy) && (exists c <- m.connections :: c.active) ==>
              exists k :: 0 <= k < |m.connections| && m.connections[k].active
                && (forall j :: 0 <= j < |m.connections| ==> (m.connections[j].activatable <==> j == k))
                && (forall j :: 0 <= j < k ==> !m.connections[j].active)
  {
    var s := m.connections;
    FirstActiveIsLeast(s);
    ByPathDistinct(s);
    forall c <- s ensures Told(c, m.busy, m.activeConnectionPath) {}
    hide StringLess;
    if exists c <- s :: c.active {
      var k := FirstActiveIndex(s);
      assert forall j :: 0 <= j < |s| ==> (s[j].path == s[k].path <==> j == k);
    }
  }

  lemma {:induction false} FirstActiveIndex(s: seq<VpnConnection>) returns (k: nat)
    requires exists c <- s :: c.active
    ensures k < |s| && s[k].active && s[k].path == FirstActive(s) && forall j :: 0 <= j < k ==> !s[j].active
  {
    if s[0].active {
      k := 0;
    } else {
      assert s == [s[0]] + s[1..];
      k := FirstActiveIndex(s[1..]);
      k := k + 1;
    }
  }

  // ---------- names of new connections ----------

  /** The name format with its placeholder filled; a translation may put any text around the number. */
  function NumberedName(prefix: string, suffix: string, i: nat): string {
    prefix + Number(i) + suffix
  }

  lemma NumberedNameInjective(prefix: string, suffix: string, i: nat, j: nat)
    requires NumberedName(prefix, suffix, i) == NumberedName(prefix, suffix, j)
    ensures i == j
  {
    var a, b := NumberedName(prefix, suffix, i), NumberedName(prefix, suffix, j);
    assert a[|prefix|..|a| - |suffix|] == Number(i) && b[|prefix|..|b| - |suffix|] == Number(j);
    NumberInjective(i, j);
  }

  /** The names with the numbers from 1 below `i`. */
  function NamesBelow(prefix: string, suffix: string, i: nat): set<string> {
    set j | 1 <= j < i :: NumberedName(prefix, suffix, j)
  }

  lemma {:induction false} NamesBelowSize(prefix: string, suffix: string, i: nat)
    requires i >= 1
    ensures |NamesBelow(prefix, suffix, i)| == i - 1
  {
    if i == 1 {
      assert NamesBelow(prefix, suffix, 1) == {};
    } else {
      NamesBelowSize(prefix, suffix, i - 1);
      var name := NumberedName(prefix, suffix, i - 1);
      assert NamesBelow(prefix, suffix, i) == NamesBelow(prefix, suffix, i - 1) + {name};
      if j :| 1 <= j < i - 1 && NumberedName(prefix, suffix, j) == name {
        NumberedNameInjective(prefix, suffix, i - 1, j);
      }
    }
  }

  lemma SubsetSize<T>(a: set<T>, b: set<T>)
    requires a <= b
    ensures |a| <= |b|
  {
    assert b == a + (b - a);
  }

  /** The first name not in use; the search ends after at most one more candidate than there are names in use. */
  method NewConnectionName(ids: set<string>, prefix: string, suffix: string) returns (name: string, ghost i: nat)
    ensures 1 <= i <= |ids| + 1 && name == prefix + Number(i) + suffix && name !in ids
    ensures forall j :: 1 <= j < i ==> prefix + Number(j) + suffix in ids
  {
    var number := 1;
    i := number;
    name := NumberedName(prefix, suffix, number);
    while name in ids
      invariant i == number >= 1 && name == NumberedName(prefix, suffix, i)
      invariant forall j :: 1 <= j < i ==> NumberedName(prefix, suffix, j) in ids
      decreases |ids| + 1 - i
    {
      NamesBelowSize(prefix, suffix, i + 1);
      SubsetSize(NamesBelow(prefix, suffix, i + 1), ids);
      number := number + 1;
      i := number;
      name := NumberedName(prefix, suffix, number);
    }
    NamesBelowSize(prefix, suffix, i);
    SubsetSize(NamesBelow(prefix, suffix, i), ids);
    assert forall j: nat :: NumberedName(prefix, suffix, j) == prefix + Number(j) + suffix;
  }
}
