/** The one SIM that carries mobile data: at no instant is data switched on for two. */
module MobileData {
  import opened OptionType
  import opened Sequences

  class Sim {
    const iccid: string
    var ofonoPath: string
    var present: bool
    var initialDataOn: bool

    constructor (iccid: string, ofonoPath: string, present: bool, initialDataOn: bool)
      ensures this.iccid == iccid && this.ofonoPath == ofonoPath
      ensures this.present == present && this.initialDataOn == initialDataOn
    {
      this.iccid, this.ofonoPath, this.present, this.initialDataOn := iccid, ofonoPath, present, initialDataOn;
    }
  }

  class Modem {
    const ofonoPath: string
    var sim: Sim?

    constructor (ofonoPath: string)
      ensures this.ofonoPath == ofonoPath && sim == null
    {
      this.ofonoPath, sim := ofonoPath, null;
    }
  }

  // ---------- the switching of data, as a log ----------

  /** Data is switched on or off for a SIM. */
  datatype Write = Write(sim: Sim, value: bool)

  ghost function After(on: set<Sim>, write: Write): set<Sim> {
    if write.value then on + {write.sim} else on - {write.sim}
  }

  /** The SIMs whose last write switched data on. */
  ghost function On(writes: seq<Write>): set<Sim> {
    if writes == [] then {} else After(On(writes[..|writes| - 1]), writes[|writes| - 1])
  }

  ghost predicate AtMostOne(sims: set<Sim>) {
    forall a <- sims, b <- sims :: a == b
  }

  lemma AtMostOneSize(sims: set<Sim>)
    requires AtMostOne(sims)
    ensures |sims| <= 1
  {
    if sims != {} {
      var a :| a in sims;
      assert sims == {a};
    }
  }

  /** At every instant data was on for at most one SIM. */
  ghost predicate OneAtATime(writes: seq<Write>) {
    writes == [] || (OneAtATime(writes[..|writes| - 1]) && AtMostOne(On(writes)))
  }

  lemma {:induction false} OneAtEveryInstant(writes: seq<Write>, n: nat)
    requires OneAtATime(writes) && n <= |writes|
    ensures |On(writes[..n])| <= 1
  {
    if n < |writes| {
      OneAtEveryInstant(writes[..|writes| - 1], n);
      assert writes[..|writes| - 1][..n] == writes[..n];
    } else {
      assert writes[..n] == writes;
      AtMostOneSize(On(writes));
    }
  }

  /** The SIMs that are on are those whose last write switched them on. */
  lemma {:induction false} OnIsLastWrite(writes: seq<Write>, sim: Sim)
    ensures sim in On(writes) <==>
      exists i :: 0 <= i < |writes| && writes[i] == Write(sim, true) && forall j :: i < j < |writes| ==> writes[j].sim != sim
  {
    if writes != [] {
      var n := |writes| - 1;
      OnIsLastWrite(writes[..n], sim);
      if writes[n].sim == sim {
        assert writes[n].value ==> writes[n] == Write(sim, true);
      } else if i :| 0 <= i < n && writes[i] == Write(sim, true) && forall j :: i < j < |writes| ==> writes[j].sim != sim {
        assert writes[..n][i] == Write(sim, true) && forall j :: i < j < n ==> writes[..n][j] == writes[j];
      }
    }
  }

  // ---------- the manager ----------

  /** The first SIM with a path. */
  function FindSim(sims: seq<Sim>, path: string): Sim?
    reads sims
  {
    if sims == [] then null else if sims[0].ofonoPath == path then sims[0] else FindSim(sims[1..], path)
  }

  /** The first SIM with an id. */
  function FindIccid(sims: seq<Sim>, iccid: string): Sim? {
    if sims == [] then null else if sims[0].iccid == iccid then sims[0] else FindIccid(sims[1..], iccid)
  }

  /** No SIM is found exactly if none has the path, and what is found has it and nothing before it does. */
  lemma {:induction false} FindSimIsFirst(sims: seq<Sim>, path: string)
    ensures FindSim(sims, path) == null <==> forall i :: 0 <= i < |sims| ==> sims[i].ofonoPath != path
    ensures FindSim(sims, path) != null ==>
              exists i :: 0 <= i < |sims| && sims[i] == FindSim(sims, path) && sims[i].ofonoPath == path
                && forall j :: 0 <= j < i ==> sims[j].ofonoPath != path
  {
    if sims != [] {
      FindSimIsFirst(sims[1..], path);
      if sims[0].ofonoPath != path && FindSim(sims[1..], path) != null {
        var i :| 0 <= i < |sims| - 1 && sims[1..][i] == FindSim(sims[1..], path) && sims[1..][i].ofonoPath == path
                 && forall j :: 0 <= j < i ==> sims[1..][j].ofonoPath != path;
        assert forall j :: 0 < j < i + 1 ==> sims[j] == sims[1..][j - 1];
        assert sims[i + 1] == FindSim(sims, path);
      }
      assert forall j :: 0 < j < |sims| ==> sims[j] == sims[1..][j - 1];
    }
  }

  /** The same for ids. */
  lemma {:induction false} FindIccidIsFirst(sims: seq<Sim>, iccid: string)
    ensures FindIccid(sims, iccid) == null <==> forall i :: 0 <= i < |sims| ==> sims[i].iccid != iccid
    ensures FindIccid(sims, iccid) != null ==>
              exists i :: 0 <= i < |sims| && sims[i] == FindIccid(sims, iccid) && sims[i].iccid == iccid
                && forall j :: 0 <= j < i ==> sims[j].iccid != iccid
  {
    if sims != [] {
      FindIccidIsFirst(sims[1..], iccid);
      if sims[0].iccid != iccid && FindIccid(sims[1..], iccid) != null {
        var i :| 0 <= i < |sims| - 1 && sims[1..][i] == FindIccid(sims[1..], iccid) && sims[1..][i].iccid == iccid
                 && forall j :: 0 <= j < i ==> sims[1..][j].iccid != iccid;
        assert forall j :: 0 < j < i + 1 ==> sims[j] == sims[1..][j - 1];
        assert sims[i + 1] == FindIccid(sims, iccid);
      }
      assert forall j :: 0 < j < |sims| ==> sims[j] == sims[1..][j - 1];
    }
  }

  /** The part of the manager that switches mobile data; it lists the modems that are ready. */
  class MobileDataManager {
    var mobileDataEnabled: bool
    var mobileDataEnabledPending: bool
    var simForMobileData: Sim?
    var simForMobileDataPending: bool
    var modems: seq<Modem>
    var sims: seq<Sim>
    var savedEnabled: Option<bool>
    var savedSim: Option<string>
    var writes: seq<Write>

    ghost function Selected(): set<Sim>
      reads this`simForMobileData
    {
      if simForMobileData == null then {} else {simForMobileData}
    }

    /** Data is on for no other SIM than the selected one, and never was on for two. */
    ghost predicate Valid()
      reads this`simForMobileData, this`writes
    {
      On(writes) <= Selected() && OneAtATime(writes)
    }

    /** Some modem holds the selected SIM. */
    ghost predicate Hosted()
      reads this`simForMobileData, this`modems, modems`sim
    {
      HostedAmong(|modems|)
    }

    ghost predicate HostedAmong(n: nat)
      requires n <= |modems|
      reads this`simForMobileData, this`modems, modems`sim
    {
      simForMobileData != null && exists i :: 0 <= i < n && modems[i].sim == simForMobileData
    }

    /** Data is on for the selected SIM exactly if it is enabled. */
    ghost predicate InEffect()
      reads this`mobileDataEnabled, this`simForMobileData, this`writes
    {
      On(writes) == if mobileDataEnabled then Selected() else {}
    }

    /** Only the selected SIM may have a last write that switched it on. */
    lemma OnlySelectedIsOn(i: nat)
      requires Valid() && i < |writes| && writes[i].value && forall j :: i < j < |writes| ==> writes[j].sim != writes[i].sim
      ensures writes[i].sim == simForMobileData
    {
      OnIsLastWrite(writes, writes[i].sim);
    }

    /** Whether data is on for the selected SIM as it is enabled, told by its last write. */
    lemma InEffectMeans()
      requires Valid()
      ensures InEffect() <==>
        || simForMobileData == null
        || (mobileDataEnabled <==>
              exists i :: 0 <= i < |writes| && writes[i].sim == simForMobileData && writes[i].value
                && forall j :: i < j < |writes| ==> writes[j].sim != simForMobileData)
    {
      if simForMobileData != null {
        OnIsLastWrite(writes, simForMobileData);
      }
    }

    lemma HostedMeans()
      ensures Hosted() <==> simForMobileData != null && exists m <- modems :: m.sim == simForMobileData
    {
    }

    constructor ()
      ensures Valid() && InEffect() && modems == [] && sims == [] && simForMobileData == null && !mobileDataEnabled
      ensures !mobileDataEnabledPending && !simForMobileDataPending
    {
      mobileDataEnabled, mobileDataEnabledPending, simForMobileData, simForMobileDataPending := false, false, null, false;
      modems, sims, savedEnabled, savedSim, writes := [], [], None, None, [];
    }

    /** Switches data for one SIM. */
    method Switch(sim: Sim, value: bool)
      requires OneAtATime(writes) && (value ==> On(writes) <= {sim})
      modifies this`writes
      ensures writes == old(writes) + [Write(sim, value)] && OneAtATime(writes)
      ensures On(writes) == After(old(On(writes)), Write(sim, value))
    {
      assert (writes + [Write(sim, value)])[..|writes|] == writes;
      assert AtMostOne(On(writes)) by {
        assert writes == [] || AtMostOne(On(writes));
      }
      writes := writes + [Write(sim, value)];
    }

    /** Enables or disables data, which reaches the SIMs in the modems only. */
    method SetMobileDataEnabled(value: bool)
      requires Valid()
      modifies this`mobileDataEnabledPending, this`savedEnabled, this`mobileDataEnabled, this`writes
      ensures Valid() && mobileDataEnabled == value && !mobileDataEnabledPending && old(writes) <= writes
      ensures old(mobileDataEnabled == value && !mobileDataEnabledPending) ==> unchanged(this)
      ensures !old(mobileDataEnabled == value && !mobileDataEnabledPending) ==>
        && savedEnabled == Some(value)
        && On(writes) == (if Hosted() then (if value then Selected() else {}) else old(On(writes)))
        && (forall i :: |old(writes)| <= i < |writes| ==> writes[i].value == value && (value ==> writes[i].sim == simForMobileData))
        && (!value ==> forall i :: 0 <= i < |modems| && modems[i].sim != null ==> Write(modems[i].sim, false) in writes[|old(writes)|..])
      ensures InEffect() <==>
        || simForMobileData == null
        || (simForMobileData in old(On(writes)) <==> value)
        || (Hosted() && !old(mobileDataEnabled == value && !mobileDataEnabledPending))
    {
      hide On, OneAtATime;
      if mobileDataEnabled == value && !mobileDataEnabledPending {
        return;
      }
      mobileDataEnabledPending := false;
      savedEnabled := Some(value);
      mobileDataEnabled := value;
      if mobileDataEnabled {
        for i := 0 to |modems|
          modifies this`writes
          invariant Valid() && old(writes) <= writes
          invariant On(writes) == if HostedAmong(i) then Selected() else old(On(writes))
          invariant forall j :: |old(writes)| <= j < |writes| ==> writes[j].value && writes[j].sim == simForMobileData
        {
          if modems[i].sim != null && modems[i].sim == simForMobileData {
            Switch(modems[i].sim, true);
          }
        }
      } else {
        for i := 0 to |modems|
          modifies this`writes
          invariant Valid() && old(writes) <= writes
          invariant On(writes) == if HostedAmong(i) then {} else old(On(writes))
          invariant forall j :: |old(writes)| <= j < |writes| ==> !writes[j].value
          invariant forall j :: 0 <= j < i && modems[j].sim != null ==> Write(modems[j].sim, false) in writes[|old(writes)|..]
        {
          if modems[i].sim != null {
            ghost var before := writes;
            Switch(modems[i].sim, false);
            assert writes[|old(writes)|..] == before[|old(writes)|..] + [Write(modems[i].sim, false)];
          }
        }
      }
    }

    /** Selects a SIM, or none: data is switched off for the one before, and for the new one as it is enabled. */
    method SetSimForMobileData(sim: Sim?)
      requires Valid()
      modifies this`mobileDataEnabledPending, this`savedEnabled, this`mobileDataEnabled, this`writes
      modifies this`simForMobileData, this`simForMobileDataPending, this`savedSim
      ensures Valid() && simForMobileData == sim && !simForMobileDataPending && old(writes) <= writes
      ensures mobileDataEnabled == old(mobileDataEnabled) && savedEnabled in {old(savedEnabled), Some(mobileDataEnabled)}
      ensures old(simForMobileData == sim && !simForMobileDataPending) ==> unchanged(this)
      ensures !old(simForMobileData == sim && !simForMobileDataPending) ==>
        && InEffect()
        && savedSim == Some(if sim == null then "" else sim.iccid)
        && mobileDataEnabledPending == (old(mobileDataEnabledPending) && !old(simForMobileDataPending))
    {
      hide On, OneAtATime;
      if simForMobileData == sim && !simForMobileDataPending {
        return;
      }
      if simForMobileDataPending {
        simForMobileDataPending := false;
        SetMobileDataEnabled(mobileDataEnabled);
      }
      if simForMobileData != null {
        Switch(simForMobileData, false);
      }
      if sim == null {
        savedSim := Some("");
      } else {
        savedSim := Some(sim.iccid);
      }
      simForMobileData := sim;
      if simForMobileData != null {
        Switch(simForMobileData, mobileDataEnabled);
      }
    }

    /** A SIM reports, for the first time, whether data was on; before anything was ever saved, this decides. */
    method InitialDataOnSet(sim: Sim)
      requires Valid()
      modifies this`mobileDataEnabledPending, this`savedEnabled, this`mobileDataEnabled, this`writes
      modifies this`simForMobileData, this`simForMobileDataPending, this`savedSim
      ensures Valid() && old(writes) <= writes
      ensures !(old(mobileDataEnabledPending || simForMobileDataPending) && sim.initialDataOn) ==> unchanged(this)
      ensures old(mobileDataEnabledPending || simForMobileDataPending) && sim.initialDataOn ==>
        && mobileDataEnabled && simForMobileData == sim && !mobileDataEnabledPending && !simForMobileDataPending
        && (old(simForMobileData) != sim || old(simForMobileDataPending) ==> On(writes) == {sim})
    {
      hide On, OneAtATime;
      if !mobileDataEnabledPending && !simForMobileDataPending {
        return;
      }
      if sim.initialDataOn {
        SetMobileDataEnabled(true);
        SetSimForMobileData(sim);
      }
    }

    /** Some setting was never saved, and no SIM has decided it yet. */
    ghost predicate IsPending()
      reads this`mobileDataEnabledPending, this`simForMobileDataPending
    {
      mobileDataEnabledPending || simForMobileDataPending
    }

    /** Gives each modem the first SIM with its path, or none, and lets a SIM with data on decide. */
    method MatchModemsAndSims(links: seq<Modem>)
      requires Valid()
      modifies this`mobileDataEnabledPending, this`savedEnabled, this`mobileDataEnabled, this`writes
      modifies this`simForMobileData, this`simForMobileDataPending, this`savedSim, links`sim
      ensures Valid() && old(writes) <= writes
      ensures forall modem <- links :: modem.sim == FindSim(sims, modem.ofonoPath)
      ensures IsPending() ==> forall modem <- links :: modem.sim != null ==> !modem.sim.initialDataOn
      ensures !old(IsPending()) ==> unchanged(this)
    {
      for k := 0 to |links|
        invariant Valid() && old(writes) <= writes && (!old(IsPending()) ==> unchanged(this))
        invariant forall i :: 0 <= i < k ==> links[i].sim == FindSim(sims, links[i].ofonoPath)
        invariant IsPending() ==> forall i :: 0 <= i < k && links[i].sim != null ==> !links[i].sim.initialDataOn
      {
        var modem := links[k];
        var found := false;
        for i := 0 to |sims|
          invariant Valid() && old(writes) <= writes && !found && (!old(IsPending()) ==> unchanged(this))
          invariant IsPending() ==> forall j :: 0 <= j < k && links[j].sim != null ==> !links[j].sim.initialDataOn
          invariant FindSim(sims, modem.ofonoPath) == FindSim(sims[i..], modem.ofonoPath)
          invariant forall j :: 0 <= j < k ==> links[j].sim == FindSim(sims, links[j].ofonoPath)
        {
          if sims[i].ofonoPath == modem.ofonoPath {
            found := true;
            modem.sim := sims[i];
            if mobileDataEnabledPending || simForMobileDataPending {
              if sims[i].initialDataOn {
                InitialDataOnSet(sims[i]);
              }
            }
            break;
          }
        }
        if !found {
          modem.sim := null;
        }
      }
    }

    /** The number of the first `n` modems that hold a SIM. */
    ghost function Holding(n: nat): nat
      requires n <= |modems|
      reads this`modems, modems`sim
    {
      if n == 0 then 0 else Holding(n - 1) + if modems[n - 1].sim != null then 1 else 0
    }

    lemma HoldingNone(n: nat)
      requires n <= |modems| && forall j :: 0 <= j < n ==> modems[j].sim == null
      ensures Holding(n) == 0
    {
    }

    /** One modem holds a SIM exactly if one does and no other does. */
    lemma {:induction false} HoldingOne(n: nat, i: nat)
      requires i < n <= |modems| && modems[i].sim != null
      ensures Holding(n) == 1 <==> forall j :: 0 <= j < n && j != i ==> modems[j].sim == null
      ensures Holding(n) >= 1
    {
      if i == n - 1 {
        if forall j :: 0 <= j < i ==> modems[j].sim == null {
          HoldingNone(i);
        } else {
          var j :| 0 <= j < i && modems[j].sim != null;
          HoldingOne(i, j);
        }
      } else {
        HoldingOne(n - 1, i);
      }
    }

    /** Selects the SIM of the only modem that holds one, unless the selected one is present. */
    method CheckSimForMobileData()
      requires Valid()
      modifies this`mobileDataEnabledPending, this`savedEnabled, this`mobileDataEnabled, this`writes
      modifies this`simForMobileData, this`simForMobileDataPending, this`savedSim
      ensures Valid() && old(writes) <= writes
      ensures old(simForMobileData != null && simForMobileData.present) ==> unchanged(this)
      ensures (forall i :: 0 <= i < |modems| ==> modems[i].sim == null) ==> unchanged(this)
      ensures forall i, j :: 0 <= i < j < |modems| && modems[i].sim != null && modems[j].sim != null ==> unchanged(this)
      ensures !old(simForMobileData != null && simForMobileData.present) ==>
                forall i | 0 <= i < |modems| && modems[i].sim != null ::
                  (forall j :: 0 <= j < |modems| && j != i ==> modems[j].sim == null) ==> simForMobileData == modems[i].sim
    {
      if simForMobileData != null && simForMobileData.present {
        return;
      }
      var presentSimCount := 0;
      for i := 0 to |modems|
        invariant presentSimCount == Holding(i)
        invariant presentSimCount == 0 ==> forall j :: 0 <= j < i ==> modems[j].sim == null
      {
        if modems[i].sim != null {
          presentSimCount := presentSimCount + 1;
        }
      }
      forall i | 0 <= i < |modems| && modems[i].sim != null
        ensures presentSimCount == 1 <==> forall j :: 0 <= j < |modems| && j != i ==> modems[j].sim == null
        ensures presentSimCount >= 1
      {
        HoldingOne(|modems|, i);
      }
      if presentSimCount == 1 {
        for i := 0 to |modems|
          invariant Holding(|modems|) == 1 && unchanged(this)
          invariant forall j :: 0 <= j < i ==> modems[j].sim == null
          invariant Holding(i) == 0
        {
          if modems[i].sim != null {
            SetSimForMobileData(modems[i].sim);
            assert modems[i].sim == simForMobileData;
            return;
          }
        }
      }
    }

    /** Neither the selection nor what was switched changed. */
    twostate predicate BooksUnchanged()
      reads this
    {
      && mobileDataEnabled == old(mobileDataEnabled) && mobileDataEnabledPending == old(mobileDataEnabledPending)
      && simForMobileData == old(simForMobileData) && simForMobileDataPending == old(simForMobileDataPending)
      && writes == old(writes)
    }

    /** A new SIM: it is selected if it is the one that was saved. */
    method SimAdded(sim: Sim, links: seq<Modem>)
      requires Valid()
      modifies this`mobileDataEnabledPending, this`savedEnabled, this`mobileDataEnabled, this`writes, this`sims
      modifies this`simForMobileData, this`simForMobileDataPending, this`savedSim, links`sim
      ensures Valid() && old(writes) <= writes && sims == old(sims) + [sim]
      ensures !old(IsPending()) && old(savedSim) == Some(sim.iccid) && sim.iccid != "" ==> simForMobileData == sim
      ensures !old(IsPending()) && (old(savedSim) != Some(sim.iccid) || old(simForMobileData) == sim) ==> BooksUnchanged()
      ensures forall modem <- links :: modem.sim == FindSim(sims, modem.ofonoPath)
    {
      sims := sims + [sim];
      if savedSim.Some? && savedSim.value != "" {
        if sim.iccid == savedSim.value {
          SetSimForMobileData(sim);
        }
      }
      MatchModemsAndSims(links);
    }

    /** A modem has become ready to carry data. */
    method ModemReady(modem: Modem, links: seq<Modem>)
      requires Valid()
      modifies this`mobileDataEnabledPending, this`savedEnabled, this`mobileDataEnabled, this`writes, this`modems
      modifies this`simForMobileData, this`simForMobileDataPending, this`savedSim, links`sim
      ensures Valid() && old(writes) <= writes && modems == old(modems) + [modem]
      ensures old(modem.sim) != null ==>
                unchanged(links) && BooksUnchanged()
      ensures old(modem.sim) == null ==> forall m <- links :: m.sim == FindSim(sims, m.ofonoPath)
    {
      if modem.sim == null {
        MatchModemsAndSims(links);
      }
      modems := modems + [modem];
    }

    /** A modem is gone. */
    method ModemRemoved(modem: Modem)
      requires Valid()
      modifies this`modems
      ensures Valid() && modems == Without(old(modems), modem)
    {
      modems := Without(modems, modem);
    }

    /** Takes up what was saved; what never was is left for the SIMs to decide. */
    method LoadSettings()
      requires Valid()
      modifies this
      ensures Valid() && old(writes) <= writes && savedEnabled.Some? && savedSim.Some?
      ensures mobileDataEnabled == if old(savedEnabled).Some? then old(savedEnabled).value else old(mobileDataEnabled)
      ensures old(savedEnabled).None? ==> mobileDataEnabledPending || (old(simForMobileDataPending) && old(savedSim).Some?)
      ensures old(savedSim).None? ==> simForMobileDataPending && unchanged(`simForMobileData)
      ensures old(savedSim).Some? ==> simForMobileData == FindIccid(sims, old(savedSim).value)
    {
      if savedEnabled.None? {
        mobileDataEnabledPending := true;
        savedEnabled := Some(false);
      } else {
        SetMobileDataEnabled(savedEnabled.value);
      }
      if savedSim.None? {
        simForMobileDataPending := true;
        savedSim := Some("");
      } else {
        var iccid := savedSim.value;
        var sim: Sim? := null;
        for i := 0 to |sims|
          invariant sim == null && FindIccid(sims, iccid) == FindIccid(sims[i..], iccid)
        {
          if sims[i].iccid == iccid {
            sim := sims[i];
            break;
          }
        }
        SetSimForMobileData(sim);
      }
    }
  }

  /** Enabling data for a selected SIM that no modem holds leaves it off. */
  method EnablingMissesSim() returns (manager: MobileDataManager)
    ensures manager.Valid() && manager.mobileDataEnabled && manager.simForMobileData != null && !manager.InEffect()
  {
    manager := new MobileDataManager();
    var sim := new Sim("1", "/ril_0", true, false);
    manager.SetSimForMobileData(sim);
    manager.SetMobileDataEnabled(true);
  }

  /** It stays off when a modem with that SIM becomes ready, and enabling data once more is ignored. */
  method EnablingAgainMissesSim() returns (manager: MobileDataManager)
    ensures manager.Valid() && manager.mobileDataEnabled && manager.Hosted() && !manager.InEffect()
  {
    manager := new MobileDataManager();
    var sim := new Sim("1", "/ril_0", true, false);
    var modem := new Modem("/ril_0");
    manager.SetSimForMobileData(sim);
    manager.SetMobileDataEnabled(true);
    var links := [modem];
    manager.SimAdded(sim, links);
    assert modem in links && manager.sims == [sim];
    manager.ModemReady(modem, links);
    assert manager.modems == [modem];
    manager.SetMobileDataEnabled(true);
  }
}
