/** Unlocking SIM cards: the dialog's PIN and PUK steps, and the queue of modems waiting for the dialog. */
module SimUnlock {
  import opened OptionType
  import opened Sequences

  datatype PinType = NoPin | Pin | Puk

  class Modem {
    const name: string
    var requiredPin: PinType
    var statusKnown: bool  // the SIM status, the required PIN and the retries are all set
    var shouldTriggerUnlock: bool

    constructor (name: string)
      ensures this.name == name && !statusKnown && !shouldTriggerUnlock
    {
      this.name, requiredPin, statusKnown, shouldTriggerUnlock := name, NoPin, false, false;
    }

    predicate IsReadyToUnlock()
      reads this
    {
      statusKnown && requiredPin != NoPin
    }
  }

  // ---------- what happens in a dialog, as a log ----------

  datatype Step = PinStep | PukStep | NewPinStep | ConfirmStep

  datatype Entry = Entry(step: Step, text: string)

  datatype Event =
    | Began(modem: Modem)
    | Entered(entry: Entry)
    | SentPin(to: Modem, pin: string)
    | SentReset(to: Modem, puk: string, pin: string)
    | ResetFailed
    | Ended

  ghost function NextSession(before: Option<Modem>, event: Event): Option<Modem> {
    match event
    case Began(modem) => Some(modem)
    case Ended => None
    case _ => before
  }

  /** The modem of the session that the log is in. */
  ghost function Session(log: seq<Event>): Option<Modem> {
    if log == [] then None else NextSession(Session(log[..|log| - 1]), log[|log| - 1])
  }

  ghost function NextAttempt(before: seq<Entry>, event: Event): seq<Entry> {
    match event
    case Entered(entry) => before + [entry]
    case SentPin(_, _) => before
    case SentReset(_, _, _) => before
    case _ => []
  }

  /** The entries made since the session began, or since the modem last rejected a PUK. */
  ghost function Attempt(log: seq<Event>): seq<Entry> {
    if log == [] then [] else NextAttempt(Attempt(log[..|log| - 1]), log[|log| - 1])
  }

  /** The last entry made in the PUK step. */
  ghost function LastPuk(entries: seq<Entry>): Option<string> {
    if entries == [] then None
    else if entries[|entries| - 1].step == PukStep then Some(entries[|entries| - 1].text)
    else LastPuk(entries[..|entries| - 1])
  }

  /** The last entry is of a new PIN, made for the first time or repeated. */
  ghost predicate ChoseLast(entries: seq<Entry>, pin: string) {
    && entries != []
    && entries[|entries| - 1].text == pin
    && entries[|entries| - 1].step in {NewPinStep, ConfirmStep}
  }

  /** The entries call for resetting the PIN: the last PUK entry is `puk`, and since then `pin` was chosen and confirmed. */
  ghost predicate CallForReset(entries: seq<Entry>, puk: string, pin: string) {
    && LastPuk(entries) == Some(puk)
    && entries != []
    && entries[|entries| - 1] == Entry(ConfirmStep, pin)
    && ChoseLast(entries[..|entries| - 1], pin)
  }

  /** What may be sent after a log, and to whom. */
  ghost predicate Lawful(log: seq<Event>, event: Event) {
    match event
    case Began(_) => Session(log).None?
    case SentPin(to, pin) =>
      && Session(log) == Some(to)
      && Attempt(log) != []
      && Attempt(log)[|Attempt(log)| - 1] == Entry(PinStep, pin)
    case SentReset(to, puk, pin) =>
      && Session(log) == Some(to)
      && CallForReset(Attempt(log), puk, pin)
    case _ => true
  }

  ghost predicate AllLawful(log: seq<Event>) {
    log == [] || (AllLawful(log[..|log| - 1]) && Lawful(log[..|log| - 1], log[|log| - 1]))
  }

  /** Every PIN and every PUK that was ever sent was lawful when it was sent. */
  lemma {:induction false} LawfulThroughout(log: seq<Event>, i: nat)
    requires AllLawful(log) && i < |log|
    ensures Lawful(log[..i], log[i])
  {
    if i < |log| - 1 {
      LawfulThroughout(log[..|log| - 1], i);
      assert log[..|log| - 1][..i] == log[..i];
    }
  }

  /** One more event. */
  lemma Logged(log: seq<Event>, event: Event)
    requires AllLawful(log) && Lawful(log, event)
    ensures AllLawful(log + [event])
    ensures Session(log + [event]) == NextSession(Session(log), event)
    ensures Attempt(log + [event]) == NextAttempt(Attempt(log), event)
  {
    assert (log + [event])[..|log + [event]| - 1] == log;
  }

  /** One more entry. */
  lemma LastPukAppended(entries: seq<Entry>, entry: Entry)
    ensures LastPuk(entries + [entry]) == if entry.step == PukStep then Some(entry.text) else LastPuk(entries)
  {
    assert (entries + [entry])[..|entries + [entry]| - 1] == entries;
  }

  lemma {:induction false} LastPukIsLast(entries: seq<Entry>, puk: string)
    requires LastPuk(entries) == Some(puk)
    ensures exists p :: 0 <= p < |entries| && entries[p] == Entry(PukStep, puk)
                        && forall q :: p < q < |entries| ==> entries[q].step != PukStep
  {
    var n := |entries| - 1;
    if entries[n].step == PukStep {
      assert entries[n] == Entry(PukStep, puk);
    } else {
      LastPukIsLast(entries[..n], puk);
      var p :| 0 <= p < n && entries[..n][p] == Entry(PukStep, puk)
               && forall q :: p < q < n ==> entries[..n][q].step != PukStep;
      assert entries[p] == Entry(PukStep, puk);
      assert forall q :: p < q < n ==> entries[q] == entries[..n][q];
    }
  }

  /** A reset names the last PUK entered, and after that PUK the same new PIN was entered twice, and last. */
  lemma ResetRepeatsEntries(entries: seq<Entry>, puk: string, pin: string)
    requires CallForReset(entries, puk, pin)
    ensures |entries| >= 3 && entries[|entries| - 2].text == pin && entries[|entries| - 1].text == pin
    ensures exists p :: 0 <= p < |entries| - 2 && entries[p] == Entry(PukStep, puk)
                        && forall q :: p < q < |entries| ==> entries[q].step != PukStep
  {
    LastPukIsLast(entries, puk);
  }

  /** Where the entries of the current attempt stand in the log. */
  ghost function Places(log: seq<Event>): seq<nat> {
    if log == [] then [] else
      var before := Places(log[..|log| - 1]);
      match log[|log| - 1]
      case Entered(_) => before + [|log| - 1]
      case SentPin(_, _) => before
      case SentReset(_, _, _) => before
      case _ => []
  }

  /** A session begins or ends, or the modem rejects a PUK. */
  predicate StartsAfresh(event: Event) {
    event.Began? || event.Ended? || event.ResetFailed?
  }

  /** The entries of the current attempt are all that were made since it started, in order. */
  lemma {:induction false} PlacesHoldAttempt(log: seq<Event>)
    ensures |Places(log)| == |Attempt(log)|
    ensures forall k :: 0 <= k < |Places(log)| ==> Places(log)[k] < |log| && log[Places(log)[k]] == Entered(Attempt(log)[k])
    ensures forall k, l :: 0 <= k < l < |Places(log)| ==> Places(log)[k] < Places(log)[l]
    ensures forall j :: Places(log) != [] && Places(log)[0] <= j < |log| ==> !StartsAfresh(log[j])
    ensures forall j :: Places(log) != [] && Places(log)[0] <= j < |log| && log[j].Entered? ==> j in Places(log)
  {
    if log != [] {
      var before := log[..|log| - 1];
      PlacesHoldAttempt(before);
      assert log == before + [log[|log| - 1]];
      if log[|log| - 1].Entered? {
        assert Places(log)[|Places(before)|] == |log| - 1;
        forall j | 0 <= j < |before| && j in Places(before) ensures j in Places(log) {}
      }
    }
  }

  /** What stands behind the place of the k-th entry. */
  lemma BehindPlace(log: seq<Event>, k: nat, j: nat) returns (l: nat)
    requires k < |Attempt(log)| == |Places(log)| && Places(log)[k] < j < |log|
    ensures !StartsAfresh(log[j])
    ensures log[j].Entered? ==> k < l < |Attempt(log)| && Places(log)[l] == j && log[j].entry == Attempt(log)[l]
  {
    hide Attempt, Places;
    PlacesHoldAttempt(log);
    assert Places(log)[0] <= Places(log)[k];
    if log[j].Entered? {
      l :| 0 <= l < |Places(log)| && Places(log)[l] == j;
    } else {
      l := 0;
    }
  }

  lemma ThreePlaces(log: seq<Event>, k: nat)
    requires k + 2 < |Attempt(log)|
    ensures var n, ps := |Attempt(log)|, Places(log);
      && |ps| == n && ps[k] < ps[n - 2] < ps[n - 1] < |log| && log[ps[k]] == Entered(Attempt(log)[k])
      && log[ps[n - 2]] == Entered(Attempt(log)[n - 2]) && log[ps[n - 1]] == Entered(Attempt(log)[n - 1])
  {
    hide Attempt, Places;
    PlacesHoldAttempt(log);
  }

  /** Where the entries stand that call for a reset. */
  lemma EntriesInPlace(log: seq<Event>, puk: string, pin: string) returns (p: nat, q: nat, r: nat)
    requires CallForReset(Attempt(log), puk, pin)
    ensures p < q < r < |log|
    ensures log[p] == Entered(Entry(PukStep, puk)) && log[r] == Entered(Entry(ConfirmStep, pin))
    ensures log[q] == Entered(Entry(NewPinStep, pin)) || log[q] == Entered(Entry(ConfirmStep, pin))
    ensures forall j :: p < j < |log| ==> !StartsAfresh(log[j])
    ensures forall j :: p < j < |log| && log[j].Entered? ==> log[j].entry.step != PukStep && (q < j ==> j == r)
  {
    hide Attempt, Places, LastPuk, StartsAfresh;
    var entries, places := Attempt(log), Places(log);
    ResetRepeatsEntries(entries, puk, pin);
    var n := |entries|;
    var k: nat :| k < n - 2 && entries[k] == Entry(PukStep, puk) && forall l :: k < l < n ==> entries[l].step != PukStep;
    ThreePlaces(log, k);
    p, q, r := places[k], places[n - 2], places[n - 1];
    forall j | p < j < |log|
      ensures !StartsAfresh(log[j]) && (log[j].Entered? ==> log[j].entry.step != PukStep)
    {
      var l := BehindPlace(log, k, j);
    }
    forall j | q < j < |log| && log[j].Entered? ensures j == r {
      var l := BehindPlace(log, n - 2, j);
    }
  }

  /** A session is open for a modem since it began with that modem, and none began or ended since. */
  lemma {:induction false} SessionStands(log: seq<Event>) returns (b: int)
    ensures Session(log).Some? ==>
              0 <= b < |log| && log[b] == Began(Session(log).value) && forall j :: b < j < |log| ==> !log[j].Began? && !log[j].Ended?
    ensures Session(log).None? ==>
              -1 <= b < |log| && (b >= 0 ==> log[b].Ended?) && forall j :: b < j < |log| ==> !log[j].Began? && !log[j].Ended?
  {
    b := -1;
    if log != [] {
      var before := log[..|log| - 1];
      b := SessionStands(before);
      assert forall j :: 0 <= j < |before| ==> log[j] == before[j];
      if log[|log| - 1].Began? || log[|log| - 1].Ended? {
        b := |log| - 1;
      }
    }
  }

  /** In any run, a session begins only when every earlier one has ended. */
  lemma BeginsWhenFree(log: seq<Event>, b: nat, i: nat) returns (e: nat)
    requires AllLawful(log) && b < i < |log| && log[b].Began? && log[i].Began?
    ensures b < e < i && log[e].Ended?
  {
    hide Session, AllLawful;
    LawfulThroughout(log, i);
    var last := SessionStands(log[..i]);
    assert log[..i][b] == log[b];
    e := last;
  }

  /**
    * In any run, a PIN that is sent is the last entry made, in the PIN step of a session that began with the modem it
    * is sent to, and that has not ended since.
    */
  lemma PinWasEntered(log: seq<Event>, i: nat) returns (b: nat, p: nat)
    requires AllLawful(log) && i < |log| && log[i].SentPin?
    ensures b < p < i && log[b] == Began(log[i].to) && log[p] == Entered(Entry(PinStep, log[i].pin))
    ensures forall j :: b < j < i ==> !log[j].Began? && !log[j].Ended?
    ensures forall j :: p < j < i ==> !log[j].Entered? && !log[j].ResetFailed?
  {
    hide Session, Attempt, AllLawful, Places;
    LawfulThroughout(log, i);
    var before := log[..i];
    assert forall j :: 0 <= j < i ==> before[j] == log[j];
    PlacesHoldAttempt(before);
    var n := |Attempt(before)| - 1;
    p := Places(before)[n];
    forall j | p < j < i ensures !log[j].Began? && !log[j].Ended? && !log[j].Entered? && !log[j].ResetFailed? {
      var l := BehindPlace(before, n, j);
    }
    b := SessionStands(before);
  }

  /**
    * In any run, a PIN reset carries the last PUK that was entered and a new PIN that was then entered twice, and last;
    * the session, which began with the modem it is sent to, has not ended since, and no PUK was rejected since that
    * PUK entry.
    */
  lemma ResetCarriesEntries(log: seq<Event>, i: nat) returns (b: nat, p: nat, q: nat, r: nat)
    requires AllLawful(log) && i < |log| && log[i].SentReset?
    ensures b < p < q < r < i && log[b] == Began(log[i].to)
    ensures log[p] == Entered(Entry(PukStep, log[i].puk)) && log[r] == Entered(Entry(ConfirmStep, log[i].pin))
    ensures log[q] == Entered(Entry(NewPinStep, log[i].pin)) || log[q] == Entered(Entry(ConfirmStep, log[i].pin))
    ensures forall j :: b < j < i ==> !log[j].Began? && !log[j].Ended?
    ensures forall j :: p < j < i ==> !log[j].ResetFailed?
    ensures forall j :: p < j < i && log[j].Entered? ==> log[j].entry.step != PukStep && (q < j ==> j == r)
  {
    hide Session, Attempt, CallForReset, AllLawful;
    LawfulThroughout(log, i);
    var before := log[..i];
    assert forall j :: 0 <= j < i ==> before[j] == log[j];
    p, q, r := EntriesInPlace(before, log[i].puk, log[i].pin);
    assert forall j :: p < j < i ==> !StartsAfresh(before[j]);
    b := SessionStands(before);
  }

  // ---------- the dialog ----------

  datatype State = Ready | Unlocking

  datatype EnterPinState = Initial | EnterPin | EnterPuk | EnterNewPin | ConfirmNewPin

  datatype Signal = RequiredPinUpdated | RetriesUpdated | EnterPinSucceeded | ResetPinSucceeded | EnterPinFailed | ResetPinFailed

  datatype Connection = Connection(sender: Modem, signal: Signal)

  function AllSignals(m: Modem): seq<Connection> {
    [
      Connection(m, RequiredPinUpdated), Connection(m, RetriesUpdated),
      Connection(m, EnterPinSucceeded), Connection(m, ResetPinSucceeded),
      Connection(m, EnterPinFailed), Connection(m, ResetPinFailed)
    ]
  }

  lemma AllSignalsConnected(m: Modem)
    ensures forall s: Signal :: Connection(m, s) in AllSignals(m)
    ensures forall i :: 0 <= i < |AllSignals(m)| ==> AllSignals(m)[i].sender == m
  {
    var r := AllSignals(m);
    forall s: Signal ensures Connection(m, s) in r {
      match s {
        case RequiredPinUpdated => assert r[0] == Connection(m, s);
        case RetriesUpdated => assert r[1] == Connection(m, s);
        case EnterPinSucceeded => assert r[2] == Connection(m, s);
        case ResetPinSucceeded => assert r[3] == Connection(m, s);
        case EnterPinFailed => assert r[4] == Connection(m, s);
        case ResetPinFailed => assert r[5] == Connection(m, s);
      }
    }
  }

  ghost function Beginning(modem: Modem?): seq<Event> {
    if modem == null then [] else [Began(modem)]
  }

  class SimUnlockDialog {
    var enterPinState: EnterPinState
    var state: State
    var modem: Modem?
    var newPin: string
    var pukCode: string
    var connections: seq<Connection>
    var doCleanUp: bool
    var manager: UnlockManager?  // receives the ready signal
    var log: seq<Event>  // the calls to modems, and what led to them

    /** There is no modem exactly while the dialog is ready and its PIN state is initial; only its modem is listened to. */
    ghost predicate Coherent()
      reads this`modem, this`state, this`enterPinState, this`connections
    {
      && (modem == null <==> state == Ready)
      && (modem == null <==> enterPinState == Initial)
      && (if modem == null then connections == [] else forall s: Signal :: Connection(modem, s) in connections)
      && (forall i :: 0 <= i < |connections| ==> connections[i].sender == modem)
    }

    /** What is kept of the entries is what the log says about the current attempt. */
    ghost predicate Remembered()
      reads this`log, this`modem, this`enterPinState, this`pukCode, this`newPin
    {
      && AllLawful(log)
      && Session(log) == (if modem == null then None else Some(modem))
      && match enterPinState
         case EnterNewPin => LastPuk(Attempt(log)) == Some(pukCode) && newPin == ""
         case ConfirmNewPin => LastPuk(Attempt(log)) == Some(pukCode) && ChoseLast(Attempt(log), newPin)
         case _ => pukCode == "" && newPin == ""
    }

    /** The manager, if there is one yet, belongs to this dialog, and its queue is in order. */
    ghost predicate Linked()
      reads this`manager, manager
    {
      manager != null ==> manager.dialog == this && manager.Queue()
    }

    /** The modem at work does not wait in the queue as well. */
    ghost predicate Separate()
      reads this`modem, this`manager, manager
    {
      manager != null && modem != null ==> modem !in manager.pendingUnlocks
    }

    /** The state between two events. */
    ghost predicate Valid()
      reads this, manager
    {
      Coherent() && Remembered() && Linked() && Separate() && doCleanUp
    }

    ghost function Listener(): set<UnlockManager>
      reads this`manager
    {
      if manager == null then {} else {manager}
    }

    ghost function Waiting(): seq<Modem>
      reads this`manager, manager
    {
      if manager == null then [] else manager.pendingUnlocks
    }

    constructor ()
      ensures Valid() && modem == null && manager == null
    {
      enterPinState, state, modem, newPin, pukCode := Initial, Ready, null, "", "";
      connections, doCleanUp, manager, log := [], true, null, [];
      new;
      Reset();
    }

    /** Forgets the modem, the entries and, unless told otherwise, the connections. */
    method Forget()
      requires AllLawful(log) && (doCleanUp || connections == [])
      modifies this`connections, this`modem, this`newPin, this`pukCode, this`enterPinState, this`state, this`log
      ensures Coherent() && Remembered() && modem == null && log == old(log) + [Ended]
    {
      hide AllLawful, Session, Attempt, LastPuk;
      if doCleanUp {
        connections := [];
      }
      modem := null;
      newPin := "";
      pukCode := "";
      enterPinState := Initial;
      state := Ready;
      Logged(log, Ended);
      log := log + [Ended];
    }

    /** Between events the dialog is ready exactly if it has no modem, and listens to its modem alone, for every signal. */
    lemma ValidMeans()
      requires Valid()
      ensures modem == null <==> state == Ready
      ensures modem == null <==> enterPinState == Initial
      ensures modem == null ==> connections == []
      ensures forall c <- connections :: c.sender == modem
      ensures modem != null ==> forall s: Signal :: Connection(modem, s) in connections
      ensures manager != null && modem != null ==> modem !in manager.pendingUnlocks
    {
    }

    /** Ends the session, and lets the next modem in the queue begin one, if that modem needs unlocking. */
    method Reset()
      requires Linked() && AllLawful(log) && (doCleanUp || connections == [])
      modifies this, Listener()`pendingUnlocks, Listener()`served
      ensures Valid() && manager == old(manager)
      ensures Waiting() == if old(Waiting()) == [] then [] else old(Waiting())[1..]
      ensures modem == if old(Waiting()) != [] && old(Waiting())[0].requiredPin != NoPin then old(Waiting())[0] else null
      ensures log == old(log) + [Ended] + Beginning(modem)
      decreases Waiting(), 2
    {
      hide AllLawful, Coherent, Remembered, UnlockManager.Queue;
      Forget();
      doCleanUp := false;
      if manager != null {
        manager.SimUnlockReady();
      }
      doCleanUp := true;
    }

    /** Begins a session, unless there is one; a modem that needs no PIN ends it at once. */
    method Unlock(m: Modem)
      requires Coherent() && Remembered() && Linked() && Separate() && (doCleanUp || modem == null)
      requires m !in Waiting()
      modifies this, Listener()`pendingUnlocks, Listener()`served
      ensures Coherent() && Remembered() && Linked() && Separate() && (old(doCleanUp) ==> doCleanUp) && manager == old(manager)
      ensures old(modem) != null ==> unchanged(this) && unchanged(Listener())
      ensures old(modem) == null && m.requiredPin != NoPin ==>
                && modem == m && unchanged(Listener()) && log == old(log) + [Began(m)]
                && enterPinState == if m.requiredPin == Pin then EnterPin else EnterPuk
      ensures old(modem) == null && m.requiredPin == NoPin ==>
                && Waiting() == (if old(Waiting()) == [] then [] else old(Waiting())[1..])
                && log == old(log) + [Began(m), Ended] + Beginning(modem)
      decreases Waiting(), 3
    {
      hide AllLawful, Session, Attempt, LastPuk, UnlockManager.Queue, AllSignals;
      if modem != null {
        return;
      }
      modem := m;
      state := Unlocking;
      Logged(log, Began(m));
      log := log + [Began(m)];
      match m.requiredPin {
        case NoPin =>
          Reset();
          return;
        case Pin =>
          enterPinState := EnterPin;
        case Puk =>
          enterPinState := EnterPuk;
      }
      AllSignalsConnected(m);
      connections := connections + AllSignals(m);
      Update();
    }

    /** A modem that now asks for the PUK moves the dialog from the PIN step to the PUK step. */
    method Update()
      requires Coherent() && Remembered()
      modifies this`enterPinState
      ensures Coherent() && Remembered()
      ensures enterPinState ==
        if modem != null && old(enterPinState) == EnterPin && modem.requiredPin == Puk then EnterPuk else old(enterPinState)
    {
      if modem == null {
        return;
      }
      if enterPinState == EnterPin && modem.requiredPin == Puk {
        enterPinState := EnterPuk;
      }
    }

    /** An entry is made in some step. */
    method Record(step: Step, text: string)
      requires AllLawful(log) && Session(log).Some?
      modifies this`log
      ensures log == old(log) + [Entered(Entry(step, text))] && AllLawful(log) && Session(log) == old(Session(log))
      ensures Attempt(log) == old(Attempt(log)) + [Entry(step, text)]
      ensures LastPuk(Attempt(log)) == if step == PukStep then Some(text) else old(LastPuk(Attempt(log)))
    {
      Logged(log, Entered(Entry(step, text)));
      LastPukAppended(Attempt(log), Entry(step, text));
      log := log + [Entered(Entry(step, text))];
    }

    method SendEnterPin(pin: string)
      requires modem != null && AllLawful(log) && Lawful(log, SentPin(modem, pin))
      modifies this`log
      ensures log == old(log) + [SentPin(modem, pin)] && AllLawful(log)
      ensures Session(log) == old(Session(log)) && Attempt(log) == old(Attempt(log))
    {
      Logged(log, SentPin(modem, pin));
      log := log + [SentPin(modem, pin)];
    }

    method SendResetPin(puk: string, pin: string)
      requires modem != null && AllLawful(log) && Lawful(log, SentReset(modem, puk, pin))
      modifies this`log
      ensures log == old(log) + [SentReset(modem, puk, pin)] && AllLawful(log)
      ensures Session(log) == old(Session(log)) && Attempt(log) == old(Attempt(log))
    {
      Logged(log, SentReset(modem, puk, pin));
      log := log + [SentReset(modem, puk, pin)];
    }

    /** The user enters a text. */
    method PinEntered(pin: string)
      requires Valid()
      modifies this`enterPinState, this`newPin, this`pukCode, this`log
      ensures Valid()
      ensures match old(enterPinState)
        case Initial => unchanged(this)
        case EnterPin =>
          && enterPinState == EnterPin
          && log == old(log) + [Entered(Entry(PinStep, pin)), SentPin(modem, pin)]
        case EnterPuk =>
          && enterPinState == EnterNewPin
          && log == old(log) + [Entered(Entry(PukStep, pin))]
        case EnterNewPin =>
          && enterPinState == ConfirmNewPin
          && log == old(log) + [Entered(Entry(NewPinStep, pin))]
        case ConfirmNewPin =>
          if pin == old(newPin) then
            && enterPinState == ConfirmNewPin
            && log == old(log) + [Entered(Entry(ConfirmStep, pin)), SentReset(modem, pukCode, pin)]
          else
            && enterPinState == EnterNewPin
            && log == old(log) + [Entered(Entry(ConfirmStep, pin))]
    {
      hide AllLawful, Session, Attempt, LastPuk;
      match enterPinState {
        case Initial =>
        case EnterPin =>
          Record(PinStep, pin);
          SendEnterPin(pin);
        case EnterPuk =>
          Record(PukStep, pin);
          pukCode := pin;
          enterPinState := EnterNewPin;
          Update();
        case EnterNewPin =>
          Record(NewPinStep, pin);
          newPin := pin;
          enterPinState := ConfirmNewPin;
          Update();
        case ConfirmNewPin =>
          Record(ConfirmStep, pin);
          if newPin != pin {
            enterPinState := EnterNewPin;
            newPin := "";
            Update();
          } else {
            SendResetPin(pukCode, pin);
          }
      }
    }

    /** The modem accepted what was sent. */
    method PinSuccess()
      requires Valid()
      modifies this, Listener()`pendingUnlocks, Listener()`served
      ensures Valid() && manager == old(manager)
      ensures Waiting() == if old(Waiting()) == [] then [] else old(Waiting())[1..]
      ensures modem == if old(Waiting()) != [] && old(Waiting())[0].requiredPin != NoPin then old(Waiting())[0] else null
      ensures log == old(log) + [Ended] + Beginning(modem)
    {
      Reset();
    }

    /** The user closes the dialog. */
    method Cancelled()
      requires Valid()
      modifies this, Listener()`pendingUnlocks, Listener()`served
      ensures Valid() && manager == old(manager)
      ensures Waiting() == if old(Waiting()) == [] then [] else old(Waiting())[1..]
      ensures modem == if old(Waiting()) != [] && old(Waiting())[0].requiredPin != NoPin then old(Waiting())[0] else null
      ensures log == old(log) + [Ended] + Beginning(modem)
    {
      Reset();
    }

    /** The modem rejected the PUK: the user starts again with the PUK, and nothing entered so far is kept. */
    method OnResetPinFailed()
      requires Valid() && modem != null
      modifies this`enterPinState, this`newPin, this`pukCode, this`log
      ensures Valid() && enterPinState == EnterPuk && log == old(log) + [ResetFailed] && Attempt(log) == []
    {
      hide AllLawful, Session, Attempt, LastPuk;
      Logged(log, ResetFailed);
      log := log + [ResetFailed];
      enterPinState := EnterPuk;
      pukCode := "";
      newPin := "";
      Update();
    }

    /** A modem emits a signal; only the modem at work is heard. */
    method Deliver(sender: Modem, signal: Signal)
      requires Valid()
      modifies this, Listener()`pendingUnlocks, Listener()`served
      ensures Valid() && manager == old(manager)
      ensures sender != old(modem) ==> unchanged(this) && unchanged(Listener())
      ensures sender == old(modem) ==>
        if signal in {EnterPinSucceeded, ResetPinSucceeded} then
          && Waiting() == (if old(Waiting()) == [] then [] else old(Waiting())[1..])
          && log == old(log) + [Ended] + Beginning(modem)
        else
          && modem == old(modem) && unchanged(Listener())
          && (signal == ResetPinFailed ==> enterPinState == EnterPuk && log == old(log) + [ResetFailed])
          && (signal != ResetPinFailed ==>
                && log == old(log) && newPin == old(newPin) && pukCode == old(pukCode)
                && enterPinState ==
                     if old(enterPinState) == EnterPin && sender.requiredPin == Puk then EnterPuk else old(enterPinState))
    {
      hide Remembered, Linked;
      if Connection(sender, signal) in connections {
        match signal {
          case RequiredPinUpdated => Update();
          case RetriesUpdated => Update();
          case EnterPinSucceeded => PinSuccess();
          case ResetPinSucceeded => PinSuccess();
          case EnterPinFailed => Update();
          case ResetPinFailed => OnResetPinFailed();
        }
      }
    }
  }

  /** The modems of a queue whose names are still known, in order. */
  function Still(queue: seq<Modem>, names: set<string>): seq<Modem> {
    if queue == [] then [] else (if queue[0].name in names then [queue[0]] else []) + Still(queue[1..], names)
  }

  lemma {:induction false} StillAll(queue: seq<Modem>, names: set<string>)
    requires forall m <- queue :: m.name in names
    ensures Still(queue, names) == queue
  {
    if queue != [] {
      StillAll(queue[1..], names);
    }
  }

  /** Only the names in the queue matter. */
  lemma {:induction false} StillSame(queue: seq<Modem>, a: set<string>, b: set<string>)
    requires forall m <- queue :: m.name in a <==> m.name in b
    ensures Still(queue, a) == Still(queue, b)
  {
    if queue != [] {
      StillSame(queue[1..], a, b);
    }
  }

  /** Exactly the modems whose names are known stay. */
  lemma {:induction false} StillMembers(queue: seq<Modem>, names: set<string>)
    ensures forall m <- Still(queue, names) :: m in queue && m.name in names
    ensures forall m <- queue :: m.name in names ==> m in Still(queue, names)
  {
    if queue != [] {
      StillMembers(queue[1..], names);
      assert queue == [queue[0]] + queue[1..];
    }
  }

  /** Those that stay keep their order. */
  lemma {:induction false} StillInOrder(queue: seq<Modem>, names: set<string>, i: nat, j: nat) returns (k: nat, l: nat)
    requires i < j < |Still(queue, names)|
    ensures k < l < |queue| && queue[k] == Still(queue, names)[i] && queue[l] == Still(queue, names)[j]
  {
    var t := Still(queue[1..], names);
    if queue[0].name !in names {
      k, l := StillInOrder(queue[1..], names, i, j);
      k, l := k + 1, l + 1;
    } else if i > 0 {
      k, l := StillInOrder(queue[1..], names, i - 1, j - 1);
      k, l := k + 1, l + 1;
    } else {
      StillMembers(queue[1..], names);
      assert t[j - 1] in t;
      var n :| 0 <= n < |queue| - 1 && queue[1..][n] == t[j - 1];
      k, l := 0, n + 1;
    }
  }

  /** Removing a waiting modem leaves those with other names. */
  lemma {:induction false} StillWithout(queue: seq<Modem>, names: set<string>, modem: Modem)
    requires modem.name in names && forall m <- queue :: m.name == modem.name ==> m == modem
    ensures Without(Still(queue, names), modem) == Still(queue, names - {modem.name})
  {
    if queue != [] {
      StillWithout(queue[1..], names, modem);
      WithoutConcat(if queue[0].name in names then [queue[0]] else [], Still(queue[1..], names), modem);
    }
  }

  /** The part of the manager that unlocks modems; it knows them by name. */
  class UnlockManager {
    const dialog: SimUnlockDialog
    var ofonoLinks: map<string, Modem>
    var pendingUnlocks: seq<Modem>
    ghost var tickets: map<Modem, nat>  // the number under which each modem joined the queue last
    ghost var nextTicket: nat
    ghost var served: seq<nat>          // the numbers taken from the front of the queue

    /** Links are kept by name. */
    ghost predicate ByName()
      reads this`ofonoLinks
    {
      forall k <- ofonoLinks :: ofonoLinks[k].name == k
    }

    /** No modem waits twice, and all that wait are known. */
    ghost predicate Known()
      reads this`ofonoLinks, this`pendingUnlocks
    {
      && Distinct(pendingUnlocks)
      && forall i :: 0 <= i < |pendingUnlocks| ==>
           pendingUnlocks[i].name in ofonoLinks && ofonoLinks[pendingUnlocks[i].name] == pendingUnlocks[i]
    }

    /** First come, first served: the modems wait in the order in which they came, and all served came before them. */
    ghost predicate InTurn()
      reads this`pendingUnlocks, this`tickets, this`nextTicket, this`served
    {
      && (forall i :: 0 <= i < |pendingUnlocks| ==> pendingUnlocks[i] in tickets)
      && (forall i :: 0 <= i < |pendingUnlocks| ==> tickets[pendingUnlocks[i]] < nextTicket)
      && (forall i, j :: 0 <= i < j < |pendingUnlocks| ==> tickets[pendingUnlocks[i]] < tickets[pendingUnlocks[j]])
      && (forall i, j :: 0 <= i < j < |served| ==> served[i] < served[j])
      && (forall i :: 0 <= i < |served| ==> served[i] < nextTicket)
      && forall i, j :: 0 <= i < |served| && 0 <= j < |pendingUnlocks| ==> served[i] < tickets[pendingUnlocks[j]]
    }

    ghost predicate Queue()
      reads this
    {
      ByName() && Known() && InTurn()
    }

    /** Nobody waits twice; all that wait are known; and they wait in the order in which they joined, after all served. */
    lemma QueueMeans()
      requires Queue()
      ensures forall i, j :: 0 <= i < j < |pendingUnlocks| ==> pendingUnlocks[i] != pendingUnlocks[j]
      ensures forall m <- pendingUnlocks :: m.name in ofonoLinks && ofonoLinks[m.name] == m
      ensures forall m <- pendingUnlocks :: m in tickets && forall i :: 0 <= i < |served| ==> served[i] < tickets[m]
      ensures forall i, j :: 0 <= i < j < |pendingUnlocks| ==>
                pendingUnlocks[i] in tickets && pendingUnlocks[j] in tickets && tickets[pendingUnlocks[i]] < tickets[pendingUnlocks[j]]
      ensures forall i, j :: 0 <= i < j < |served| ==> served[i] < served[j]
    {
    }

    constructor (dialog: SimUnlockDialog)
      requires dialog.Valid() && dialog.manager == null && dialog.modem == null
      modifies dialog`manager
      ensures dialog.manager == this && dialog.Valid() && this.dialog == dialog
      ensures ofonoLinks == map[] && pendingUnlocks == []
    {
      this.dialog := dialog;
      ofonoLinks, pendingUnlocks, tickets, nextTicket, served := map[], [], map[], 0, [];
      new;
      dialog.manager := this;
    }

    /** The dialog is free: the first modem in the queue has its turn. */
    method SimUnlockReady()
      requires dialog.manager == this && dialog.modem == null
      requires dialog.Coherent() && dialog.Remembered() && Queue()
      modifies this`pendingUnlocks, this`served, dialog
      ensures dialog.manager == this && dialog.Coherent() && dialog.Remembered() && Queue() && dialog.Separate()
      ensures pendingUnlocks == if old(pendingUnlocks) == [] then [] else old(pendingUnlocks)[1..]
      ensures dialog.modem ==
        if old(pendingUnlocks) != [] && old(pendingUnlocks)[0].requiredPin != NoPin then old(pendingUnlocks)[0] else null
      ensures dialog.log == old(dialog.log) + Beginning(dialog.modem)
      ensures served == if old(pendingUnlocks) == [] then old(served) else old(served) + [tickets[old(pendingUnlocks)[0]]]
      decreases pendingUnlocks, 1
    {
      if pendingUnlocks != [] {
        var modem := pendingUnlocks[0];
        served := served + [tickets[modem]];
        pendingUnlocks := pendingUnlocks[1..];
        if modem.requiredPin != NoPin {
          dialog.Unlock(modem);
        }
      }
    }

    /** Takes a modem out of the queue. */
    method RemoveOne(modem: Modem)
      requires Known() && InTurn()
      modifies this`pendingUnlocks
      ensures Known() && InTurn() && pendingUnlocks == Without(old(pendingUnlocks), modem) && modem !in pendingUnlocks
    {
      hide Without, Still, Distinct;
      WithoutDistinctMembers(pendingUnlocks, modem);
      if modem in pendingUnlocks {
        ghost var k :| 0 <= k < |pendingUnlocks| && pendingUnlocks[k] == modem;
        WithoutDistinct(pendingUnlocks, k);
        assert forall i :: 0 <= i < |pendingUnlocks| - 1 ==>
          Without(pendingUnlocks, modem)[i] == pendingUnlocks[if i < k then i else i + 1];
        pendingUnlocks := Without(pendingUnlocks, modem);
      } else {
        WithoutAbsent(pendingUnlocks, modem);
      }
    }

    /** Forgets the modem with a name. */
    method Take(path: string)
      requires Queue() && path in ofonoLinks
      modifies this`ofonoLinks, this`pendingUnlocks
      ensures Queue() && ofonoLinks == old(ofonoLinks) - {path}
      ensures pendingUnlocks == Without(old(pendingUnlocks), old(ofonoLinks)[path])
    {
      hide InTurn;
      var modem := ofonoLinks[path];
      RemoveOne(modem);
      assert forall i :: 0 <= i < |pendingUnlocks| ==> pendingUnlocks[i] in pendingUnlocks;
      ofonoLinks := ofonoLinks - {path};
    }

    /** Forgets the modems with some names, also those that wait. */
    method Forget(names: set<string>)
      requires Queue() && names <= ofonoLinks.Keys
      modifies this`ofonoLinks, this`pendingUnlocks
      ensures Queue() && ofonoLinks == old(ofonoLinks) - names
      ensures pendingUnlocks == Still(old(pendingUnlocks), old(ofonoLinks).Keys - names)
    {
      hide InTurn, Still, Without;
      var toRemove := names;
      StillAll(pendingUnlocks, ofonoLinks.Keys);
      while toRemove != {}
        invariant toRemove <= names && ofonoLinks == old(ofonoLinks) - (names - toRemove)
        invariant Queue()
        invariant pendingUnlocks == Still(old(pendingUnlocks), ofonoLinks.Keys)
      {
        var path :| path in toRemove;
        StillWithout(old(pendingUnlocks), ofonoLinks.Keys, ofonoLinks[path]);
        assert ofonoLinks.Keys - {path} == (ofonoLinks - {path}).Keys;
        Take(path);
        toRemove := toRemove - {path};
      }
      assert ofonoLinks.Keys == old(ofonoLinks).Keys - names;
    }

    /** Makes a modem for each new name. */
    method Meet(names: set<string>)
      requires Queue() && names !! ofonoLinks.Keys
      modifies this`ofonoLinks
      ensures Queue() && ofonoLinks.Keys == old(ofonoLinks).Keys + names && ofonoLinks - names == old(ofonoLinks)
    {
      hide InTurn, Still, Without;
      var toAdd := names;
      while toAdd != {}
        invariant Queue() && toAdd <= names && ofonoLinks.Keys == old(ofonoLinks).Keys + (names - toAdd)
        invariant ofonoLinks - names == old(ofonoLinks)
      {
        var path :| path in toAdd;
        var modem := new Modem(path);
        ofonoLinks := ofonoLinks[path := modem];
        toAdd := toAdd - {path};
      }
    }

    /** Forgets the modems that are gone and meets those that are new; the dialog's own session goes on. */
    method ModemsChanged(value: set<string>)
      requires dialog.manager == this && dialog.Valid()
      modifies this`ofonoLinks, this`pendingUnlocks
      ensures dialog.manager == this && dialog.Valid() && ofonoLinks.Keys == value
      ensures forall k <- value :: k in old(ofonoLinks) ==> ofonoLinks[k] == old(ofonoLinks)[k]
      ensures forall m <- pendingUnlocks :: m in old(pendingUnlocks) && m.name in value
      ensures forall m <- old(pendingUnlocks) :: m.name in value ==> m in pendingUnlocks
      ensures forall i, j, k, l | 0 <= i < j < |pendingUnlocks| && 0 <= k < |old(pendingUnlocks)| && 0 <= l < |old(pendingUnlocks)| ::
                pendingUnlocks[i] == old(pendingUnlocks)[k] && pendingUnlocks[j] == old(pendingUnlocks)[l] ==> k < l
    {
      hide InTurn, Still, Without, SimUnlockDialog.Remembered, SimUnlockDialog.Coherent;
      ghost var before := pendingUnlocks;
      StillMembers(before, value);
      StillSame(pendingUnlocks, value, ofonoLinks.Keys * value);
      assert ofonoLinks.Keys - (ofonoLinks.Keys - value) == ofonoLinks.Keys * value;
      var toAdd := value - ofonoLinks.Keys;
      Forget(ofonoLinks.Keys - value);
      assert pendingUnlocks == Still(old(pendingUnlocks), value);
      Meet(toAdd);
      forall i, j, k, l | 0 <= i < j < |pendingUnlocks| && 0 <= k < |before| && 0 <= l < |before|
                          && pendingUnlocks[i] == before[k] && pendingUnlocks[j] == before[l]
        ensures k < l
      {
        var m, n := StillInOrder(before, value, i, j);
      }
    }

    /** Unlocks a known modem at once if the dialog is free and nobody waits; otherwise the modem waits its turn. */
    method UnlockModem(modem: Modem)
      requires dialog.manager == this && dialog.Valid()
      modifies this`pendingUnlocks, this`served, this`tickets, this`nextTicket, dialog, modem`shouldTriggerUnlock
      ensures dialog.manager == this && dialog.Valid() && served == old(served)
      ensures modem in ofonoLinks.Values ==> dialog.modem == modem || modem in pendingUnlocks || modem.shouldTriggerUnlock
      ensures modem !in ofonoLinks.Values || old(dialog.modem == modem || modem in pendingUnlocks) ==>
                unchanged(this) && unchanged(dialog) && unchanged(modem)
      ensures old(dialog.modem) != null || old(pendingUnlocks) != [] ==>
                && unchanged(dialog) && unchanged(modem)
                && (modem in ofonoLinks.Values && !old(dialog.modem == modem || modem in pendingUnlocks) ==>
                      pendingUnlocks == old(pendingUnlocks) + [modem] && tickets == old(tickets)[modem := old(nextTicket)])
      ensures old(dialog.modem) == null && old(pendingUnlocks) == [] ==>
                pendingUnlocks == [] && dialog.modem in {null, modem}
      ensures modem.shouldTriggerUnlock <==>
        || old(modem.shouldTriggerUnlock)
        || (old(dialog.modem) == null && old(pendingUnlocks) == [] && modem in ofonoLinks.Values
            && !(modem.statusKnown && modem.requiredPin != NoPin))
      ensures old(dialog.modem) == null && old(pendingUnlocks) == [] && modem in ofonoLinks.Values ==>
                if modem.statusKnown && modem.requiredPin != NoPin then dialog.modem == modem else dialog.modem == null && modem.shouldTriggerUnlock
    {
      hide SimUnlockDialog.Remembered, Still, Without;
      if modem !in ofonoLinks.Values || dialog.modem == modem || modem in pendingUnlocks {
        return;
      }
      if dialog.state == Ready && |pendingUnlocks| == 0 {
        if modem.IsReadyToUnlock() {
          dialog.Unlock(modem);
        } else {
          modem.shouldTriggerUnlock := true;
        }
      } else {
        tickets, nextTicket := tickets[modem := nextTicket], nextTicket + 1;
        pendingUnlocks := pendingUnlocks + [modem];
      }
    }

    /** Afterwards every modem is at work, waits, or announces itself when it is ready. */
    method UnlockAllModems()
      requires dialog.manager == this && dialog.Valid()
      modifies this`pendingUnlocks, this`served, this`tickets, this`nextTicket, dialog
      modifies (set k | k in ofonoLinks :: ofonoLinks[k])`shouldTriggerUnlock
      ensures dialog.manager == this && dialog.Valid() && served == old(served)
      ensures forall k <- ofonoLinks ::
                var m := ofonoLinks[k]; dialog.modem == m || m in pendingUnlocks || m.shouldTriggerUnlock
    {
      var names := ofonoLinks.Keys;
      while names != {}
        invariant names <= ofonoLinks.Keys && dialog.manager == this && dialog.Valid() && served == old(served)
        invariant forall k <- ofonoLinks.Keys - names ::
          var m := ofonoLinks[k]; dialog.modem == m || m in pendingUnlocks || m.shouldTriggerUnlock
      {
        var k :| k in names;
        UnlockModem(ofonoLinks[k]);
        names := names - {k};
      }
    }

    /** A modem that waited to become ready announces itself. */
    method FireUpdate(modem: Modem)
      requires dialog.manager == this && dialog.Valid()
      modifies this`pendingUnlocks, this`served, this`tickets, this`nextTicket, dialog, modem`shouldTriggerUnlock
      modifies (if modem.name in ofonoLinks then {ofonoLinks[modem.name]} else {})`shouldTriggerUnlock
      ensures dialog.manager == this && dialog.Valid() && served == old(served)
      ensures old(modem.statusKnown && modem.requiredPin != NoPin && modem.shouldTriggerUnlock) && modem in ofonoLinks.Values ==>
                (dialog.modem == modem || modem in pendingUnlocks) && !modem.shouldTriggerUnlock
      ensures !old(modem.statusKnown && modem.requiredPin != NoPin && modem.shouldTriggerUnlock) ==>
                unchanged(this) && unchanged(dialog) && unchanged(modem)
    {
      if modem.IsReadyToUnlock() && modem.shouldTriggerUnlock {
        modem.shouldTriggerUnlock := false;
        assert modem in ofonoLinks.Values ==> modem.name in ofonoLinks && ofonoLinks[modem.name] == modem;
        if modem.name in ofonoLinks {
          UnlockModem(ofonoLinks[modem.name]);
        }
      }
    }
  }
}
