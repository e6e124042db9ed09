/** A VPN connection: batched settings, and the activation flags that the manager keeps coherent. */
module VpnConnections {
  import opened OptionType
  import opened VpnSettings
  import O = Openvpn
  import P = Pptp

  // ---------- settings ----------

  datatype Variant = Text(text: string) | Flag(flag: bool) | OpenvpnText(openvpn: OpenvpnMap) | PptpText(pptp: PptpMap)

  type Settings = map<string, map<string, Variant>>

  function Get(s: Settings, group: string, key: string): Option<Variant> {
    if group in s then Lookup(s[group], key) else None
  }

  function Put(s: Settings, group: string, key: string, v: Variant): (r: Settings)
    ensures forall g, k :: Get(r, g, k) == if g == group && k == key then Some(v) else Get(s, g, k)
  {
    s[group := (if group in s then s[group] else map[])[key := v]]
  }

  function TextOf(s: Settings, group: string, key: string): string {
    match Get(s, group, key)
    case Some(Text(text)) => text
    case _ => ""
  }

  function OpenvpnTextOf(s: Settings, key: string): OpenvpnMap {
    match Get(s, "vpn", key)
    case Some(OpenvpnText(m)) => m
    case _ => map[]
  }

  function PptpTextOf(s: Settings, key: string): PptpMap {
    match Get(s, "vpn", key)
    case Some(PptpText(m)) => m
    case _ => map[]
  }

  /** A setting is there if its group is there, with its key. */
  lemma GetMeans(s: Settings, group: string, key: string)
    ensures Get(s, group, key) == if group in s && key in s[group] then Some(s[group][key]) else None
  {
  }

  const DATA := ("vpn", "data")
  const SECRETS := ("vpn", "secrets")

  /** What is read where a text is looked for: that text, or nothing if something else is there. */
  lemma TextRead(s: Settings, group: string, key: string)
    ensures forall v :: Get(s, group, key) == Some(Text(v)) ==> TextOf(s, group, key) == v
    ensures Get(s, group, key) == Some(Text(TextOf(s, group, key))) || TextOf(s, group, key) == ""
  {
  }

  /** The same where a map of texts is looked for. */
  lemma MapRead(s: Settings, key: string)
    ensures forall m :: Get(s, "vpn", key) == Some(OpenvpnText(m)) ==> OpenvpnTextOf(s, key) == m
    ensures Get(s, "vpn", key) == Some(OpenvpnText(OpenvpnTextOf(s, key))) || OpenvpnTextOf(s, key) == map[]
    ensures forall m :: Get(s, "vpn", key) == Some(PptpText(m)) ==> PptpTextOf(s, key) == m
    ensures Get(s, "vpn", key) == Some(PptpText(PptpTextOf(s, key))) || PptpTextOf(s, key) == map[]
  {
  }

  /** The state of an ActiveConnection of NetworkManager. */
  datatype State = unknown | activating | activated | deactivating | deactivated

  function IsActiveState(s: State): bool {
    s == activating || s == activated
  }

  function IsBusyState(s: State): bool {
    s == activating || s == deactivating || s == deactivated
  }

  class VpnConnection {
    const path: string

    var settings: Settings
    var dirty: bool
    var pendingSettings: Settings
    var id: string
    var neverDefault: bool
    var valid: bool
    var openvpn: OpenvpnConnection?
    var pptp: PptpConnection?

    ghost var snapshot: Settings                 // the settings at the first write of the batch
    ghost var written: set<(string, string)>     // the keys the batch has written
    ghost var secretsBase: O.Data                // the OpenVPN settings at the last write of a secret

    var active: bool
    var busy: bool
    var activatable: bool
    var otherConnectionIsBusy: bool
    var otherActiveConnectionPath: string

    constructor (path: string, settings: Settings, openvpn: OpenvpnConnection?, pptp: PptpConnection?)
      requires (openvpn != null ==> !openvpn.dirty) && (pptp != null ==> !pptp.dirty)
      ensures this.path == path && this.settings == settings && this.openvpn == openvpn && this.pptp == pptp
      ensures Batched() && !dirty && !active && !busy
    {
      this.path, this.settings, this.openvpn, this.pptp := path, settings, openvpn, pptp;
      dirty, pendingSettings, id, neverDefault, valid := false, map[], "", false, false;
      snapshot, written, secretsBase := map[], {}, O.DEFAULT_DATA;
      active, busy, activatable, otherConnectionIsBusy, otherActiveConnectionPath := false, false, false, false, "";
    }

    /**
     * The batch: a dirty plugin object means a dirty connection; keys the batch has not written are as they were
     * at its first write; written settings are what the plugin's pending data print as, and written secrets what
     * they printed as when a secret was last written, the secret values being the same still.
     */
    ghost predicate Batched()
      reads this, openvpn, pptp
    {
      && (openvpn != null && openvpn.dirty ==> dirty)
      && (pptp != null && pptp.dirty ==> dirty)
      && (dirty ==> UnwrittenKept())
      && (dirty && DATA in written ==> PendingDataPrinted())
      && (dirty && SECRETS in written ==> PendingSecretsPrinted())
    }

    ghost predicate UnwrittenKept()
      reads this`written, this`pendingSettings, this`snapshot
    {
      forall g, k :: (g, k) !in written ==> Get(pendingSettings, g, k) == Get(snapshot, g, k)
    }

    ghost predicate PendingDataPrinted()
      reads this, openvpn, pptp
    {
      var pending := Get(pendingSettings, "vpn", "data");
      if openvpn != null then openvpn.dirty && pending == Some(OpenvpnText(O.PrintData(openvpn.pendingData)))
      else pptp != null && pptp.dirty && pending == Some(PptpText(P.PrintData(pptp.pendingData)))
    }

    ghost predicate PendingSecretsPrinted()
      reads this, openvpn, pptp
    {
      var pending := Get(pendingSettings, "vpn", "secrets");
      if openvpn != null then
        && openvpn.dirty && O.SameSecretValues(secretsBase, openvpn.pendingData)
        && pending == Some(OpenvpnText(O.PrintSecrets(secretsBase)))
      else pptp != null && pptp.dirty && pending == Some(PptpText(P.PrintSecrets(pptp.pendingData)))
    }

    /**
     * Written OpenVPN secrets are current exactly if the connection type is the one at the last write of a secret,
     * and the proxy type is too or there is no proxy password.
     */
    lemma SecretsCurrentIff()
      requires Batched() && dirty && openvpn != null && SECRETS in written
      ensures Get(pendingSettings, "vpn", "secrets") == Some(OpenvpnText(O.PrintSecrets(openvpn.pendingData)))
        <==> (openvpn.pendingData.basic.connectionType == secretsBase.basic.connectionType
              && (openvpn.pendingData.proxy.proxyType == secretsBase.proxy.proxyType
                  || openvpn.pendingData.proxy.proxyPassword == ""))
    {
      hide O.PrintSecrets;
      O.SecretsPrintAlikeIff(secretsBase, openvpn.pendingData);
    }

    /** The pending settings of the batch under way, or of the one that starts now. */
    ghost function Base(): Settings
      reads this`dirty, this`pendingSettings, this`settings
    {
      if dirty then pendingSettings else settings
    }

    /** The settings at the first write of the batch under way, or of the one that starts now. */
    ghost function BaseSnapshot(): Settings
      reads this`dirty, this`snapshot, this`settings
    {
      if dirty then snapshot else settings
    }

    ghost function OpenvpnObject(): set<OpenvpnConnection>
      reads this
    {
      if openvpn == null then {} else {openvpn}
    }

    ghost function PptpObject(): set<PptpConnection>
      reads this
    {
      if pptp == null then {} else {pptp}
    }

    /** The keys that this batch, or one that starts now, has written so far. */
    ghost function WrittenSoFar(): set<(string, string)>
      reads this`dirty, this`written
    {
      if dirty then written else {}
    }

    method SetDirty()
      modifies this`dirty, this`pendingSettings, this`snapshot, this`written
      ensures dirty && pendingSettings == old(Base()) && snapshot == old(BaseSnapshot()) && written == old(WrittenSoFar())
    {
      if dirty {
        return;
      }
      dirty := true;
      pendingSettings := settings;
      snapshot, written := settings, {};
    }

    /** One write of the batch: the settings of the first write with all written keys replaced. */
    method WritePending(group: string, key: string, v: Variant)
      modifies this`dirty, this`pendingSettings, this`snapshot, this`written
      ensures dirty && snapshot == old(BaseSnapshot()) && written == old(WrittenSoFar()) + {(group, key)}
      ensures pendingSettings == Put(old(Base()), group, key, v)
    {
      SetDirty();
      pendingSettings := Put(pendingSettings, group, key, v);
      written := written + {(group, key)};
    }

    /** Nothing of the batch changed since. */
    twostate predicate BatchUnchanged()
      reads this
    {
      && dirty == old(dirty) && pendingSettings == old(pendingSettings)
      && snapshot == old(snapshot) && written == old(written) && secretsBase == old(secretsBase)
    }

    method SetId(value: string)
      requires Batched()
      modifies this`dirty, this`pendingSettings, this`snapshot, this`written
      ensures Batched() && (value == id ==> BatchUnchanged())
      ensures value != id ==>
                && dirty && snapshot == old(BaseSnapshot()) && written == old(WrittenSoFar()) + {("connection", "id")}
                && pendingSettings == Put(old(Base()), "connection", "id", Text(value))
    {
      if id == value {
        return;
      }
      WritePending("connection", "id", Text(value));
    }

    method SetNeverDefault(value: bool)
      requires Batched()
      modifies this`dirty, this`pendingSettings, this`snapshot, this`written
      ensures Batched() && (value == neverDefault ==> BatchUnchanged())
      ensures value != neverDefault ==>
                && dirty && snapshot == old(BaseSnapshot())
                && written == old(WrittenSoFar()) + {("ipv4", "never-default"), ("ipv6", "never-default")}
                && pendingSettings == Put(Put(old(Base()), "ipv4", "never-default", Flag(value)), "ipv6", "never-default", Flag(value))
    {
      hide Put, Get;
      if neverDefault == value {
        return;
      }
      WritePending("ipv4", "never-default", Flag(value));
      WritePending("ipv6", "never-default", Flag(value));
    }

    /** A property write on the OpenVPN object, with its request delivered to this connection. */
    method SetOpenvpn(w: O.Write)
      requires Batched() && openvpn != null
      modifies this`dirty, this`pendingSettings, this`snapshot, this`written, this`secretsBase
      modifies openvpn`pendingData, openvpn`dirty
      ensures Batched() && (O.Written(openvpn.data, w) == openvpn.data ==> BatchUnchanged())
      ensures O.Written(openvpn.data, w) != openvpn.data ==>
                && dirty && snapshot == old(BaseSnapshot()) && openvpn.dirty
                && openvpn.pendingData == O.Written(if old(openvpn.dirty) then old(openvpn.pendingData) else openvpn.data, w)
                && written == old(WrittenSoFar()) + {if O.IsSecret(w) then SECRETS else DATA}
                && secretsBase == (if O.IsSecret(w) then openvpn.pendingData else old(secretsBase))
                && pendingSettings == if O.IsSecret(w)
                     then Put(old(Base()), "vpn", "secrets", OpenvpnText(O.PrintSecrets(openvpn.pendingData)))
                     else Put(old(Base()), "vpn", "data", OpenvpnText(O.PrintData(openvpn.pendingData)))
    {
      hide O.PrintData, O.PrintSecrets, O.Written, O.IsSecret, Put, Get, Batched, BatchedBut;
      var request := openvpn.Set(w);
      if request == None {
        BatchGoesOn();
        return;
      }
      AboutToRequest(if O.IsSecret(w) then SECRETS else DATA);
      ghost var before := if old(openvpn.dirty) then old(openvpn.pendingData) else openvpn.data;
      match request.value
      case DataRequest(data) => OpenvpnDataRequested(data, before, w);
      case SecretsRequest(secrets) => OpenvpnSecretsRequested(secrets, before, w);
    }

    /** The batch but for the settings or secrets that the last property write is about to request. */
    ghost predicate BatchedBut(key: (string, string), before: O.Data)
      requires openvpn != null
      reads this, openvpn, pptp
    {
      && openvpn.dirty && (pptp != null && pptp.dirty ==> dirty)
      && (dirty ==> UnwrittenKept())
      && (dirty && DATA in written && key != DATA ==> Get(pendingSettings, "vpn", "data") == Some(OpenvpnText(O.PrintData(before))))
      && (dirty && SECRETS in written && key != SECRETS ==>
            && Get(pendingSettings, "vpn", "secrets") == Some(OpenvpnText(O.PrintSecrets(secretsBase)))
            && O.SameSecretValues(secretsBase, before))
    }

    /** The plugin object has just taken a write. */
    twostate lemma AboutToRequest(key: (string, string))
      requires old(Batched()) && BatchUnchanged() && openvpn == old(openvpn) && pptp == old(pptp)
      requires openvpn != null && openvpn.dirty && (pptp != null ==> pptp.dirty == old(pptp.dirty))
      ensures BatchedBut(key, if old(openvpn.dirty) then old(openvpn.pendingData) else openvpn.data)
    {
      hide O.PrintData, O.PrintSecrets;
    }

    method OpenvpnDataRequested(data: OpenvpnMap, ghost before: O.Data, ghost w: O.Write)
      requires openvpn != null && BatchedBut(DATA, before) && !O.IsSecret(w)
      requires openvpn.pendingData == O.Written(before, w) && data == O.PrintData(openvpn.pendingData)
      modifies this`dirty, this`pendingSettings, this`snapshot, this`written
      ensures Batched() && dirty && snapshot == old(BaseSnapshot()) && written == old(WrittenSoFar()) + {DATA}
      ensures pendingSettings == Put(old(Base()), "vpn", "data", OpenvpnText(data))
    {
      hide O.PrintData, O.PrintSecrets, O.Written;
      O.DataWriteKeepsSecretValues(before, w);
      WritePending("vpn", "data", OpenvpnText(data));
    }

    method OpenvpnSecretsRequested(secrets: OpenvpnMap, ghost before: O.Data, ghost w: O.Write)
      requires openvpn != null && BatchedBut(SECRETS, before) && O.IsSecret(w)
      requires openvpn.pendingData == O.Written(before, w) && secrets == O.PrintSecrets(openvpn.pendingData)
      modifies this`dirty, this`pendingSettings, this`snapshot, this`written, this`secretsBase
      ensures Batched() && dirty && snapshot == old(BaseSnapshot()) && written == old(WrittenSoFar()) + {SECRETS}
      ensures pendingSettings == Put(old(Base()), "vpn", "secrets", OpenvpnText(secrets)) && secretsBase == openvpn.pendingData
    {
      hide O.PrintData, O.PrintSecrets, O.Written;
      O.SecretWriteKeepsData(before, w);
      WritePending("vpn", "secrets", OpenvpnText(secrets));
      secretsBase := openvpn.pendingData;
    }

    /** A property write on the PPTP object, with its request delivered to this connection. */
    method SetPptp(w: P.Write)
      requires Batched() && pptp != null && openvpn == null
      modifies this`dirty, this`pendingSettings, this`snapshot, this`written
      modifies pptp`pendingData, pptp`dirty
      ensures Batched() && (P.Written(pptp.data, w) == pptp.data ==> BatchUnchanged())
      ensures P.Written(pptp.data, w) != pptp.data ==>
                && dirty && snapshot == old(BaseSnapshot()) && pptp.dirty
                && pptp.pendingData == P.Written(if old(pptp.dirty) then old(pptp.pendingData) else pptp.data, w)
                && written == old(WrittenSoFar()) + {if P.IsSecret(w) then SECRETS else DATA}
                && pendingSettings == if P.IsSecret(w)
                     then Put(old(Base()), "vpn", "secrets", PptpText(P.PrintSecrets(pptp.pendingData)))
                     else Put(old(Base()), "vpn", "data", PptpText(P.PrintData(pptp.pendingData)))
    {
      hide P.PrintData, P.PrintSecrets, P.Written, P.IsSecret;
      var request := pptp.Set(w);
      if request == None {
        return;
      }
      P.WriteKeepsTheOther(if old(pptp.dirty) then old(pptp.pendingData) else pptp.data, w);
      match request.value
      case DataRequest(data) => WritePending("vpn", "data", PptpText(data));
      case SecretsRequest(secrets) => WritePending("vpn", "secrets", PptpText(secrets));
    }

    /** The timer fires: the pending settings are sent, and both levels are clean. */
    method DispatchPendingSettings() returns (sent: Settings)
      requires Batched()
      modifies this`dirty, OpenvpnObject()`dirty, PptpObject()`dirty
      ensures sent == pendingSettings && !dirty && Batched()
      ensures (openvpn != null ==> !openvpn.dirty) && (pptp != null ==> !pptp.dirty)
    {
      sent := pendingSettings;
      dirty := false;
      if openvpn != null {
        openvpn.MarkClean();
      }
      if pptp != null {
        pptp.MarkClean();
      }
    }

    /** What the settings and the committed data are does not matter to a batch under way. */
    twostate lemma BatchGoesOn()
      requires old(Batched()) && BatchUnchanged()
      requires openvpn == old(openvpn) && pptp == old(pptp)
      requires openvpn != null ==> openvpn.dirty == old(openvpn.dirty) && openvpn.pendingData == old(openvpn.pendingData)
      requires pptp != null ==> pptp.dirty == old(pptp.dirty) && pptp.pendingData == old(pptp.pendingData)
      ensures Batched()
    {
    }

    /** The plugin object takes over the data of the settings. */
    method TakeOverData()
      modifies OpenvpnObject()`data, PptpObject()`data
      ensures openvpn != null ==>
                && (forall m :: Get(settings, "vpn", "data") == Some(OpenvpnText(m)) ==>
                      openvpn.data == O.ParseData(old(openvpn.data), m))
                && ((forall m :: Get(settings, "vpn", "data") != Some(OpenvpnText(m))) ==>
                      openvpn.data == O.ParseData(old(openvpn.data), map[]))
      ensures pptp != null ==>
                && (forall m :: Get(settings, "vpn", "data") == Some(PptpText(m)) ==>
                      pptp.data == P.ParseData(old(pptp.data), m))
                && ((forall m :: Get(settings, "vpn", "data") != Some(PptpText(m))) ==>
                      pptp.data == P.ParseData(old(pptp.data), map[]))
    {
      hide O.ParseData, P.ParseData, Get, OpenvpnTextOf, PptpTextOf;
      MapRead(settings, "data");
      if openvpn != null {
        openvpn.UpdateData(OpenvpnTextOf(settings, "data"));
      }
      if pptp != null {
        pptp.UpdateData(PptpTextOf(settings, "data"));
      }
    }

    /** New settings arrive, or the request for them failed; a batch under way goes on as it was. */
    method SettingsUpdated(reply: Option<Settings>)
      requires Batched()
      modifies this`settings, this`id, this`neverDefault, this`valid, OpenvpnObject()`data, PptpObject()`data
      ensures Batched() && settings == (if reply.Some? then reply.value else old(settings))
      ensures reply.Some? ==>
                && (forall v :: Get(reply.value, "connection", "id") == Some(Text(v)) ==> id == v)
                && ((forall v :: Get(reply.value, "connection", "id") != Some(Text(v))) ==> id == "")
                && (valid <==> Get(reply.value, "connection", "type") == Some(Text("vpn")))
                && (neverDefault <==> Get(reply.value, "ipv4", "never-default") == Some(Flag(true)))
      ensures reply.None? ==> unchanged(this)
      ensures (reply.None? || !valid) && openvpn != null ==> openvpn.data == old(openvpn.data)
      ensures (reply.None? || !valid) && pptp != null ==> pptp.data == old(pptp.data)
      ensures reply.Some? && valid && openvpn != null ==>
                && (forall m :: Get(reply.value, "vpn", "data") == Some(OpenvpnText(m)) ==>
                      openvpn.data == O.ParseData(old(openvpn.data), m))
                && ((forall m :: Get(reply.value, "vpn", "data") != Some(OpenvpnText(m))) ==>
                      openvpn.data == O.ParseData(old(openvpn.data), map[]))
      ensures reply.Some? && valid && pptp != null ==>
                && (forall m :: Get(reply.value, "vpn", "data") == Some(PptpText(m)) ==>
                      pptp.data == P.ParseData(old(pptp.data), m))
                && ((forall m :: Get(reply.value, "vpn", "data") != Some(PptpText(m))) ==>
                      pptp.data == P.ParseData(old(pptp.data), map[]))
    {
      hide O.ParseData, P.ParseData, Batched, Put, Get, TextOf, OpenvpnTextOf, PptpTextOf;
      if reply == None {
        return;
      }
      settings := reply.value;
      id := TextOf(settings, "connection", "id");
      neverDefault := Get(settings, "ipv4", "never-default") == Some(Flag(true));
      valid := TextOf(settings, "connection", "type") == "vpn";
      if valid {
        TakeOverData();
      }
      BatchGoesOn();
      TextRead(settings, "connection", "id");
      TextRead(settings, "connection", "type");
    }

    /** The stored secrets arrive, or the request for them failed. */
    method SecretsUpdated(reply: Option<Settings>)
      requires Batched()
      modifies OpenvpnObject()`data, PptpObject()`data
      ensures Batched()
      ensures reply.Some? && valid && openvpn != null ==>
                && (forall m :: Get(reply.value, "vpn", "secrets") == Some(OpenvpnText(m)) ==>
                      openvpn.data == O.ParseSecrets(old(openvpn.data), m))
                && ((forall m :: Get(reply.value, "vpn", "secrets") != Some(OpenvpnText(m))) ==>
                      openvpn.data == O.ParseSecrets(old(openvpn.data), map[]))
      ensures reply.Some? && valid && pptp != null ==>
                && (forall m :: Get(reply.value, "vpn", "secrets") == Some(PptpText(m)) ==>
                      pptp.data == P.ParseSecrets(old(pptp.data), m))
                && ((forall m :: Get(reply.value, "vpn", "secrets") != Some(PptpText(m))) ==>
                      pptp.data == P.ParseSecrets(old(pptp.data), map[]))
      ensures (reply == None || !valid) && openvpn != null ==> openvpn.data == old(openvpn.data)
      ensures (reply == None || !valid) && pptp != null ==> pptp.data == old(pptp.data)
    {
      hide O.ParseSecrets, P.ParseSecrets, Batched, Get, OpenvpnTextOf, PptpTextOf;
      if !valid || reply == None {
        return;
      }
      if openvpn != null {
        openvpn.UpdateSecrets(OpenvpnTextOf(reply.value, "secrets"));
      }
      if pptp != null {
        pptp.UpdateSecrets(PptpTextOf(reply.value, "secrets"));
      }
      BatchGoesOn();
      MapRead(reply.value, "secrets");
    }

    // ---------- runs through the service and back ----------

    /** A written id is dispatched, and taken up when the settings that were sent arrive. */
    method IdReturns(value: string) returns (sent: Settings)
      requires Batched() && value != id
      modifies this`dirty, this`pendingSettings, this`snapshot, this`written
      modifies this`settings, this`id, this`neverDefault, this`valid
      modifies OpenvpnObject()`dirty, PptpObject()`dirty, OpenvpnObject()`data, PptpObject()`data
      ensures id == value && settings == sent && !dirty
      ensures valid <==> Get(old(Base()), "connection", "type") == Some(Text("vpn"))
      ensures neverDefault <==> Get(old(Base()), "ipv4", "never-default") == Some(Flag(true))
    {
      hide Batched, Put, Get, BatchUnchanged;
      SetId(value);
      sent := DispatchPendingSettings();
      SettingsUpdated(Some(sent));
    }

    /** A written flag is dispatched, and taken up when the settings that were sent arrive. */
    method NeverDefaultReturns(value: bool) returns (sent: Settings)
      requires Batched() && value != neverDefault
      modifies this`dirty, this`pendingSettings, this`snapshot, this`written
      modifies this`settings, this`id, this`neverDefault, this`valid
      modifies OpenvpnObject()`dirty, PptpObject()`dirty, OpenvpnObject()`data, PptpObject()`data
      ensures neverDefault == value && Get(sent, "ipv6", "never-default") == Some(Flag(value)) && !dirty
    {
      hide Batched, Put, Get, BatchUnchanged;
      SetNeverDefault(value);
      sent := DispatchPendingSettings();
      SettingsUpdated(Some(sent));
    }

    /** A property write of a VPN is dispatched, and the object ends with data that print as it wanted. */
    method OpenvpnReturns(w: O.Write) returns (sent: Settings)
      requires Batched() && openvpn != null && !O.IsSecret(w) && O.Written(openvpn.data, w) != openvpn.data
      requires Get(Base(), "connection", "type") == Some(Text("vpn"))
      modifies this`dirty, this`pendingSettings, this`snapshot, this`written, this`secretsBase
      modifies this`settings, this`id, this`neverDefault, this`valid
      modifies openvpn`dirty, openvpn`data, openvpn`pendingData, PptpObject()`dirty, PptpObject()`data
      ensures valid && settings == sent && !dirty && !openvpn.dirty
      ensures openvpn.pendingData == O.Written(if old(openvpn.dirty) then old(openvpn.pendingData) else old(openvpn.data), w)
      ensures openvpn.data == O.ParseData(old(openvpn.data), O.PrintData(openvpn.pendingData))
      ensures O.PrintData(openvpn.data) == O.PrintData(openvpn.pendingData)
    {
      hide Batched, Put, Get, BatchUnchanged, O.PrintData, O.PrintSecrets, O.ParseData, O.Written, O.IsSecret;
      SetOpenvpn(w);
      assert Get(pendingSettings, "vpn", "data") == Some(OpenvpnText(O.PrintData(openvpn.pendingData)));
      assert Get(pendingSettings, "connection", "type") == Some(Text("vpn"));
      sent := DispatchPendingSettings();
      SettingsUpdated(Some(sent));
      O.DataRoundTrip(old(openvpn.data), openvpn.pendingData);
    }

    /** The same for PPTP. */
    method PptpReturns(w: P.Write) returns (sent: Settings)
      requires Batched() && pptp != null && openvpn == null && !P.IsSecret(w) && P.Written(pptp.data, w) != pptp.data
      requires Get(Base(), "connection", "type") == Some(Text("vpn"))
      modifies this`dirty, this`pendingSettings, this`snapshot, this`written
      modifies this`settings, this`id, this`neverDefault, this`valid
      modifies pptp`dirty, pptp`data, pptp`pendingData
      ensures valid && settings == sent && !dirty && !pptp.dirty
      ensures pptp.pendingData == P.Written(if old(pptp.dirty) then old(pptp.pendingData) else old(pptp.data), w)
      ensures pptp.data == P.ParseData(old(pptp.data), P.PrintData(pptp.pendingData))
      ensures P.PrintData(pptp.data) == P.PrintData(pptp.pendingData)
    {
      hide Batched, Put, Get, BatchUnchanged, P.PrintData, P.PrintSecrets, P.ParseData, P.Written, P.IsSecret;
      SetPptp(w);
      sent := DispatchPendingSettings();
      SettingsUpdated(Some(sent));
      P.DataRoundTrip(old(pptp.data), pptp.pendingData);
    }

    /** A written secret of a VPN is dispatched, and taken up when the secrets that were sent are stored. */
    method OpenvpnSecretReturns(w: O.Write) returns (sent: Settings)
      requires Batched() && valid && openvpn != null && O.IsSecret(w) && O.Written(openvpn.data, w) != openvpn.data
      modifies this`dirty, this`pendingSettings, this`snapshot, this`written, this`secretsBase
      modifies openvpn`dirty, openvpn`data, openvpn`pendingData, PptpObject()`dirty, PptpObject()`data
      ensures !dirty && !openvpn.dirty
      ensures openvpn.pendingData == O.Written(if old(openvpn.dirty) then old(openvpn.pendingData) else old(openvpn.data), w)
      ensures openvpn.data == O.ParseSecrets(old(openvpn.data), O.PrintSecrets(openvpn.pendingData))
    {
      hide Batched, Put, Get, BatchUnchanged, O.PrintData, O.PrintSecrets, O.ParseSecrets, O.Written, O.IsSecret;
      SetOpenvpn(w);
      sent := DispatchPendingSettings();
      SecretsUpdated(Some(sent));
    }

    // ---------- two runs that lose a write ----------

    lemma PluginIsClean()
      requires Batched() && !dirty && openvpn != null
      ensures !openvpn.dirty
    {
    }

    /** A batch that writes a password and then another connection type sends secrets that do not fit its settings. */
    method PasswordThenType(password: string, t: O.ConnectionType) returns (sent: Settings)
      requires Batched() && !dirty && openvpn != null
      requires openvpn.data.basic.password != password && openvpn.data.basic.connectionType != t
      modifies this`dirty, this`pendingSettings, this`snapshot, this`written, this`secretsBase
      modifies openvpn`pendingData, openvpn`dirty, PptpObject()`dirty
      ensures openvpn.pendingData == O.Written(O.Written(openvpn.data, O.SetPassword(password)), O.SetConnectionType(t))
      ensures Get(sent, "vpn", "data") == Some(OpenvpnText(O.PrintData(openvpn.pendingData)))
      ensures Get(sent, "vpn", "secrets").Some?
      ensures Get(sent, "vpn", "secrets") != Some(OpenvpnText(O.PrintSecrets(openvpn.pendingData)))
    {
      hide O.PrintData, O.PrintSecrets, O.Written, O.SameSecretValues, Batched, Put;
      O.PasswordThenTypeWrites(openvpn.data, password, t);
      PluginIsClean();
      SetOpenvpn(O.SetPassword(password));
      SetOpenvpn(O.SetConnectionType(t));
      SecretsCurrentIff();
      sent := DispatchPendingSettings();
    }

    /** A batch that writes the flag alone. */
    method DispatchFlag(flag: bool) returns (sent: Settings)
      requires Batched() && !dirty && flag != neverDefault
      modifies this`dirty, this`pendingSettings, this`snapshot, this`written, OpenvpnObject()`dirty, PptpObject()`dirty
      ensures Get(sent, "ipv4", "never-default") == Some(Flag(flag))
      ensures Get(sent, "connection", "id") == Get(settings, "connection", "id")
    {
      hide Batched, Put, Get, BatchUnchanged;
      SetNeverDefault(flag);
      sent := DispatchPendingSettings();
    }

    /**
     * A write that was dispatched survives the next batch exactly if the settings that arrived in between hold it:
     * without a reply, or with an older one, the next batch sends back the old id.
     */
    method IdThenFlag(value: string, reply: Option<Settings>, flag: bool) returns (first: Settings, second: Settings)
      requires Batched() && !dirty && value != id
      requires flag != if reply.Some? then Get(reply.value, "ipv4", "never-default") == Some(Flag(true)) else neverDefault
      modifies this`dirty, this`pendingSettings, this`snapshot, this`written
      modifies this`settings, this`id, this`neverDefault, this`valid
      modifies OpenvpnObject()`dirty, PptpObject()`dirty, OpenvpnObject()`data, PptpObject()`data
      ensures Get(first, "connection", "id") == Some(Text(value))
      ensures Get(second, "ipv4", "never-default") == Some(Flag(flag))
      ensures Get(second, "connection", "id") == Get(if reply.Some? then reply.value else old(settings), "connection", "id")
    {
      hide Batched, Put, Get, BatchUnchanged;
      SetId(value);
      first := DispatchPendingSettings();
      SettingsUpdated(reply);
      second := DispatchFlag(flag);
    }

    // ---------- activation ----------

    /** The flag that others read: nobody is busy, and nobody else is active. */
    predicate ActivatableFlag()
      reads this
    {
      activatable == (!otherConnectionIsBusy && (otherActiveConnectionPath == "" || otherActiveConnectionPath == path))
    }

    method UpdateActivatable()
      modifies this`activatable
      ensures ActivatableFlag()
    {
      activatable := !otherConnectionIsBusy && (otherActiveConnectionPath == "" || otherActiveConnectionPath == path);
    }

    method SetOtherConnectionIsBusy(value: bool)
      modifies this`otherConnectionIsBusy, this`activatable
      ensures otherConnectionIsBusy == value && ActivatableFlag()
    {
      otherConnectionIsBusy := value;
      UpdateActivatable();
    }

    method SetActiveConnectionPath(value: string)
      modifies this`otherActiveConnectionPath, this`activatable
      ensures otherActiveConnectionPath == value && ActivatableFlag()
    {
      otherActiveConnectionPath := value;
      UpdateActivatable();
    }

    /** Returns whether the activeChanged signal is emitted. */
    method SetActive(value: bool) returns (changed: bool)
      modifies this`active
      ensures active == value && changed == (old(active) != value)
    {
      changed := active != value;
      active := value;
    }

    /** Returns whether the busyChanged signal is emitted. */
    method SetBusy(value: bool) returns (changed: bool)
      modifies this`busy
      ensures busy == value && changed == (old(busy) != value)
    {
      changed := busy != value;
      busy := value;
    }
  }
}
