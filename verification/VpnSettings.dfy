/** The objects that batch property writes of a VPN connection until its pending settings are dispatched. */
module VpnSettings {
  import opened OptionType
  import O = Openvpn
  import P = Pptp

  type OpenvpnMap = map<O.Key, string>
  type PptpMap = map<P.Key, string>

  // ---------- OpenVPN ----------

  /** What a property write asks its VPN connection to write: settings or secrets. */
  datatype Request<M> = DataRequest(data: M) | SecretsRequest(secrets: M)

  class OpenvpnConnection {
    var data: O.Data
    var pendingData: O.Data
    var dirty: bool

    constructor ()
      ensures data == O.DEFAULT_DATA && !dirty
    {
      data, pendingData, dirty := O.DEFAULT_DATA, O.DEFAULT_DATA, false;
    }

    method UpdateBasic(m: OpenvpnMap)
      modifies this`data
      ensures data == old(data).(basic := O.ParseBasic(old(data).basic, m))
    {
      var b := data.basic;
      b := b.(ca := ValueOf(m, O.CaKey));
      b := b.(cert := ValueOf(m, O.CertKey));
      b := b.(connectionType := O.ConnectionTypeNamed(ValueOf(m, O.ConnectionTypeKey)));
      b := b.(key := ValueOf(m, O.KeyKey));
      b := b.(localIp := ValueOf(m, O.LocalIpKey));
      b := b.(remote := ValueOf(m, O.RemoteKey));
      b := b.(remoteIp := ValueOf(m, O.RemoteIpKey));
      b := b.(staticKey := ValueOf(m, O.StaticKeyKey));
      if O.StaticKeyDirectionKey in m {
        b := b.(staticKeyDirection := O.KeyDirNamed(m[O.StaticKeyDirectionKey]));
      } else {
        b := b.(staticKeyDirection := O.KEY_NONE);
      }
      b := b.(username := ValueOf(m, O.UsernameKey));
      data := data.(basic := b);
    }

    method UpdateGeneral(m: OpenvpnMap)
      modifies this`data
      ensures data == old(data).(general := O.ParseGeneral(old(data).general, m))
    {
      var g := data.general;
      g := g.(port := O.ParseNumber(g.port, m, O.PortKey), portSet := O.PortKey in m);
      g := g.(renegSeconds := O.ParseNumber(g.renegSeconds, m, O.RenegSecondsKey), renegSecondsSet := O.RenegSecondsKey in m);
      g := g.(compLzo := IsYes(ValueOf(m, O.CompLzoKey)));
      g := g.(protoTcp := IsYes(ValueOf(m, O.ProtoTcpKey)));
      g := g.(devTypeSet := O.DevTypeKey in m);
      if O.DevTypeKey in m {
        g := g.(devType := O.DevTypeNamed(m[O.DevTypeKey]));
        g := g.(dev := ValueOf(m, O.DevKey));
      }
      g := g.(tunnelMtu := O.ParseNumber(g.tunnelMtu, m, O.TunnelMtuKey), tunnelMtuSet := O.TunnelMtuKey in m);
      g := g.(fragmentSize := O.ParseNumber(g.fragmentSize, m, O.FragmentSizeKey), fragmentSizeSet := O.FragmentSizeKey in m);
      g := g.(mssFix := IsYes(ValueOf(m, O.MssFixKey)));
      g := g.(remoteRandom := IsYes(ValueOf(m, O.RemoteRandomKey)));
      data := data.(general := g);
    }

    method UpdateSecurity(m: OpenvpnMap)
      modifies this`data
      ensures data == old(data).(security := O.ParseSecurity(old(data).security, m))
    {
      var s := data.security;
      s := s.(cipher := if O.CipherKey in m then O.CipherNamed(m[O.CipherKey]) else O.DEFAULT_CIPHER);
      s := s.(keysize := O.ParseNumber(s.keysize, m, O.KeysizeKey), keysizeSet := O.KeysizeKey in m);
      s := s.(auth := if O.AuthKey in m then O.AuthNamed(m[O.AuthKey]) else O.DEFAULT_AUTH);
      data := data.(security := s);
    }

    method UpdateTlsAuth(m: OpenvpnMap)
      modifies this`data
      ensures data == old(data).(tlsAuth := O.ParseTlsAuth(old(data).tlsAuth, m))
    {
      var t := data.tlsAuth;
      t := t.(tlsRemote := ValueOf(m, O.TlsRemoteKey));
      t := t.(remoteCertTlsSet := O.RemoteCertTlsKey in m);
      if O.RemoteCertTlsKey in m {
        t := t.(remoteCertTls := O.TlsTypeNamed(m[O.RemoteCertTlsKey]));
      }
      t := t.(taSet := O.TaKey in m);
      if O.TaKey in m {
        t := t.(ta := m[O.TaKey]);
        t := t.(taDir := O.KeyDirNamed(ValueOf(m, O.TaDirKey)));
      }
      data := data.(tlsAuth := t);
    }

    method UpdateProxy(m: OpenvpnMap)
      modifies this`data
      ensures data == old(data).(proxy := O.ParseProxy(old(data).proxy, m))
    {
      var p := data.proxy;
      if O.ProxyTypeKey in m {
        p := p.(proxyType := O.ProxyTypeNamed(m[O.ProxyTypeKey]));
        p := p.(proxyServer := ValueOf(m, O.ProxyServerKey));
        p := p.(proxyPort := O.ParseNumber(0, m, O.ProxyPortKey));
        p := p.(proxyRetry := IsYes(ValueOf(m, O.ProxyRetryKey)));
        match p.proxyType {
          case NOT_REQUIRED =>
          case HTTP => p := p.(proxyUsername := ValueOf(m, O.HttpProxyUsernameKey));
          case SOCKS => p := p.(proxyUsername := ValueOf(m, O.SocksProxyUsernameKey));
        }
      } else {
        p := p.(proxyType := O.NOT_REQUIRED);
      }
      data := data.(proxy := p);
    }

    method UpdateData(m: OpenvpnMap)
      modifies this`data
      ensures data == O.ParseData(old(data), m)
    {
      UpdateBasic(m);
      UpdateGeneral(m);
      UpdateSecurity(m);
      UpdateTlsAuth(m);
      UpdateProxy(m);
    }

    method UpdateSecrets(m: OpenvpnMap)
      modifies this`data
      ensures data == O.ParseSecrets(old(data), m)
    {
      data := data.(basic := data.basic.(certPass := ValueOf(m, O.CertPassKey)));
      data := data.(basic := data.basic.(password := ValueOf(m, O.PasswordKey)));
      match data.proxy.proxyType {
        case NOT_REQUIRED =>
        case HTTP => data := data.(proxy := data.proxy.(proxyPassword := ValueOf(m, O.HttpProxyPasswordKey)));
        case SOCKS => data := data.(proxy := data.proxy.(proxyPassword := ValueOf(m, O.SocksProxyPasswordKey)));
      }
    }

    /** A property write: ignored if the committed settings already have the value, otherwise batched and requested. */
    method Set(w: O.Write) returns (request: Option<Request<OpenvpnMap>>)
      modifies this`pendingData, this`dirty
      ensures O.Written(data, w) == data ==> request == None && dirty == old(dirty) && pendingData == old(pendingData)
      ensures O.Written(data, w) != data ==>
                && dirty
                && pendingData == O.Written(if old(dirty) then old(pendingData) else data, w)
                && request == Some(if O.IsSecret(w) then SecretsRequest(O.PrintSecrets(pendingData))
                                   else DataRequest(O.PrintData(pendingData)))
    {
      if O.Written(data, w) == data {
        return None;
      }
      if !dirty {
        pendingData := data;
      }
      dirty := true;
      pendingData := O.Written(pendingData, w);
      if O.IsSecret(w) {
        var secrets := O.BuildSecrets(pendingData);
        request := Some(SecretsRequest(secrets));
      } else {
        var built := O.BuildData(pendingData);
        request := Some(DataRequest(built));
      }
    }

    method MarkClean()
      modifies this`dirty
      ensures !dirty
    {
      dirty := false;
    }
  }

  // ---------- PPTP ----------

  class PptpConnection {
    var data: P.Data
    var pendingData: P.Data
    var dirty: bool

    constructor ()
      ensures data == P.DEFAULT_DATA && !dirty
    {
      data, pendingData, dirty := P.DEFAULT_DATA, P.DEFAULT_DATA, false;
    }

    method UpdateMppe(m: PptpMap)
      modifies this`data
      ensures var e := P.ParseData(old(data), m);
        data == old(data).(requireMppe := e.requireMppe, mppeType := e.mppeType, mppeStateful := e.mppeStateful)
    {
      var requireMppe, mppeType := false, P.MPPE_ALL;
      if IsYes(ValueOf(m, P.RequireMppeKey)) {
        requireMppe, mppeType := true, P.MPPE_ALL;
      } else if IsYes(ValueOf(m, P.RequireMppe128Key)) {
        requireMppe, mppeType := true, P.MPPE_128;
      } else if IsYes(ValueOf(m, P.RequireMppe40Key)) {
        requireMppe, mppeType := true, P.MPPE_40;
      }
      var d := data;
      d := d.(requireMppe := requireMppe);
      if requireMppe {
        d := d.(mppeType := mppeType);
      }
      d := d.(mppeStateful := IsYes(ValueOf(m, P.MppeStatefulKey)));
      data := d;
    }

    method UpdateData(m: PptpMap)
      modifies this`data
      ensures data == P.ParseData(old(data), m)
    {
      var d := data;
      d := d.(gateway := ValueOf(m, P.GatewayKey));
      d := d.(user := ValueOf(m, P.UserKey));
      d := d.(domain := ValueOf(m, P.DomainKey));
      d := d.(allowPap := !IsYes(ValueOf(m, P.RefusePapKey)));
      d := d.(allowChap := !IsYes(ValueOf(m, P.RefuseChapKey)));
      d := d.(allowMschap := !IsYes(ValueOf(m, P.RefuseMschapKey)));
      d := d.(allowMschapv2 := !IsYes(ValueOf(m, P.RefuseMschapv2Key)));
      d := d.(allowEap := !IsYes(ValueOf(m, P.RefuseEapKey)));
      data := d;
      UpdateMppe(m);
      d := data;
      d := d.(bsdCompression := !IsYes(ValueOf(m, P.NoBsdCompKey)));
      d := d.(deflateCompression := !IsYes(ValueOf(m, P.NoDeflateKey)));
      d := d.(tcpHeaderCompression := !IsYes(ValueOf(m, P.NoVjCompKey)));
      d := d.(sendPppEchoPackets := Lookup(m, P.LcpEchoIntervalKey).Some? || Lookup(m, P.LcpEchoFailureKey).Some?);
      data := d;
    }

    method UpdateSecrets(m: PptpMap)
      modifies this`data
      ensures data == P.ParseSecrets(old(data), m)
    {
      data := data.(password := ValueOf(m, P.PasswordKey));
    }

    method Set(w: P.Write) returns (request: Option<Request<PptpMap>>)
      modifies this`pendingData, this`dirty
      ensures P.Written(data, w) == data ==> request == None && dirty == old(dirty) && pendingData == old(pendingData)
      ensures P.Written(data, w) != data ==>
                && dirty
                && pendingData == P.Written(if old(dirty) then old(pendingData) else data, w)
                && request == Some(if P.IsSecret(w) then SecretsRequest(P.PrintSecrets(pendingData))
                                   else DataRequest(P.PrintData(pendingData)))
    {
      if P.Written(data, w) == data {
        return None;
      }
      if !dirty {
        pendingData := data;
      }
      dirty := true;
      pendingData := P.Written(pendingData, w);
      if P.IsSecret(w) {
        request := Some(SecretsRequest(P.PrintSecrets(pendingData)));
      } else {
        var built := P.BuildData(pendingData);
        request := Some(DataRequest(built));
      }
    }

    method MarkClean()
      modifies this`dirty
      ensures !dirty
    {
      dirty := false;
    }
  }
}
