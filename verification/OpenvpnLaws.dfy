/** What is sent and read back of the settings of an OpenVPN connection, field by field and text by text. */
module OpenvpnLaws {
  import opened Decimal
  import opened OptionType
  import opened Openvpn

  // ---------- reading back what was printed ----------

  lemma BasicParsed(p: Basic, b: Basic, m: map<Key, string>)
    requires forall i :: SectionOf(i) == BASIC ==> Lookup(m, i) == PrintedBasic(b, i)
    ensures var t := b.connectionType;
      ParseBasic(p, m) == b.(
        cert := if t == TLS || t == PASSWORD_TLS then b.cert else "",
        key := if t == TLS || t == PASSWORD_TLS then b.key else "",
        username := if t == PASSWORD || t == PASSWORD_TLS then b.username else "",
        localIp := if t == STATIC_KEY then b.localIp else "",
        remoteIp := if t == STATIC_KEY then b.remoteIp else "",
        staticKey := if t == STATIC_KEY then b.staticKey else "",
        staticKeyDirection := if t == STATIC_KEY then b.staticKeyDirection else KEY_NONE,
        certPass := p.certPass, password := p.password)
  {
    NamesRoundTrip();
    hide ConnectionTypeName, ConnectionTypeNamed, KeyDirName, KeyDirNamed;
    forall k | SectionOf(k) == BASIC ensures ValueOf(m, k) == match PrintedBasic(b, k) case None => "" case Some(v) => v {}
    assert ValueOf(m, ConnectionTypeKey) == ConnectionTypeName(b.connectionType);
    assert Lookup(m, StaticKeyDirectionKey) == PrintedBasic(b, StaticKeyDirectionKey);
  }

  lemma NumbersParsed(p: General, g: General, m: map<Key, string>)
    requires forall i :: SectionOf(i) == GENERAL ==> Lookup(m, i) == PrintedGeneral(g, i)
    ensures var q := ParseGeneral(p, m);
      && q.portSet == g.portSet && q.port == (if g.portSet then g.port else p.port)
      && q.renegSecondsSet == g.renegSecondsSet && q.renegSeconds == (if g.renegSecondsSet then g.renegSeconds else p.renegSeconds)
      && q.tunnelMtuSet == g.tunnelMtuSet && q.tunnelMtu == (if g.tunnelMtuSet then g.tunnelMtu else p.tunnelMtu)
      && q.fragmentSizeSet == g.fragmentSizeSet && q.fragmentSize == if g.fragmentSizeSet then g.fragmentSize else p.fragmentSize
  {
    hide Number, ToInt, DevTypeNamed, IsYes, ValueOf;
    NumberToInt(g.port);
    NumberToInt(g.renegSeconds);
    NumberToInt(g.tunnelMtu);
    NumberToInt(g.fragmentSize);
    assert Lookup(m, PortKey) == PrintedGeneral(g, PortKey);
    assert Lookup(m, RenegSecondsKey) == PrintedGeneral(g, RenegSecondsKey);
    assert Lookup(m, TunnelMtuKey) == PrintedGeneral(g, TunnelMtuKey);
    assert Lookup(m, FragmentSizeKey) == PrintedGeneral(g, FragmentSizeKey);
  }

  lemma FlagsParsed(p: General, g: General, m: map<Key, string>)
    requires forall i :: SectionOf(i) == GENERAL ==> Lookup(m, i) == PrintedGeneral(g, i)
    ensures var q := ParseGeneral(p, m);
      && q.compLzo == g.compLzo && q.protoTcp == g.protoTcp && q.mssFix == g.mssFix && q.remoteRandom == g.remoteRandom
  {
    hide Number, ToInt, DevTypeNamed, ParseNumber, IsYes;
    YesIsYes();
    assert Lookup(m, CompLzoKey) == PrintedGeneral(g, CompLzoKey) && Lookup(m, ProtoTcpKey) == PrintedGeneral(g, ProtoTcpKey);
    assert Lookup(m, MssFixKey) == PrintedGeneral(g, MssFixKey);
    assert Lookup(m, RemoteRandomKey) == PrintedGeneral(g, RemoteRandomKey);
  }

  lemma DevicePrinted(g: General, m: map<Key, string>)
    requires forall i :: SectionOf(i) == GENERAL ==> Lookup(m, i) == PrintedGeneral(g, i)
    ensures Lookup(m, DevTypeKey) == if g.devTypeSet then Some(DevTypeName(g.devType)) else None
    ensures g.devTypeSet ==> ValueOf(m, DevKey) == g.dev
  {
    hide Number, DevTypeName;
    assert Lookup(m, DevTypeKey) == PrintedGeneral(g, DevTypeKey) && Lookup(m, DevKey) == PrintedGeneral(g, DevKey);
  }

  lemma DeviceParsed(p: General, g: General, m: map<Key, string>)
    requires forall i :: SectionOf(i) == GENERAL ==> Lookup(m, i) == PrintedGeneral(g, i)
    ensures var q := ParseGeneral(p, m);
      && q.devTypeSet == g.devTypeSet
      && q.dev == (if g.devTypeSet then g.dev else p.dev) && q.devType == if g.devTypeSet then g.devType else p.devType
  {
    hide PrintedGeneral, SectionOf, ParseNumber, ValueOf, IsYes, DevTypeName, DevTypeNamed;
    NamesRoundTrip();
    DevicePrinted(g, m);
  }

  lemma GeneralParsed(p: General, g: General, m: map<Key, string>)
    requires forall i :: SectionOf(i) == GENERAL ==> Lookup(m, i) == PrintedGeneral(g, i)
    ensures ParseGeneral(p, m) == g.(
              port := if g.portSet then g.port else p.port,
              renegSeconds := if g.renegSecondsSet then g.renegSeconds else p.renegSeconds,
              dev := if g.devTypeSet then g.dev else p.dev,
              devType := if g.devTypeSet then g.devType else p.devType,
              tunnelMtu := if g.tunnelMtuSet then g.tunnelMtu else p.tunnelMtu,
              fragmentSize := if g.fragmentSizeSet then g.fragmentSize else p.fragmentSize)
  {
    hide ParseGeneral, PrintedGeneral;
    NumbersParsed(p, g, m);
    FlagsParsed(p, g, m);
    DeviceParsed(p, g, m);
  }

  lemma SecurityParsed(p: Security, s: Security, m: map<Key, string>)
    requires forall i :: SectionOf(i) == SECURITY ==> Lookup(m, i) == PrintedSecurity(s, i)
    ensures ParseSecurity(p, m) == s.(keysize := if s.keysizeSet then s.keysize else p.keysize)
  {
    CipherRoundTrip(s.cipher);
    AuthRoundTrip(s.auth);
    NumberToInt(s.keysize);
    hide Number, ToInt, CipherName, CipherNamed, AuthName, AuthNamed;
    assert Lookup(m, CipherKey) == PrintedSecurity(s, CipherKey);
    assert Lookup(m, KeysizeKey) == PrintedSecurity(s, KeysizeKey);
    assert Lookup(m, AuthKey) == PrintedSecurity(s, AuthKey);
  }

  lemma TlsAuthParsed(c: ConnectionType, p: TlsAuth, t: TlsAuth, m: map<Key, string>)
    requires forall i :: SectionOf(i) == TLS_AUTH ==> Lookup(m, i) == PrintedTlsAuth(c, t, i)
    ensures c == STATIC_KEY ==>
              ParseTlsAuth(p, m) == p.(tlsRemote := "", remoteCertTlsSet := false, taSet := false)
    ensures c != STATIC_KEY ==>
              ParseTlsAuth(p, m) == t.(
                remoteCertTls := if t.remoteCertTlsSet then t.remoteCertTls else p.remoteCertTls,
                ta := if !t.taSet then p.ta else if t.ta == "" then "/" else t.ta,
                taDir := if t.taSet then t.taDir else p.taDir)
  {
    NamesRoundTrip();
    hide TlsTypeName, TlsTypeNamed, KeyDirName;
    assert Lookup(m, TlsRemoteKey) == PrintedTlsAuth(c, t, TlsRemoteKey);
    assert Lookup(m, RemoteCertTlsKey) == PrintedTlsAuth(c, t, RemoteCertTlsKey);
    assert Lookup(m, TaKey) == PrintedTlsAuth(c, t, TaKey);
    assert Lookup(m, TaDirKey) == PrintedTlsAuth(c, t, TaDirKey);
  }

  lemma ProxyServerParsed(p: Proxy, x: Proxy, m: map<Key, string>)
    requires forall i :: SectionOf(i) == PROXY ==> Lookup(m, i) == PrintedProxy(x, i)
    ensures ProxyTypeKey in m <==> x.proxyType != NOT_REQUIRED
    ensures var q := ParseProxy(p, m);
      x.proxyType != NOT_REQUIRED ==>
        && q.proxyType == x.proxyType && q.proxyServer == x.proxyServer && q.proxyPort == x.proxyPort
        && q.proxyRetry == x.proxyRetry
  {
    hide Number, ToInt, IsYes, ProxyTypeName, ProxyTypeNamed;
    NamesRoundTrip();
    NumberToInt(x.proxyPort);
    YesIsYes();
    assert Lookup(m, ProxyTypeKey) == PrintedProxy(x, ProxyTypeKey);
    assert Lookup(m, ProxyServerKey) == PrintedProxy(x, ProxyServerKey);
    assert Lookup(m, ProxyPortKey) == PrintedProxy(x, ProxyPortKey);
    assert Lookup(m, ProxyRetryKey) == PrintedProxy(x, ProxyRetryKey);
  }

  lemma ProxyUsernamesPrinted(x: Proxy, m: map<Key, string>)
    requires forall i :: SectionOf(i) == PROXY ==> Lookup(m, i) == PrintedProxy(x, i)
    ensures x.proxyType == HTTP ==> ValueOf(m, HttpProxyUsernameKey) == x.proxyUsername
    ensures x.proxyType == SOCKS ==> ValueOf(m, SocksProxyUsernameKey) == x.proxyUsername
  {
    hide Number, ProxyTypeName;
    assert Lookup(m, HttpProxyUsernameKey) == PrintedProxy(x, HttpProxyUsernameKey);
    assert Lookup(m, SocksProxyUsernameKey) == PrintedProxy(x, SocksProxyUsernameKey);
  }

  lemma ProxyParsed(p: Proxy, x: Proxy, m: map<Key, string>)
    requires forall i :: SectionOf(i) == PROXY ==> Lookup(m, i) == PrintedProxy(x, i)
    ensures ParseProxy(p, m)
         == if x.proxyType == NOT_REQUIRED then p.(proxyType := NOT_REQUIRED) else x.(proxyPassword := p.proxyPassword)
  {
    hide PrintedProxy, SectionOf, ToInt, IsYes, ProxyTypeNamed, ValueOf;
    ProxyServerParsed(p, x, m);
    ProxyUsernamesPrinted(x, m);
  }

  /** Read back over earlier settings `p`, every setting is as it was printed, except where the connection has no use for it. */
  lemma ParsePrinted(p: Data, d: Data)
    ensures var q, b := ParseData(p, PrintData(d)).basic, d.basic;
      var t := b.connectionType;
      q == b.(
        cert := if t == TLS || t == PASSWORD_TLS then b.cert else "",
        key := if t == TLS || t == PASSWORD_TLS then b.key else "",
        username := if t == PASSWORD || t == PASSWORD_TLS then b.username else "",
        localIp := if t == STATIC_KEY then b.localIp else "",
        remoteIp := if t == STATIC_KEY then b.remoteIp else "",
        staticKey := if t == STATIC_KEY then b.staticKey else "",
        staticKeyDirection := if t == STATIC_KEY then b.staticKeyDirection else KEY_NONE,
        certPass := p.basic.certPass, password := p.basic.password)
    ensures var q, g, was := ParseData(p, PrintData(d)).general, d.general, p.general;
      q == g.(
        port := if g.portSet then g.port else was.port,
        renegSeconds := if g.renegSecondsSet then g.renegSeconds else was.renegSeconds,
        dev := if g.devTypeSet then g.dev else was.dev,
        devType := if g.devTypeSet then g.devType else was.devType,
        tunnelMtu := if g.tunnelMtuSet then g.tunnelMtu else was.tunnelMtu,
        fragmentSize := if g.fragmentSizeSet then g.fragmentSize else was.fragmentSize)
    ensures ParseData(p, PrintData(d)).security
         == d.security.(keysize := if d.security.keysizeSet then d.security.keysize else p.security.keysize)
    ensures var q, t, was := ParseData(p, PrintData(d)).tlsAuth, d.tlsAuth, p.tlsAuth;
      q == if d.basic.connectionType == STATIC_KEY then was.(tlsRemote := "", remoteCertTlsSet := false, taSet := false)
           else t.(
             remoteCertTls := if t.remoteCertTlsSet then t.remoteCertTls else was.remoteCertTls,
             ta := if !t.taSet then was.ta else if t.ta == "" then "/" else t.ta,
             taDir := if t.taSet then t.taDir else was.taDir)
    ensures ParseData(p, PrintData(d)).proxy
         == if d.proxy.proxyType == NOT_REQUIRED then p.proxy.(proxyType := NOT_REQUIRED)
            else d.proxy.(proxyPassword := p.proxy.proxyPassword)
  {
    hide ParseBasic, ParseGeneral, ParseSecurity, ParseTlsAuth, ParseProxy;
    hide PrintedBasic, PrintedGeneral, PrintedSecurity, PrintedTlsAuth, PrintedProxy, PrintData;
    var m := PrintData(d);
    BasicParsed(p.basic, d.basic, m);
    GeneralParsed(p.general, d.general, m);
    SecurityParsed(p.security, d.security, m);
    TlsAuthParsed(d.basic.connectionType, p.tlsAuth, d.tlsAuth, m);
    ProxyParsed(p.proxy, d.proxy, m);
  }

  /** Every secret that the connection has a use for is read back, into settings of the same connection and proxy types. */
  lemma ParseSecretsPrinted(p: Data, d: Data)
    requires p.proxy.proxyType == d.proxy.proxyType
    ensures var t := d.basic.connectionType;
      ParseSecrets(p, PrintSecrets(d))
      == p.(basic := p.basic.(certPass := if t == TLS || t == PASSWORD_TLS then d.basic.certPass else "",
                              password := if t == PASSWORD || t == PASSWORD_TLS then d.basic.password else ""),
            proxy := if d.proxy.proxyType == NOT_REQUIRED then p.proxy
                     else p.proxy.(proxyPassword := d.proxy.proxyPassword))
  {
    var m := PrintSecrets(d);
    hide PrintSecrets;
    assert Lookup(m, CertPassKey) == PrintedSecret(d, CertPassKey) && Lookup(m, PasswordKey) == PrintedSecret(d, PasswordKey);
    assert Lookup(m, HttpProxyPasswordKey) == PrintedSecret(d, HttpProxyPasswordKey);
    assert Lookup(m, SocksProxyPasswordKey) == PrintedSecret(d, SocksProxyPasswordKey);
  }

  // ---------- what is sent ----------

  /** What is sent of the connection itself: the keys of its connection type. */
  lemma BasicSent(d: Data, k: Key)
    requires k in {ConnectionTypeKey, CaKey, RemoteKey, CertKey, CertPassFlagsKey, KeyKey, UsernameKey, PasswordFlagsKey,
                   LocalIpKey, RemoteIpKey, StaticKeyKey, StaticKeyDirectionKey}
    ensures var b := d.basic;
      Lookup(PrintData(d), k) == Lookup(
        (match b.connectionType
         case TLS => map[
           ConnectionTypeKey := "tls", CaKey := b.ca, RemoteKey := b.remote,
           CertKey := b.cert, CertPassFlagsKey := "1", KeyKey := b.key]
         case PASSWORD => map[
           ConnectionTypeKey := "password", CaKey := b.ca, RemoteKey := b.remote,
           UsernameKey := b.username, PasswordFlagsKey := "1"]
         case PASSWORD_TLS => map[
           ConnectionTypeKey := "password-tls", CaKey := b.ca, RemoteKey := b.remote,
           CertKey := b.cert, CertPassFlagsKey := "1", KeyKey := b.key, UsernameKey := b.username, PasswordFlagsKey := "1"]
         case STATIC_KEY => (
           map[ConnectionTypeKey := "static-key", CaKey := b.ca, RemoteKey := b.remote,
               LocalIpKey := b.localIp, RemoteIpKey := b.remoteIp, StaticKeyKey := b.staticKey]
           + if b.staticKeyDirection == KEY_NONE then map[]
             else map[StaticKeyDirectionKey := if b.staticKeyDirection == ZERO then "0" else "1"])),
        k)
  {
    hide PrintData, PrintedGeneral, PrintedSecurity, PrintedTlsAuth, PrintedProxy;
  }

  /** What is sent about the transport: each number that is set, and "yes" for each flag that is on. */
  lemma TransportSent(d: Data, k: Key)
    requires k in {PortKey, RenegSecondsKey, CompLzoKey, ProtoTcpKey}
    ensures var g := d.general;
      Lookup(PrintData(d), k) == Lookup(
        (if g.portSet then map[PortKey := Number(g.port)] else map[])
        + (if g.renegSecondsSet then map[RenegSecondsKey := Number(g.renegSeconds)] else map[])
        + (if g.compLzo then map[CompLzoKey := "yes"] else map[]) + (if g.protoTcp then map[ProtoTcpKey := "yes"] else map[]),
        k)
  {
    hide PrintData, PrintedBasic, PrintedSecurity, PrintedTlsAuth, PrintedProxy, Number;
  }

  /** What is sent about the device and its packets. */
  lemma DeviceSent(d: Data, k: Key)
    requires k in {DevTypeKey, DevKey, TunnelMtuKey, FragmentSizeKey}
    ensures var g := d.general;
      Lookup(PrintData(d), k) == Lookup(
        (if g.devTypeSet then map[DevTypeKey := if g.devType == TUN then "tun" else "tap"] else map[])
        + (if g.devTypeSet && g.dev != "" then map[DevKey := g.dev] else map[])
        + (if g.tunnelMtuSet then map[TunnelMtuKey := Number(g.tunnelMtu)] else map[])
        + (if g.fragmentSizeSet then map[FragmentSizeKey := Number(g.fragmentSize)] else map[]),
        k)
  {
    hide PrintData, PrintedBasic, PrintedSecurity, PrintedTlsAuth, PrintedProxy, Number;
  }

  /** What is sent of the last two flags, and of the security settings. */
  lemma SecuritySent(d: Data, k: Key)
    requires k in {MssFixKey, RemoteRandomKey, CipherKey, KeysizeKey, AuthKey}
    ensures var g, s := d.general, d.security;
      Lookup(PrintData(d), k) == Lookup(
        (if g.mssFix then map[MssFixKey := "yes"] else map[]) + (if g.remoteRandom then map[RemoteRandomKey := "yes"] else map[])
        + (if s.cipher != DEFAULT_CIPHER then map[CipherKey := CipherName(s.cipher)] else map[])
        + (if s.keysizeSet then map[KeysizeKey := Number(s.keysize)] else map[])
        + (if s.auth != DEFAULT_AUTH then map[AuthKey := AuthName(s.auth)] else map[]),
        k)
  {
    hide PrintData, PrintedBasic, PrintedTlsAuth, PrintedProxy, Number, CipherName, AuthName;
  }

  /** What is sent of the TLS settings, which a static-key connection does not have. */
  lemma TlsAuthSent(d: Data, k: Key)
    requires k in {TlsRemoteKey, RemoteCertTlsKey, TaKey, TaDirKey}
    ensures var t := d.tlsAuth;
      Lookup(PrintData(d), k) == Lookup(
        if d.basic.connectionType == STATIC_KEY then map[] else
          (if t.tlsRemote != "" then map[TlsRemoteKey := t.tlsRemote] else map[])
          + (if t.remoteCertTlsSet then map[RemoteCertTlsKey := if t.remoteCertTls == SERVER then "server" else "client"]
             else map[])
          + (if t.taSet then map[TaKey := if t.ta == "" then "/" else t.ta] else map[])
          + (if t.taSet && t.taDir != KEY_NONE then map[TaDirKey := if t.taDir == ZERO then "0" else "1"] else map[]),
        k)
  {
    hide PrintData, PrintedBasic, PrintedGeneral, PrintedSecurity, PrintedProxy;
  }

  /** What is sent of the proxy settings. */
  lemma ProxySent(d: Data, k: Key)
    requires k in {ProxyTypeKey, ProxyServerKey, ProxyPortKey, ProxyRetryKey, HttpProxyUsernameKey, SocksProxyUsernameKey}
    ensures var p := d.proxy;
      Lookup(PrintData(d), k) == Lookup(
        if p.proxyType == NOT_REQUIRED then map[] else
          map[ProxyTypeKey := if p.proxyType == HTTP then "http" else "socks",
              ProxyServerKey := p.proxyServer, ProxyPortKey := Number(p.proxyPort)]
          + (if p.proxyRetry then map[ProxyRetryKey := "yes"] else map[])
          + (if p.proxyUsername == "" then map[]
             else if p.proxyType == HTTP then map[HttpProxyUsernameKey := p.proxyUsername]
             else map[SocksProxyUsernameKey := p.proxyUsername]),
        k)
  {
    hide PrintData, PrintedBasic, PrintedGeneral, PrintedSecurity, PrintedTlsAuth, Number;
    assert Lookup(PrintData(d), k) == PrintedProxy(d.proxy, k);
  }

  /** No secret is sent among the settings. */
  lemma NoSecretSent(d: Data, k: Key)
    requires k in {CertPassKey, PasswordKey, HttpProxyPasswordKey, SocksProxyPasswordKey}
    ensures k !in PrintData(d)
  {
    hide PrintData, PrintedBasic, PrintedGeneral, PrintedSecurity, PrintedTlsAuth, PrintedProxy;
    assert Lookup(PrintData(d), k) == None;
  }

  /** The secrets that are sent. */
  lemma SecretsSent(d: Data)
    ensures var t := d.basic.connectionType;
      PrintSecrets(d)
      == (if t == TLS || t == PASSWORD_TLS then map[CertPassKey := d.basic.certPass] else map[])
         + (if t == PASSWORD || t == PASSWORD_TLS then map[PasswordKey := d.basic.password] else map[])
         + if d.proxy.proxyPassword == "" then map[]
           else match d.proxy.proxyType
                case NOT_REQUIRED => map[]
                case HTTP => map[HttpProxyPasswordKey := d.proxy.proxyPassword]
                case SOCKS => map[SocksProxyPasswordKey := d.proxy.proxyPassword]
  {
  }

  // ---------- settings from elsewhere ----------

  /** Texts that no name stands for read as the default, and only its name reads as a value. */
  lemma OnlyNamesAreRead(s: string)
    ensures ConnectionTypeNamed(s) == TLS || s == ConnectionTypeName(ConnectionTypeNamed(s))
    ensures DevTypeNamed(s) == TUN || s == DevTypeName(DevTypeNamed(s))
    ensures TlsTypeNamed(s) == SERVER || s == TlsTypeName(TlsTypeNamed(s))
    ensures KeyDirNamed(s) == KEY_NONE || s == KeyDirName(KeyDirNamed(s))
    ensures ProxyTypeNamed(s) == NOT_REQUIRED || s == ProxyTypeName(ProxyTypeNamed(s))
    ensures CipherNamed(s) == DEFAULT_CIPHER || s == CipherName(CipherNamed(s))
    ensures AuthNamed(s) == DEFAULT_AUTH || s == AuthName(AuthNamed(s))
  {
    hide CipherName, CipherNamed, AuthName, AuthNamed;
    OnlyCipherNamesAreRead(s);
    OnlyAuthNamesAreRead(s);
  }

  lemma OnlyCipherNamesAreRead(s: string)
    ensures CipherNamed(s) == DEFAULT_CIPHER || s == CipherName(CipherNamed(s))
  {
  }

  lemma OnlyAuthNamesAreRead(s: string)
    ensures AuthNamed(s) == DEFAULT_AUTH || s == AuthName(AuthNamed(s))
  {
  }

  /** Settings that something else stored: what each choice, flag and number is read as. */
  lemma ParseForeign(p: Data, m: map<Key, string>)
    ensures var b := ParseData(p, m).basic;
      && (b.connectionType == PASSWORD <==> Lookup(m, ConnectionTypeKey) == Some("password"))
      && (b.connectionType == PASSWORD_TLS <==> Lookup(m, ConnectionTypeKey) == Some("password-tls"))
      && (b.connectionType == STATIC_KEY <==> Lookup(m, ConnectionTypeKey) == Some("static-key"))
      && (CaKey !in m ==> b.ca == "") && (RemoteKey !in m ==> b.remote == "")
    ensures var g := ParseData(p, m).general;
      && (g.compLzo <==> Lookup(m, CompLzoKey) == Some("yes")) && (g.protoTcp <==> Lookup(m, ProtoTcpKey) == Some("yes"))
      && (g.mssFix <==> Lookup(m, MssFixKey) == Some("yes")) && (g.remoteRandom <==> Lookup(m, RemoteRandomKey) == Some("yes"))
      && (DevTypeKey in m ==> (g.devType == TAP <==> m[DevTypeKey] == "tap"))
      && (PortKey in m ==> g.port == ToInt(m[PortKey])) && (RenegSecondsKey in m ==> g.renegSeconds == ToInt(m[RenegSecondsKey]))
      && (TunnelMtuKey in m ==> g.tunnelMtu == ToInt(m[TunnelMtuKey]))
      && (FragmentSizeKey in m ==> g.fragmentSize == ToInt(m[FragmentSizeKey]))
    ensures var s, t := ParseData(p, m).security, ParseData(p, m).tlsAuth;
      && (forall c :: c != DEFAULT_CIPHER ==> (s.cipher == c <==> Lookup(m, CipherKey) == Some(CipherName(c))))
      && (forall a :: a != DEFAULT_AUTH ==> (s.auth == a <==> Lookup(m, AuthKey) == Some(AuthName(a))))
      && (KeysizeKey in m ==> s.keysize == ToInt(m[KeysizeKey]))
      && (RemoteCertTlsKey in m ==> (t.remoteCertTls == CLIENT <==> m[RemoteCertTlsKey] == "client"))
    ensures var x := ParseData(p, m).proxy;
      && (x.proxyType == HTTP <==> Lookup(m, ProxyTypeKey) == Some("http"))
      && (x.proxyType == SOCKS <==> Lookup(m, ProxyTypeKey) == Some("socks"))
      && (ProxyTypeKey in m ==> (x.proxyRetry <==> Lookup(m, ProxyRetryKey) == Some("yes")))
      && (ProxyTypeKey in m ==> x.proxyPort == if ProxyPortKey in m then ToInt(m[ProxyPortKey]) else 0)
  {
    hide CipherName, CipherNamed, AuthName, AuthNamed, ToInt;
    OnlyNamesAreRead(ValueOf(m, CipherKey));
    OnlyNamesAreRead(ValueOf(m, AuthKey));
    forall c ensures CipherNamed(CipherName(c)) == c { CipherRoundTrip(c); }
    forall a ensures AuthNamed(AuthName(a)) == a { AuthRoundTrip(a); }
  }

  // ---------- property writes ----------

  /** A write gives its own property the value, and leaves every other property as it was. */
  lemma BasicWrites(d: Data, w: Write)
    ensures w.SetCa? ==> Written(d, w) == d.(basic := d.basic.(ca := w.s))
    ensures w.SetCert? ==> Written(d, w) == d.(basic := d.basic.(cert := w.s))
    ensures w.SetCertPass? ==> Written(d, w) == d.(basic := d.basic.(certPass := w.s))
    ensures w.SetConnectionType? ==> Written(d, w) == d.(basic := d.basic.(connectionType := w.connectionType))
    ensures w.SetKey? ==> Written(d, w) == d.(basic := d.basic.(key := w.s))
    ensures w.SetLocalIp? ==> Written(d, w) == d.(basic := d.basic.(localIp := w.s))
    ensures w.SetPassword? ==> Written(d, w) == d.(basic := d.basic.(password := w.s))
    ensures w.SetRemote? ==> Written(d, w) == d.(basic := d.basic.(remote := w.s))
    ensures w.SetRemoteIp? ==> Written(d, w) == d.(basic := d.basic.(remoteIp := w.s))
    ensures w.SetStaticKey? ==> Written(d, w) == d.(basic := d.basic.(staticKey := w.s))
    ensures w.SetStaticKeyDirection? ==> Written(d, w) == d.(basic := d.basic.(staticKeyDirection := w.keyDir))
    ensures w.SetUsername? ==> Written(d, w) == d.(basic := d.basic.(username := w.s))
  {
  }

  lemma TransportWrites(d: Data, w: Write)
    ensures w.SetPort? ==> Written(d, w) == d.(general := d.general.(port := w.n))
    ensures w.SetPortSet? ==> Written(d, w) == d.(general := d.general.(portSet := w.b))
    ensures w.SetRenegSeconds? ==> Written(d, w) == d.(general := d.general.(renegSeconds := w.n))
    ensures w.SetRenegSecondsSet? ==> Written(d, w) == d.(general := d.general.(renegSecondsSet := w.b))
    ensures w.SetCompLzo? ==> Written(d, w) == d.(general := d.general.(compLzo := w.b))
    ensures w.SetProtoTcp? ==> Written(d, w) == d.(general := d.general.(protoTcp := w.b))
  {
  }

  lemma DeviceWrites(d: Data, w: Write)
    ensures w.SetDev? ==> Written(d, w) == d.(general := d.general.(dev := w.s))
    ensures w.SetDevType? ==> Written(d, w) == d.(general := d.general.(devType := w.devType))
    ensures w.SetDevTypeSet? ==> Written(d, w) == d.(general := d.general.(devTypeSet := w.b))
    ensures w.SetTunnelMtu? ==> Written(d, w) == d.(general := d.general.(tunnelMtu := w.n))
    ensures w.SetTunnelMtuSet? ==> Written(d, w) == d.(general := d.general.(tunnelMtuSet := w.b))
    ensures w.SetFragmentSize? ==> Written(d, w) == d.(general := d.general.(fragmentSize := w.n))
    ensures w.SetFragmentSizeSet? ==> Written(d, w) == d.(general := d.general.(fragmentSizeSet := w.b))
    ensures w.SetMssFix? ==> Written(d, w) == d.(general := d.general.(mssFix := w.b))
    ensures w.SetRemoteRandom? ==> Written(d, w) == d.(general := d.general.(remoteRandom := w.b))
  {
  }

  lemma SecurityWrites(d: Data, w: Write)
    ensures w.SetCipher? ==> Written(d, w) == d.(security := d.security.(cipher := w.cipher))
    ensures w.SetKeysize? ==> Written(d, w) == d.(security := d.security.(keysize := w.n))
    ensures w.SetKeysizeSet? ==> Written(d, w) == d.(security := d.security.(keysizeSet := w.b))
    ensures w.SetAuth? ==> Written(d, w) == d.(security := d.security.(auth := w.auth))
  {
  }

  lemma TlsAuthWrites(d: Data, w: Write)
    ensures w.SetTlsRemote? ==> Written(d, w) == d.(tlsAuth := d.tlsAuth.(tlsRemote := w.s))
    ensures w.SetRemoteCertTls? ==> Written(d, w) == d.(tlsAuth := d.tlsAuth.(remoteCertTls := w.tlsType))
    ensures w.SetRemoteCertTlsSet? ==> Written(d, w) == d.(tlsAuth := d.tlsAuth.(remoteCertTlsSet := w.b))
    ensures w.SetTa? ==> Written(d, w) == d.(tlsAuth := d.tlsAuth.(ta := w.s))
    ensures w.SetTaDir? ==> Written(d, w) == d.(tlsAuth := d.tlsAuth.(taDir := w.keyDir))
    ensures w.SetTaSet? ==> Written(d, w) == d.(tlsAuth := d.tlsAuth.(taSet := w.b))
  {
  }

  lemma ProxyWrites(d: Data, w: Write)
    ensures w.SetProxyType? ==> Written(d, w) == d.(proxy := d.proxy.(proxyType := w.proxyType))
    ensures w.SetProxyServer? ==> Written(d, w) == d.(proxy := d.proxy.(proxyServer := w.s))
    ensures w.SetProxyPort? ==> Written(d, w) == d.(proxy := d.proxy.(proxyPort := w.n))
    ensures w.SetProxyRetry? ==> Written(d, w) == d.(proxy := d.proxy.(proxyRetry := w.b))
    ensures w.SetProxyUsername? ==> Written(d, w) == d.(proxy := d.proxy.(proxyUsername := w.s))
    ensures w.SetProxyPassword? ==> Written(d, w) == d.(proxy := d.proxy.(proxyPassword := w.s))
  {
  }

  // ---------- the texts of the plugin ----------

  lemma BasicKeyTexts()
    ensures KeyName(ConnectionTypeKey) == "connection-type" && KeyName(CaKey) == "ca" && KeyName(CertKey) == "cert"
    ensures KeyName(CertPassFlagsKey) == "cert-pass-flags" && KeyName(KeyKey) == "key" && KeyName(RemoteKey) == "remote"
    ensures KeyName(UsernameKey) == "username" && KeyName(PasswordFlagsKey) == "password-flags" && KeyName(LocalIpKey) == "local-ip"
    ensures KeyName(RemoteIpKey) == "remote-ip" && KeyName(StaticKeyKey) == "static-key" && KeyName(StaticKeyDirectionKey) == "static-key-direction"
  {
  }

  lemma GeneralKeyTexts()
    ensures KeyName(PortKey) == "port" && KeyName(RenegSecondsKey) == "reneg-seconds" && KeyName(CompLzoKey) == "comp-lzo"
    ensures KeyName(ProtoTcpKey) == "proto-tcp" && KeyName(DevTypeKey) == "dev-type" && KeyName(DevKey) == "dev"
    ensures KeyName(TunnelMtuKey) == "tunnel-mtu" && KeyName(FragmentSizeKey) == "fragment-size" && KeyName(MssFixKey) == "mssfix"
    ensures KeyName(RemoteRandomKey) == "remote-random"
  {
  }

  lemma SecurityKeyTexts()
    ensures KeyName(CipherKey) == "cipher" && KeyName(KeysizeKey) == "keysize" && KeyName(AuthKey) == "auth"
    ensures KeyName(TlsRemoteKey) == "tls-remote" && KeyName(RemoteCertTlsKey) == "remote-cert-tls" && KeyName(TaDirKey) == "ta-dir"
    ensures KeyName(TaKey) == "ta"
  {
  }

  lemma ProxyKeyTexts()
    ensures KeyName(ProxyTypeKey) == "proxy-type" && KeyName(ProxyServerKey) == "proxy-server" && KeyName(ProxyPortKey) == "proxy-port"
    ensures KeyName(ProxyRetryKey) == "proxy-retry" && KeyName(HttpProxyUsernameKey) == "http-proxy-username" && KeyName(SocksProxyUsernameKey) == "socks-proxy-username"
  {
  }

  lemma SecretKeyTexts()
    ensures KeyName(CertPassKey) == "cert-pass" && KeyName(PasswordKey) == "password" && KeyName(HttpProxyPasswordKey) == "http-proxy-password"
    ensures KeyName(SocksProxyPasswordKey) == "socks-proxy-password"
  {
  }

  lemma CipherTexts()
    ensures CipherName(DES_CBC) == "DES-CBC" && CipherName(RC2_CBC) == "RC2-CBC" && CipherName(DESX_CBC) == "DESX-CBC"
    ensures CipherName(RC2_40_CBC) == "RC2-40-CBC" && CipherName(CAST5_CBC) == "CAST5-CBC" && CipherName(SEED_CBC) == "SEED-CBC"
    ensures CipherName(DES_EDE_CBC) == "DES-EDE-CBC" && CipherName(DES_EDE3_CBC) == "DES-EDE3-CBC"
  {
  }

  lemma LongCipherTexts()
    ensures CipherName(AES_128_CBC) == "AES-128-CBC" && CipherName(AES_192_CBC) == "AES-192-CBC"
    ensures CipherName(AES_256_CBC) == "AES-256-CBC" && CipherName(CAMELLIA_128_CBC) == "CAMELLIA-128-CBC"
    ensures CipherName(CAMELLIA_192_CBC) == "CAMELLIA-192-CBC" && CipherName(CAMELLIA_256_CBC) == "CAMELLIA-256-CBC"
    ensures CipherName(AES_128_CBC_HMAC_SHA1) == "AES-128-CBC-HMAC-SHA1"
    ensures CipherName(AES_256_CBC_HMAC_SHA1) == "AES-256-CBC-HMAC-SHA1"
  {
  }

  lemma AuthTexts()
    ensures AuthName(NONE) == "none" && AuthName(RSA_MD4) == "RSA-MD4" && AuthName(MD5) == "MD5" && AuthName(SHA1) == "SHA1"
    ensures AuthName(SHA224) == "SHA224" && AuthName(SHA256) == "SHA256" && AuthName(SHA384) == "SHA384"
    ensures AuthName(SHA512) == "SHA512" && AuthName(RIPEMD160) == "RIPEMD160"
  {
  }
}
