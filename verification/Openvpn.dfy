/** The settings of an OpenVPN connection, printed to and parsed from string maps. */
module Openvpn {
  import opened Decimal
  import opened OptionType

  // ---------- keys ----------

  /** The keys of the string maps. */
  datatype Key =
    | ConnectionTypeKey | CaKey | CertKey | CertPassFlagsKey | KeyKey | RemoteKey | UsernameKey
    | PasswordFlagsKey | LocalIpKey | RemoteIpKey | StaticKeyKey | StaticKeyDirectionKey
    | PortKey | RenegSecondsKey | CompLzoKey | ProtoTcpKey | DevTypeKey | DevKey | TunnelMtuKey
    | FragmentSizeKey | MssFixKey | RemoteRandomKey
    | CipherKey | KeysizeKey | AuthKey
    | TlsRemoteKey | RemoteCertTlsKey | TaDirKey | TaKey
    | ProxyTypeKey | ProxyServerKey | ProxyPortKey | ProxyRetryKey | HttpProxyUsernameKey
    | SocksProxyUsernameKey
    | CertPassKey | PasswordKey | HttpProxyPasswordKey | SocksProxyPasswordKey

  datatype Section = BASIC | GENERAL | SECURITY | TLS_AUTH | PROXY | SECRET

  /** The section of the settings that a key belongs to. */
  function SectionOf(k: Key): Section {
    match k
    case PortKey | RenegSecondsKey | CompLzoKey | ProtoTcpKey | DevTypeKey | DevKey | TunnelMtuKey
       | FragmentSizeKey | MssFixKey | RemoteRandomKey => GENERAL
    case CipherKey | KeysizeKey | AuthKey => SECURITY
    case TlsRemoteKey | RemoteCertTlsKey | TaDirKey | TaKey => TLS_AUTH
    case ProxyTypeKey | ProxyServerKey | ProxyPortKey | ProxyRetryKey | HttpProxyUsernameKey
       | SocksProxyUsernameKey => PROXY
    case CertPassKey | PasswordKey | HttpProxyPasswordKey | SocksProxyPasswordKey => SECRET
    case _ => BASIC
  }

  /** The name of a key in the maps. */
  function KeyName(k: Key): string {
    match k
    case ConnectionTypeKey => "connection-type"
    case CaKey => "ca"
    case CertKey => "cert"
    case CertPassFlagsKey => "cert-pass-flags"
    case KeyKey => "key"
    case RemoteKey => "remote"
    case UsernameKey => "username"
    case PasswordFlagsKey => "password-flags"
    case LocalIpKey => "local-ip"
    case RemoteIpKey => "remote-ip"
    case StaticKeyKey => "static-key"
    case StaticKeyDirectionKey => "static-key-direction"
    case PortKey => "port"
    case RenegSecondsKey => "reneg-seconds"
    case CompLzoKey => "comp-lzo"
    case ProtoTcpKey => "proto-tcp"
    case DevTypeKey => "dev-type"
    case DevKey => "dev"
    case TunnelMtuKey => "tunnel-mtu"
    case FragmentSizeKey => "fragment-size"
    case MssFixKey => "mssfix"
    case RemoteRandomKey => "remote-random"
    case CipherKey => "cipher"
    case KeysizeKey => "keysize"
    case AuthKey => "auth"
    case TlsRemoteKey => "tls-remote"
    case RemoteCertTlsKey => "remote-cert-tls"
    case TaDirKey => "ta-dir"
    case TaKey => "ta"
    case ProxyTypeKey => "proxy-type"
    case ProxyServerKey => "proxy-server"
    case ProxyPortKey => "proxy-port"
    case ProxyRetryKey => "proxy-retry"
    case HttpProxyUsernameKey => "http-proxy-username"
    case SocksProxyUsernameKey => "socks-proxy-username"
    case CertPassKey => "cert-pass"
    case PasswordKey => "password"
    case HttpProxyPasswordKey => "http-proxy-password"
    case SocksProxyPasswordKey => "socks-proxy-password"
  }

  /** The key with a name. */
  function KeyNamed(name: string): Option<Key> {
    if |name| <= 8 then ShortKeyNamed(name)
    else if |name| <= 13 then MiddleKeyNamed(name)
    else LongKeyNamed(name)
  }

  function ShortKeyNamed(name: string): Option<Key> {
    if name == "ca" then Some(CaKey)
    else if name == "cert" then Some(CertKey)
    else if name == "key" then Some(KeyKey)
    else if name == "remote" then Some(RemoteKey)
    else if name == "username" then Some(UsernameKey)
    else if name == "local-ip" then Some(LocalIpKey)
    else if name == "port" then Some(PortKey)
    else if name == "comp-lzo" then Some(CompLzoKey)
    else if name == "dev-type" then Some(DevTypeKey)
    else if name == "dev" then Some(DevKey)
    else if name == "mssfix" then Some(MssFixKey)
    else if name == "cipher" then Some(CipherKey)
    else if name == "keysize" then Some(KeysizeKey)
    else if name == "auth" then Some(AuthKey)
    else if name == "ta-dir" then Some(TaDirKey)
    else if name == "ta" then Some(TaKey)
    else if name == "password" then Some(PasswordKey)
    else None
  }

  function MiddleKeyNamed(name: string): Option<Key> {
    if name == "remote-ip" then Some(RemoteIpKey)
    else if name == "static-key" then Some(StaticKeyKey)
    else if name == "reneg-seconds" then Some(RenegSecondsKey)
    else if name == "proto-tcp" then Some(ProtoTcpKey)
    else if name == "tunnel-mtu" then Some(TunnelMtuKey)
    else if name == "fragment-size" then Some(FragmentSizeKey)
    else if name == "remote-random" then Some(RemoteRandomKey)
    else if name == "tls-remote" then Some(TlsRemoteKey)
    else if name == "proxy-type" then Some(ProxyTypeKey)
    else if name == "proxy-server" then Some(ProxyServerKey)
    else if name == "proxy-port" then Some(ProxyPortKey)
    else if name == "proxy-retry" then Some(ProxyRetryKey)
    else if name == "cert-pass" then Some(CertPassKey)
    else None
  }

  function LongKeyNamed(name: string): Option<Key> {
    if name == "connection-type" then Some(ConnectionTypeKey)
    else if name == "cert-pass-flags" then Some(CertPassFlagsKey)
    else if name == "password-flags" then Some(PasswordFlagsKey)
    else if name == "static-key-direction" then Some(StaticKeyDirectionKey)
    else if name == "remote-cert-tls" then Some(RemoteCertTlsKey)
    else if name == "http-proxy-username" then Some(HttpProxyUsernameKey)
    else if name == "socks-proxy-username" then Some(SocksProxyUsernameKey)
    else if name == "http-proxy-password" then Some(HttpProxyPasswordKey)
    else if name == "socks-proxy-password" then Some(SocksProxyPasswordKey)
    else None
  }

  lemma BasicKeyNames(k: Key)
    requires SectionOf(k) == BASIC
    ensures KeyNamed(KeyName(k)) == Some(k)
  {
  }

  lemma GeneralKeyNames(k: Key)
    requires SectionOf(k) == GENERAL
    ensures KeyNamed(KeyName(k)) == Some(k)
  {
  }

  lemma SecurityKeyNames(k: Key)
    requires SectionOf(k) == SECURITY
    ensures KeyNamed(KeyName(k)) == Some(k)
  {
  }

  lemma TlsAuthKeyNames(k: Key)
    requires SectionOf(k) == TLS_AUTH
    ensures KeyNamed(KeyName(k)) == Some(k)
  {
  }

  lemma ProxyKeyNames(k: Key)
    requires SectionOf(k) == PROXY
    ensures KeyNamed(KeyName(k)) == Some(k)
  {
  }

  lemma SecretKeyNames(k: Key)
    requires SectionOf(k) == SECRET
    ensures KeyNamed(KeyName(k)) == Some(k)
  {
  }

  /** Different keys have different names, so a map over keys is a map over names. */
  lemma KeyNamesDistinct(k: Key)
    ensures KeyNamed(KeyName(k)) == Some(k)
  {
    hide KeyNamed, KeyName;
    match SectionOf(k)
    case BASIC => BasicKeyNames(k);
    case GENERAL => GeneralKeyNames(k);
    case SECURITY => SecurityKeyNames(k);
    case TLS_AUTH => TlsAuthKeyNames(k);
    case PROXY => ProxyKeyNames(k);
    case SECRET => SecretKeyNames(k);
  }

  // ---------- values ----------

  datatype ConnectionType = TLS | PASSWORD | PASSWORD_TLS | STATIC_KEY
  datatype DevType = TUN | TAP
  datatype Cipher =
    | DEFAULT_CIPHER
    | DES_CBC
    | RC2_CBC
    | DES_EDE_CBC
    | DES_EDE3_CBC
    | DESX_CBC
    | RC2_40_CBC
    | CAST5_CBC
    | AES_128_CBC
    | AES_192_CBC
    | AES_256_CBC
    | CAMELLIA_128_CBC
    | CAMELLIA_192_CBC
    | CAMELLIA_256_CBC
    | SEED_CBC
    | AES_128_CBC_HMAC_SHA1
    | AES_256_CBC_HMAC_SHA1
  datatype Auth = DEFAULT_AUTH | NONE | RSA_MD4 | MD5 | SHA1 | SHA224 | SHA256 | SHA384 | SHA512 | RIPEMD160
  datatype TlsType = SERVER | CLIENT
  datatype KeyDir = KEY_NONE | ZERO | ONE
  datatype ProxyType = NOT_REQUIRED | HTTP | SOCKS

  function ConnectionTypeName(t: ConnectionType): string {
    match t
    case TLS => "tls"
    case PASSWORD => "password"
    case PASSWORD_TLS => "password-tls"
    case STATIC_KEY => "static-key"
  }

  function ConnectionTypeNamed(s: string): ConnectionType {
    if s == "password" then PASSWORD else if s == "password-tls" then PASSWORD_TLS
    else if s == "static-key" then STATIC_KEY else TLS
  }

  function DevTypeName(t: DevType): string {
    if t == TUN then "tun" else "tap"
  }

  function DevTypeNamed(s: string): DevType {
    if s == "tap" then TAP else TUN
  }

  /** The name of a cipher; the default one has none. */
  function CipherName(c: Cipher): string {
    match c
    case DEFAULT_CIPHER => ""
    case DES_CBC => "DES-CBC"
    case RC2_CBC => "RC2-CBC"
    case DES_EDE_CBC => "DES-EDE-CBC"
    case DES_EDE3_CBC => "DES-EDE3-CBC"
    case DESX_CBC => "DESX-CBC"
    case RC2_40_CBC => "RC2-40-CBC"
    case CAST5_CBC => "CAST5-CBC"
    case AES_128_CBC => "AES-128-CBC"
    case AES_192_CBC => "AES-192-CBC"
    case AES_256_CBC => "AES-256-CBC"
    case CAMELLIA_128_CBC => "CAMELLIA-128-CBC"
    case CAMELLIA_192_CBC => "CAMELLIA-192-CBC"
    case CAMELLIA_256_CBC => "CAMELLIA-256-CBC"
    case SEED_CBC => "SEED-CBC"
    case AES_128_CBC_HMAC_SHA1 => "AES-128-CBC-HMAC-SHA1"
    case AES_256_CBC_HMAC_SHA1 => "AES-256-CBC-HMAC-SHA1"
  }

  function CipherNamed(s: string): Cipher {
    if |s| <= 10 then ShortCipherNamed(s) else LongCipherNamed(s)
  }

  function ShortCipherNamed(s: string): Cipher {
    if s == "DES-CBC" then DES_CBC
    else if s == "RC2-CBC" then RC2_CBC
    else if s == "DESX-CBC" then DESX_CBC
    else if s == "RC2-40-CBC" then RC2_40_CBC
    else if s == "CAST5-CBC" then CAST5_CBC
    else if s == "SEED-CBC" then SEED_CBC
    else DEFAULT_CIPHER
  }

  function LongCipherNamed(s: string): Cipher {
    if s == "DES-EDE-CBC" then DES_EDE_CBC
    else if s == "DES-EDE3-CBC" then DES_EDE3_CBC
    else if s == "AES-128-CBC" then AES_128_CBC
    else if s == "AES-192-CBC" then AES_192_CBC
    else if s == "AES-256-CBC" then AES_256_CBC
    else if s == "CAMELLIA-128-CBC" then CAMELLIA_128_CBC
    else if s == "CAMELLIA-192-CBC" then CAMELLIA_192_CBC
    else if s == "CAMELLIA-256-CBC" then CAMELLIA_256_CBC
    else if s == "AES-128-CBC-HMAC-SHA1" then AES_128_CBC_HMAC_SHA1
    else if s == "AES-256-CBC-HMAC-SHA1" then AES_256_CBC_HMAC_SHA1
    else DEFAULT_CIPHER
  }

  function AuthName(a: Auth): string {
    match a
    case DEFAULT_AUTH => ""
    case NONE => "none"
    case RSA_MD4 => "RSA-MD4"
    case MD5 => "MD5"
    case SHA1 => "SHA1"
    case SHA224 => "SHA224"
    case SHA256 => "SHA256"
    case SHA384 => "SHA384"
    case SHA512 => "SHA512"
    case RIPEMD160 => "RIPEMD160"
  }

  function AuthNamed(s: string): Auth {
    if s == "none" then NONE
    else if s == "RSA-MD4" then RSA_MD4
    else if s == "MD5" then MD5
    else if s == "SHA1" then SHA1
    else if s == "SHA224" then SHA224
    else if s == "SHA256" then SHA256
    else if s == "SHA384" then SHA384
    else if s == "SHA512" then SHA512
    else if s == "RIPEMD160" then RIPEMD160
    else DEFAULT_AUTH
  }

  function TlsTypeName(t: TlsType): string {
    if t == SERVER then "server" else "client"
  }

  function TlsTypeNamed(s: string): TlsType {
    if s == "client" then CLIENT else SERVER
  }

  /** The name of a key direction; no direction has none. */
  function KeyDirName(d: KeyDir): string {
    match d
    case KEY_NONE => ""
    case ZERO => "0"
    case ONE => "1"
  }

  function KeyDirNamed(s: string): KeyDir {
    if s == "0" then ZERO else if s == "1" then ONE else KEY_NONE
  }

  function ProxyTypeName(t: ProxyType): string {
    match t
    case NOT_REQUIRED => ""
    case HTTP => "http"
    case SOCKS => "socks"
  }

  function ProxyTypeNamed(s: string): ProxyType {
    if s == "http" then HTTP else if s == "socks" then SOCKS else NOT_REQUIRED
  }

  /** Reading a printed name gives back the value. */
  lemma NamesRoundTrip()
    ensures forall t :: ConnectionTypeNamed(ConnectionTypeName(t)) == t
    ensures forall t :: DevTypeNamed(DevTypeName(t)) == t
    ensures forall t :: TlsTypeNamed(TlsTypeName(t)) == t
    ensures forall d :: KeyDirNamed(KeyDirName(d)) == d
    ensures forall t :: ProxyTypeNamed(ProxyTypeName(t)) == t
  {
  }

  lemma ShortCipherRoundTrip(c: Cipher)
    requires |CipherName(c)| <= 10
    ensures ShortCipherNamed(CipherName(c)) == c
  {
  }

  lemma LongCipherRoundTrip(c: Cipher)
    requires |CipherName(c)| > 10
    ensures LongCipherNamed(CipherName(c)) == c
  {
  }

  lemma CipherRoundTrip(c: Cipher)
    ensures CipherNamed(CipherName(c)) == c
  {
    hide CipherName, ShortCipherNamed, LongCipherNamed;
    if |CipherName(c)| <= 10 {
      ShortCipherRoundTrip(c);
    } else {
      LongCipherRoundTrip(c);
    }
  }

  lemma AuthRoundTrip(a: Auth)
    ensures AuthNamed(AuthName(a)) == a
  {
  }

  // ---------- settings ----------

  datatype Basic = Basic(
    ca: string, cert: string, certPass: string, connectionType: ConnectionType, key: string, localIp: string,
    password: string, remote: string, remoteIp: string, staticKey: string, staticKeyDirection: KeyDir, username: string)

  datatype General = General(
    port: int32, portSet: bool, renegSeconds: int32, renegSecondsSet: bool, compLzo: bool, protoTcp: bool,
    dev: string, devType: DevType, devTypeSet: bool, tunnelMtu: int32, tunnelMtuSet: bool,
    fragmentSize: int32, fragmentSizeSet: bool, mssFix: bool, remoteRandom: bool)

  datatype Security = Security(cipher: Cipher, keysize: int32, keysizeSet: bool, auth: Auth)

  datatype TlsAuth = TlsAuth(
    tlsRemote: string, remoteCertTls: TlsType, remoteCertTlsSet: bool, ta: string, taDir: KeyDir, taSet: bool)

  datatype Proxy = Proxy(
    proxyType: ProxyType, proxyServer: string, proxyPort: int32, proxyRetry: bool,
    proxyUsername: string, proxyPassword: string)

  datatype Data = Data(basic: Basic, general: General, security: Security, tlsAuth: TlsAuth, proxy: Proxy)

  const DEFAULT_DATA: Data := Data(
    Basic("", "", "", TLS, "", "", "", "", "", "", KEY_NONE, ""),
    General(1194, false, 0, false, false, false, "", TUN, false, 1500, false, 1300, false, false, false),
    Security(DEFAULT_CIPHER, 128, false, DEFAULT_AUTH),
    TlsAuth("", SERVER, false, "", KEY_NONE, false),
    Proxy(NOT_REQUIRED, "", 80, false, "", ""))

  // ---------- what is printed under each key ----------

  function PrintedBasic(b: Basic, k: Key): Option<string> {
    var t := b.connectionType;
    match k
    case ConnectionTypeKey => Some(ConnectionTypeName(t))
    case CaKey => Some(b.ca)
    case RemoteKey => Some(b.remote)
    case CertKey => If(t == TLS || t == PASSWORD_TLS, b.cert)
    case CertPassFlagsKey => If(t == TLS || t == PASSWORD_TLS, "1")
    case KeyKey => If(t == TLS || t == PASSWORD_TLS, b.key)
    case UsernameKey => If(t == PASSWORD || t == PASSWORD_TLS, b.username)
    case PasswordFlagsKey => If(t == PASSWORD || t == PASSWORD_TLS, "1")
    case LocalIpKey => If(t == STATIC_KEY, b.localIp)
    case RemoteIpKey => If(t == STATIC_KEY, b.remoteIp)
    case StaticKeyKey => If(t == STATIC_KEY, b.staticKey)
    case StaticKeyDirectionKey =>
      If(t == STATIC_KEY && b.staticKeyDirection != KEY_NONE, KeyDirName(b.staticKeyDirection))
    case _ => None
  }

  function PrintedGeneral(g: General, k: Key): Option<string> {
    match k
    case PortKey => If(g.portSet, Number(g.port))
    case RenegSecondsKey => If(g.renegSecondsSet, Number(g.renegSeconds))
    case CompLzoKey => If(g.compLzo, "yes")
    case ProtoTcpKey => If(g.protoTcp, "yes")
    case DevTypeKey => If(g.devTypeSet, DevTypeName(g.devType))
    case DevKey => If(g.devTypeSet && g.dev != "", g.dev)
    case TunnelMtuKey => If(g.tunnelMtuSet, Number(g.tunnelMtu))
    case FragmentSizeKey => If(g.fragmentSizeSet, Number(g.fragmentSize))
    case MssFixKey => If(g.mssFix, "yes")
    case RemoteRandomKey => If(g.remoteRandom, "yes")
    case _ => None
  }

  function PrintedSecurity(s: Security, k: Key): Option<string> {
    match k
    case CipherKey => If(s.cipher != DEFAULT_CIPHER, CipherName(s.cipher))
    case KeysizeKey => If(s.keysizeSet, Number(s.keysize))
    case AuthKey => If(s.auth != DEFAULT_AUTH, AuthName(s.auth))
    case _ => None
  }

  function PrintedTlsAuth(connectionType: ConnectionType, t: TlsAuth, k: Key): Option<string> {
    var tls := connectionType != STATIC_KEY;
    match k
    case TlsRemoteKey => If(tls && t.tlsRemote != "", t.tlsRemote)
    case RemoteCertTlsKey => If(tls && t.remoteCertTlsSet, TlsTypeName(t.remoteCertTls))
    case TaDirKey => If(tls && t.taSet && t.taDir != KEY_NONE, KeyDirName(t.taDir))
    case TaKey => If(tls && t.taSet, if t.ta == "" then "/" else t.ta)
    case _ => None
  }

  function PrintedProxy(p: Proxy, k: Key): Option<string> {
    var used := p.proxyType != NOT_REQUIRED;
    match k
    case ProxyTypeKey => If(used, ProxyTypeName(p.proxyType))
    case ProxyServerKey => If(used, p.proxyServer)
    case ProxyPortKey => If(used, Number(p.proxyPort))
    case ProxyRetryKey => If(used && p.proxyRetry, "yes")
    case HttpProxyUsernameKey => If(p.proxyType == HTTP && p.proxyUsername != "", p.proxyUsername)
    case SocksProxyUsernameKey => If(p.proxyType == SOCKS && p.proxyUsername != "", p.proxyUsername)
    case _ => None
  }

  function Printed(d: Data, k: Key): Option<string> {
    match SectionOf(k)
    case BASIC => PrintedBasic(d.basic, k)
    case GENERAL => PrintedGeneral(d.general, k)
    case SECURITY => PrintedSecurity(d.security, k)
    case TLS_AUTH => PrintedTlsAuth(d.basic.connectionType, d.tlsAuth, k)
    case PROXY => PrintedProxy(d.proxy, k)
    case SECRET => None
  }

  function PrintedSecret(d: Data, k: Key): Option<string> {
    var t := d.basic.connectionType;
    match k
    case CertPassKey => If(t == TLS || t == PASSWORD_TLS, d.basic.certPass)
    case PasswordKey => If(t == PASSWORD || t == PASSWORD_TLS, d.basic.password)
    case HttpProxyPasswordKey => If(d.proxy.proxyType == HTTP && d.proxy.proxyPassword != "", d.proxy.proxyPassword)
    case SocksProxyPasswordKey => If(d.proxy.proxyType == SOCKS && d.proxy.proxyPassword != "", d.proxy.proxyPassword)
    case _ => None
  }

  /** The map of all printed settings, and the map of all printed secrets. */
  function PrintData(d: Data): (r: map<Key, string>)
    ensures forall k :: Lookup(r, k) == Printed(d, k)
  {
    map k: Key | Printed(d, k).Some? :: Printed(d, k).value
  }

  function PrintSecrets(d: Data): (r: map<Key, string>)
    ensures forall k :: Lookup(r, k) == PrintedSecret(d, k)
  {
    map k: Key | PrintedSecret(d, k).Some? :: PrintedSecret(d, k).value
  }

  // ---------- parsing ----------

  function ParseBasic(b: Basic, m: map<Key, string>): Basic {
    b.(ca := ValueOf(m, CaKey), cert := ValueOf(m, CertKey),
       connectionType := ConnectionTypeNamed(ValueOf(m, ConnectionTypeKey)),
       key := ValueOf(m, KeyKey), localIp := ValueOf(m, LocalIpKey), remote := ValueOf(m, RemoteKey),
       remoteIp := ValueOf(m, RemoteIpKey), staticKey := ValueOf(m, StaticKeyKey),
       staticKeyDirection := if StaticKeyDirectionKey in m then KeyDirNamed(m[StaticKeyDirectionKey]) else KEY_NONE,
       username := ValueOf(m, UsernameKey))
  }

  /** An integer setting: kept as it was where the map has no such key. */
  function ParseNumber(old_: int32, m: map<Key, string>, k: Key): int32 {
    if k in m then ToInt(m[k]) else old_
  }

  function ParseGeneral(g: General, m: map<Key, string>): General {
    General(
      ParseNumber(g.port, m, PortKey), PortKey in m,
      ParseNumber(g.renegSeconds, m, RenegSecondsKey), RenegSecondsKey in m,
      IsYes(ValueOf(m, CompLzoKey)), IsYes(ValueOf(m, ProtoTcpKey)),
      if DevTypeKey in m then ValueOf(m, DevKey) else g.dev,
      if DevTypeKey in m then DevTypeNamed(m[DevTypeKey]) else g.devType, DevTypeKey in m,
      ParseNumber(g.tunnelMtu, m, TunnelMtuKey), TunnelMtuKey in m,
      ParseNumber(g.fragmentSize, m, FragmentSizeKey), FragmentSizeKey in m,
      IsYes(ValueOf(m, MssFixKey)), IsYes(ValueOf(m, RemoteRandomKey)))
  }

  function ParseSecurity(s: Security, m: map<Key, string>): Security {
    Security(
      if CipherKey in m then CipherNamed(m[CipherKey]) else DEFAULT_CIPHER,
      ParseNumber(s.keysize, m, KeysizeKey), KeysizeKey in m,
      if AuthKey in m then AuthNamed(m[AuthKey]) else DEFAULT_AUTH)
  }

  function ParseTlsAuth(t: TlsAuth, m: map<Key, string>): TlsAuth {
    TlsAuth(
      ValueOf(m, TlsRemoteKey),
      if RemoteCertTlsKey in m then TlsTypeNamed(m[RemoteCertTlsKey]) else t.remoteCertTls, RemoteCertTlsKey in m,
      if TaKey in m then m[TaKey] else t.ta,
      if TaKey in m then KeyDirNamed(ValueOf(m, TaDirKey)) else t.taDir, TaKey in m)
  }

  function ParseProxy(p: Proxy, m: map<Key, string>): Proxy {
    if ProxyTypeKey !in m then p.(proxyType := NOT_REQUIRED) else
      var t := ProxyTypeNamed(m[ProxyTypeKey]);
      Proxy(t, ValueOf(m, ProxyServerKey), ParseNumber(0, m, ProxyPortKey), IsYes(ValueOf(m, ProxyRetryKey)),
        match t
        case NOT_REQUIRED => p.proxyUsername
        case HTTP => ValueOf(m, HttpProxyUsernameKey)
        case SOCKS => ValueOf(m, SocksProxyUsernameKey),
        p.proxyPassword)
  }

  function ParseData(d: Data, m: map<Key, string>): Data {
    Data(ParseBasic(d.basic, m), ParseGeneral(d.general, m), ParseSecurity(d.security, m),
         ParseTlsAuth(d.tlsAuth, m), ParseProxy(d.proxy, m))
  }

  function ParseSecrets(d: Data, m: map<Key, string>): Data {
    d.(basic := d.basic.(certPass := ValueOf(m, CertPassKey), password := ValueOf(m, PasswordKey)),
       proxy := d.proxy.(proxyPassword :=
         match d.proxy.proxyType
         case NOT_REQUIRED => d.proxy.proxyPassword
         case HTTP => ValueOf(m, HttpProxyPasswordKey)
         case SOCKS => ValueOf(m, SocksProxyPasswordKey)))
  }

  // ---------- round trips ----------

  lemma BasicRoundTrip(p: Basic, b: Basic, m: map<Key, string>, k: Key)
    requires forall i :: SectionOf(i) == BASIC ==> Lookup(m, i) == PrintedBasic(b, i)
    requires SectionOf(k) == BASIC
    ensures PrintedBasic(ParseBasic(p, m), k) == PrintedBasic(b, k)
    ensures ParseBasic(p, m).connectionType == b.connectionType
  {
    NamesRoundTrip();
    assert Lookup(m, ConnectionTypeKey) == Some(ConnectionTypeName(b.connectionType));
    assert Lookup(m, k) == PrintedBasic(b, k);
  }

  lemma GeneralRoundTrip(p: General, g: General, m: map<Key, string>, k: Key)
    requires forall i :: SectionOf(i) == GENERAL ==> Lookup(m, i) == PrintedGeneral(g, i)
    requires SectionOf(k) == GENERAL
    ensures PrintedGeneral(ParseGeneral(p, m), k) == PrintedGeneral(g, k)
  {
    NamesRoundTrip();
    NumberToInt(g.port);
    NumberToInt(g.renegSeconds);
    NumberToInt(g.tunnelMtu);
    NumberToInt(g.fragmentSize);
    hide Number, ToInt;
    assert Lookup(m, k) == PrintedGeneral(g, k) && Lookup(m, DevTypeKey) == PrintedGeneral(g, DevTypeKey);
  }

  lemma SecurityRoundTrip(p: Security, s: Security, m: map<Key, string>, k: Key)
    requires forall i :: SectionOf(i) == SECURITY ==> Lookup(m, i) == PrintedSecurity(s, i)
    requires SectionOf(k) == SECURITY
    ensures PrintedSecurity(ParseSecurity(p, m), k) == PrintedSecurity(s, k)
  {
    CipherRoundTrip(s.cipher);
    AuthRoundTrip(s.auth);
    NumberToInt(s.keysize);
    hide Number, ToInt, CipherName, CipherNamed, AuthName, AuthNamed;
    assert Lookup(m, k) == PrintedSecurity(s, k);
  }

  lemma TlsAuthRoundTrip(c: ConnectionType, p: TlsAuth, t: TlsAuth, m: map<Key, string>, k: Key)
    requires forall i :: SectionOf(i) == TLS_AUTH ==> Lookup(m, i) == PrintedTlsAuth(c, t, i)
    requires SectionOf(k) == TLS_AUTH
    ensures PrintedTlsAuth(c, ParseTlsAuth(p, m), k) == PrintedTlsAuth(c, t, k)
  {
    NamesRoundTrip();
    assert Lookup(m, k) == PrintedTlsAuth(c, t, k) && Lookup(m, TaKey) == PrintedTlsAuth(c, t, TaKey);
  }

  lemma ProxyRoundTrip(p: Proxy, x: Proxy, m: map<Key, string>, k: Key)
    requires forall i :: SectionOf(i) == PROXY ==> Lookup(m, i) == PrintedProxy(x, i)
    requires SectionOf(k) == PROXY
    ensures PrintedProxy(ParseProxy(p, m), k) == PrintedProxy(x, k)
    ensures ParseProxy(p, m).proxyType == x.proxyType
  {
    NamesRoundTrip();
    NumberToInt(x.proxyPort);
    hide Number, ToInt;
    assert Lookup(m, k) == PrintedProxy(x, k) && Lookup(m, ProxyTypeKey) == PrintedProxy(x, ProxyTypeKey);
  }

  lemma SamePrint(d: Data, e: Data)
    requires forall k :: Printed(d, k) == Printed(e, k)
    ensures PrintData(d) == PrintData(e)
  {
    hide Printed;
    SameLookups(PrintData(d), PrintData(e));
  }

  /** Parsing printed settings over any earlier settings, and printing again, prints the same. */
  lemma DataRoundTrip(p: Data, d: Data)
    ensures PrintData(ParseData(p, PrintData(d))) == PrintData(d)
    ensures ParseData(p, PrintData(d)).basic.connectionType == d.basic.connectionType
    ensures ParseData(p, PrintData(d)).proxy.proxyType == d.proxy.proxyType
  {
    hide ParseBasic, ParseGeneral, ParseSecurity, ParseTlsAuth, ParseProxy;
    hide PrintedBasic, PrintedGeneral, PrintedSecurity, PrintedTlsAuth, PrintedProxy, PrintData;
    var m := PrintData(d);
    BasicRoundTrip(p.basic, d.basic, m, ConnectionTypeKey);
    ProxyRoundTrip(p.proxy, d.proxy, m, ProxyTypeKey);
    forall k ensures Printed(ParseData(p, m), k) == Printed(d, k) {
      match SectionOf(k)
      case BASIC => BasicRoundTrip(p.basic, d.basic, m, k);
      case GENERAL => GeneralRoundTrip(p.general, d.general, m, k);
      case SECURITY => SecurityRoundTrip(p.security, d.security, m, k);
      case TLS_AUTH => TlsAuthRoundTrip(d.basic.connectionType, p.tlsAuth, d.tlsAuth, m, k);
      case PROXY => ProxyRoundTrip(p.proxy, d.proxy, m, k);
      case SECRET =>
    }
    SamePrint(ParseData(p, m), d);
  }

  /** Secrets are not printed among the settings. */
  lemma SecretsNotPrinted(d: Data, m: map<Key, string>)
    ensures PrintData(ParseSecrets(d, m)) == PrintData(d)
  {
    hide PrintData, PrintedGeneral, PrintedSecurity, PrintedTlsAuth;
    forall k ensures Printed(ParseSecrets(d, m), k) == Printed(d, k) {}
    SamePrint(ParseSecrets(d, m), d);
  }

  /** Parsing the printed secrets after the printed settings makes both maps print the same again. */
  lemma SecretsRoundTrip(p: Data, d: Data)
    ensures var e := ParseSecrets(ParseData(p, PrintData(d)), PrintSecrets(d));
      PrintSecrets(e) == PrintSecrets(d) && PrintData(e) == PrintData(d)
  {
    var parsed := ParseData(p, PrintData(d));
    DataRoundTrip(p, d);
    SecretsNotPrinted(parsed, PrintSecrets(d));
    hide ParseData, PrintData;
    SecretsRead(parsed, d, PrintSecrets(d));
  }

  lemma SecretsRead(parsed: Data, d: Data, m: map<Key, string>)
    requires parsed.basic.connectionType == d.basic.connectionType && parsed.proxy.proxyType == d.proxy.proxyType
    requires forall k :: Lookup(m, k) == PrintedSecret(d, k)
    ensures PrintSecrets(ParseSecrets(parsed, m)) == PrintSecrets(d)
  {
    assert Lookup(m, CertPassKey) == PrintedSecret(d, CertPassKey) && Lookup(m, PasswordKey) == PrintedSecret(d, PasswordKey);
    assert Lookup(m, HttpProxyPasswordKey) == PrintedSecret(d, HttpProxyPasswordKey);
    assert Lookup(m, SocksProxyPasswordKey) == PrintedSecret(d, SocksProxyPasswordKey);
    var e := ParseSecrets(parsed, m);
    forall k ensures PrintedSecret(e, k) == PrintedSecret(d, k) {}
    hide PrintedSecret, ParseSecrets;
    SameLookups(PrintSecrets(e), PrintSecrets(d));
  }

  /** Whatever map the settings came from, printing what was parsed from it is a fixed point. */
  lemma ForeignFixedPoint(p: Data, q: Data, m: map<Key, string>)
    ensures var printed := PrintData(ParseData(p, m)); PrintData(ParseData(q, printed)) == printed
  {
    DataRoundTrip(q, ParseData(p, m));
  }

  // ---------- the connection object ----------

  /** One property write; the last three are secrets. */
  datatype Write =
    | SetCa(s: string) | SetCert(s: string) | SetConnectionType(connectionType: ConnectionType) | SetKey(s: string)
    | SetLocalIp(s: string) | SetRemote(s: string) | SetRemoteIp(s: string) | SetStaticKey(s: string)
    | SetStaticKeyDirection(keyDir: KeyDir) | SetUsername(s: string)
    | SetPort(n: int32) | SetPortSet(b: bool) | SetRenegSeconds(n: int32) | SetRenegSecondsSet(b: bool)
    | SetCompLzo(b: bool) | SetProtoTcp(b: bool) | SetDev(s: string) | SetDevType(devType: DevType) | SetDevTypeSet(b: bool)
    | SetTunnelMtu(n: int32) | SetTunnelMtuSet(b: bool) | SetFragmentSize(n: int32) | SetFragmentSizeSet(b: bool)
    | SetMssFix(b: bool) | SetRemoteRandom(b: bool)
    | SetCipher(cipher: Cipher) | SetKeysize(n: int32) | SetKeysizeSet(b: bool) | SetAuth(auth: Auth)
    | SetTlsRemote(s: string) | SetRemoteCertTls(tlsType: TlsType) | SetRemoteCertTlsSet(b: bool)
    | SetTa(s: string) | SetTaDir(keyDir: KeyDir) | SetTaSet(b: bool)
    | SetProxyType(proxyType: ProxyType) | SetProxyServer(s: string) | SetProxyPort(n: int32) | SetProxyRetry(b: bool)
    | SetProxyUsername(s: string)
    | SetCertPass(s: string) | SetPassword(s: string) | SetProxyPassword(s: string)

  predicate IsSecret(w: Write) {
    w.SetCertPass? || w.SetPassword? || w.SetProxyPassword?
  }

  /** The settings with the written property changed. */
  function Written(d: Data, w: Write): Data {
    match w
    case SetCa(s) => d.(basic := d.basic.(ca := s))
    case SetCert(s) => d.(basic := d.basic.(cert := s))
    case SetCertPass(s) => d.(basic := d.basic.(certPass := s))
    case SetConnectionType(t) => d.(basic := d.basic.(connectionType := t))
    case SetKey(s) => d.(basic := d.basic.(key := s))
    case SetLocalIp(s) => d.(basic := d.basic.(localIp := s))
    case SetPassword(s) => d.(basic := d.basic.(password := s))
    case SetRemote(s) => d.(basic := d.basic.(remote := s))
    case SetRemoteIp(s) => d.(basic := d.basic.(remoteIp := s))
    case SetStaticKey(s) => d.(basic := d.basic.(staticKey := s))
    case SetStaticKeyDirection(k) => d.(basic := d.basic.(staticKeyDirection := k))
    case SetUsername(s) => d.(basic := d.basic.(username := s))
    case SetPort(n) => d.(general := d.general.(port := n))
    case SetPortSet(b) => d.(general := d.general.(portSet := b))
    case SetRenegSeconds(n) => d.(general := d.general.(renegSeconds := n))
    case SetRenegSecondsSet(b) => d.(general := d.general.(renegSecondsSet := b))
    case SetCompLzo(b) => d.(general := d.general.(compLzo := b))
    case SetProtoTcp(b) => d.(general := d.general.(protoTcp := b))
    case SetDev(s) => d.(general := d.general.(dev := s))
    case SetDevType(t) => d.(general := d.general.(devType := t))
    case SetDevTypeSet(b) => d.(general := d.general.(devTypeSet := b))
    case SetTunnelMtu(n) => d.(general := d.general.(tunnelMtu := n))
    case SetTunnelMtuSet(b) => d.(general := d.general.(tunnelMtuSet := b))
    case SetFragmentSize(n) => d.(general := d.general.(fragmentSize := n))
    case SetFragmentSizeSet(b) => d.(general := d.general.(fragmentSizeSet := b))
    case SetMssFix(b) => d.(general := d.general.(mssFix := b))
    case SetRemoteRandom(b) => d.(general := d.general.(remoteRandom := b))
    case SetCipher(c) => d.(security := d.security.(cipher := c))
    case SetKeysize(n) => d.(security := d.security.(keysize := n))
    case SetKeysizeSet(b) => d.(security := d.security.(keysizeSet := b))
    case SetAuth(a) => d.(security := d.security.(auth := a))
    case SetTlsRemote(s) => d.(tlsAuth := d.tlsAuth.(tlsRemote := s))
    case SetRemoteCertTls(t) => d.(tlsAuth := d.tlsAuth.(remoteCertTls := t))
    case SetRemoteCertTlsSet(b) => d.(tlsAuth := d.tlsAuth.(remoteCertTlsSet := b))
    case SetTa(s) => d.(tlsAuth := d.tlsAuth.(ta := s))
    case SetTaDir(k) => d.(tlsAuth := d.tlsAuth.(taDir := k))
    case SetTaSet(b) => d.(tlsAuth := d.tlsAuth.(taSet := b))
    case SetProxyType(t) => d.(proxy := d.proxy.(proxyType := t))
    case SetProxyServer(s) => d.(proxy := d.proxy.(proxyServer := s))
    case SetProxyPort(n) => d.(proxy := d.proxy.(proxyPort := n))
    case SetProxyRetry(b) => d.(proxy := d.proxy.(proxyRetry := b))
    case SetProxyUsername(s) => d.(proxy := d.proxy.(proxyUsername := s))
    case SetProxyPassword(s) => d.(proxy := d.proxy.(proxyPassword := s))
  }

  /** A secret write leaves the printed settings as they were. */
  lemma SecretWriteKeepsData(d: Data, w: Write)
    requires IsSecret(w)
    ensures PrintData(Written(d, w)) == PrintData(d)
  {
    hide PrintData, PrintedGeneral, PrintedSecurity, PrintedTlsAuth;
    forall k ensures Printed(Written(d, w), k) == Printed(d, k) {}
    SamePrint(Written(d, w), d);
  }

  /** The secret values agree, whether or not they are in use. */
  predicate SameSecretValues(d: Data, e: Data) {
    && e.basic.certPass == d.basic.certPass && e.basic.password == d.basic.password
    && e.proxy.proxyPassword == d.proxy.proxyPassword
  }

  /** The secrets are printed alike exactly if the same keys are in use. */
  lemma SameSecretsIff(d: Data, e: Data)
    requires SameSecretValues(d, e)
    ensures (forall k :: PrintedSecret(e, k) == PrintedSecret(d, k))
      <==> (e.basic.connectionType == d.basic.connectionType
            && (e.proxy.proxyType == d.proxy.proxyType || d.proxy.proxyPassword == ""))
  {
    if forall k :: PrintedSecret(e, k) == PrintedSecret(d, k) {
      assert PrintedSecret(e, CertPassKey) == PrintedSecret(d, CertPassKey);
      assert PrintedSecret(e, PasswordKey) == PrintedSecret(d, PasswordKey);
      assert PrintedSecret(e, HttpProxyPasswordKey) == PrintedSecret(d, HttpProxyPasswordKey);
      assert PrintedSecret(e, SocksProxyPasswordKey) == PrintedSecret(d, SocksProxyPasswordKey);
    }
  }

  /**
   * Settings with the same secret values print the same secrets exactly if they have the same connection type, and
   * the same proxy type or no proxy password.
   */
  lemma SecretsPrintAlikeIff(d: Data, e: Data)
    requires SameSecretValues(d, e)
    ensures PrintSecrets(e) == PrintSecrets(d)
      <==> (e.basic.connectionType == d.basic.connectionType
            && (e.proxy.proxyType == d.proxy.proxyType || d.proxy.proxyPassword == ""))
  {
    hide PrintedSecret;
    SameSecretsIff(d, e);
    if forall k :: PrintedSecret(e, k) == PrintedSecret(d, k) {
      SameLookups(PrintSecrets(e), PrintSecrets(d));
    } else {
      var k :| PrintedSecret(e, k) != PrintedSecret(d, k);
      assert Lookup(PrintSecrets(e), k) != Lookup(PrintSecrets(d), k);
    }
  }

  lemma DataWriteKeepsSecretValues(d: Data, w: Write)
    requires !IsSecret(w)
    ensures SameSecretValues(d, Written(d, w))
  {
    var e := Written(d, w);
    if w.SetConnectionType? || w.SetProxyType? {
    } else {
      assert e.basic.certPass == d.basic.certPass && e.basic.password == d.basic.password;
    }
  }

  lemma PasswordThenTypeWrites(d: Data, password: string, t: ConnectionType)
    requires d.basic.password != password && d.basic.connectionType != t
    ensures Written(d, SetPassword(password)) != d && Written(d, SetConnectionType(t)) != d
    ensures Written(d, SetPassword(password)).basic.connectionType != t
    ensures Written(Written(d, SetPassword(password)), SetConnectionType(t)).basic.connectionType == t
    ensures IsSecret(SetPassword(password)) && !IsSecret(SetConnectionType(t))
  {
  }

  /**
   * A settings write leaves the printed secrets as they were exactly if it keeps the connection type, and keeps
   * the proxy type or there is no proxy password.
   */
  lemma DataWriteKeepsSecretsIff(d: Data, w: Write)
    requires !IsSecret(w)
    ensures var e := Written(d, w);
      PrintSecrets(e) == PrintSecrets(d)
      <==> (e.basic.connectionType == d.basic.connectionType
            && (e.proxy.proxyType == d.proxy.proxyType || d.proxy.proxyPassword == ""))
  {
    hide Written, PrintSecrets;
    DataWriteKeepsSecretValues(d, w);
    SecretsPrintAlikeIff(d, Written(d, w));
  }

  method BuildBasic(b: Basic) returns (data: map<Key, string>)
    ensures forall k :: Lookup(data, k) == if SectionOf(k) == BASIC then PrintedBasic(b, k) else None
  {
    data := map[ConnectionTypeKey := ConnectionTypeName(b.connectionType)];
    match b.connectionType
    case TLS =>
      data := data[CaKey := b.ca];
      data := data[CertKey := b.cert];
      data := data[CertPassFlagsKey := "1"];
      data := data[KeyKey := b.key];
      data := data[RemoteKey := b.remote];
    case PASSWORD =>
      data := data[CaKey := b.ca];
      data := data[UsernameKey := b.username];
      data := data[PasswordFlagsKey := "1"];
      data := data[RemoteKey := b.remote];
    case PASSWORD_TLS =>
      data := data[CaKey := b.ca];
      data := data[CertKey := b.cert];
      data := data[CertPassFlagsKey := "1"];
      data := data[KeyKey := b.key];
      data := data[UsernameKey := b.username];
      data := data[PasswordFlagsKey := "1"];
      data := data[RemoteKey := b.remote];
    case STATIC_KEY =>
      data := data[CaKey := b.ca];
      data := data[LocalIpKey := b.localIp];
      data := data[RemoteKey := b.remote];
      data := data[RemoteIpKey := b.remoteIp];
      data := data[StaticKeyKey := b.staticKey];
      if b.staticKeyDirection != KEY_NONE {
        data := data[StaticKeyDirectionKey := KeyDirName(b.staticKeyDirection)];
      }
  }

  /** The keys about the transport, printed first among the general ones. */
  predicate IsTransport(k: Key) {
    k == PortKey || k == RenegSecondsKey || k == CompLzoKey || k == ProtoTcpKey
  }

  method AddTransport(before: map<Key, string>, g: General) returns (data: map<Key, string>)
    requires forall k <- before :: !IsTransport(k)
    ensures forall k :: Lookup(data, k) == if IsTransport(k) then PrintedGeneral(g, k) else Lookup(before, k)
  {
    hide Number;
    data := before;
    if g.portSet {
      data := data[PortKey := Number(g.port)];
    }
    if g.renegSecondsSet {
      data := data[RenegSecondsKey := Number(g.renegSeconds)];
    }
    if g.compLzo {
      data := data[CompLzoKey := "yes"];
    }
    if g.protoTcp {
      data := data[ProtoTcpKey := "yes"];
    }
  }

  lemma GeneralKeys()
    ensures forall k :: SectionOf(k) == GENERAL <==>
      IsTransport(k) || k in {DevTypeKey, DevKey, TunnelMtuKey, FragmentSizeKey, MssFixKey, RemoteRandomKey}
  {
  }

  method AddGeneral(before: map<Key, string>, g: General) returns (data: map<Key, string>)
    requires forall k <- before :: SectionOf(k) != GENERAL
    ensures forall k :: Lookup(data, k) == if SectionOf(k) == GENERAL then PrintedGeneral(g, k) else Lookup(before, k)
  {
    hide Number, DevTypeName, SectionOf;
    GeneralKeys();
    data := AddTransport(before, g);
    if g.devTypeSet {
      data := data[DevTypeKey := DevTypeName(g.devType)];
      if g.dev != "" {
        data := data[DevKey := g.dev];
      }
    }
    if g.tunnelMtuSet {
      data := data[TunnelMtuKey := Number(g.tunnelMtu)];
    }
    if g.fragmentSizeSet {
      data := data[FragmentSizeKey := Number(g.fragmentSize)];
    }
    if g.mssFix {
      data := data[MssFixKey := "yes"];
    }
    if g.remoteRandom {
      data := data[RemoteRandomKey := "yes"];
    }
  }

  method AddSecurity(before: map<Key, string>, s: Security) returns (data: map<Key, string>)
    requires forall k <- before :: SectionOf(k) != SECURITY
    ensures forall k :: Lookup(data, k) == if SectionOf(k) == SECURITY then PrintedSecurity(s, k) else Lookup(before, k)
  {
    hide Number, CipherName, AuthName;
    data := before;
    if s.cipher != DEFAULT_CIPHER {
      data := data[CipherKey := CipherName(s.cipher)];
    }
    if s.keysizeSet {
      data := data[KeysizeKey := Number(s.keysize)];
    }
    if s.auth != DEFAULT_AUTH {
      data := data[AuthKey := AuthName(s.auth)];
    }
  }

  method AddTlsAuth(before: map<Key, string>, connectionType: ConnectionType, t: TlsAuth) returns (data: map<Key, string>)
    requires forall k <- before :: SectionOf(k) != TLS_AUTH
    ensures forall k :: Lookup(data, k)
                     == if SectionOf(k) == TLS_AUTH then PrintedTlsAuth(connectionType, t, k) else Lookup(before, k)
  {
    data := before;
    if connectionType != STATIC_KEY {
      if t.tlsRemote != "" {
        data := data[TlsRemoteKey := t.tlsRemote];
      }
      if t.remoteCertTlsSet {
        data := data[RemoteCertTlsKey := TlsTypeName(t.remoteCertTls)];
      }
      if t.taSet {
        if t.taDir != KEY_NONE {
          data := data[TaDirKey := KeyDirName(t.taDir)];
        }
        data := data[TaKey := if t.ta == "" then "/" else t.ta];
      }
    }
  }

  method AddProxy(before: map<Key, string>, p: Proxy) returns (data: map<Key, string>)
    requires forall k <- before :: SectionOf(k) != PROXY
    ensures forall k :: Lookup(data, k) == if SectionOf(k) == PROXY then PrintedProxy(p, k) else Lookup(before, k)
  {
    hide Number;
    data := before;
    if p.proxyType != NOT_REQUIRED {
      data := data[ProxyTypeKey := ProxyTypeName(p.proxyType)];
      data := data[ProxyServerKey := p.proxyServer];
      data := data[ProxyPortKey := Number(p.proxyPort)];
      if p.proxyRetry {
        data := data[ProxyRetryKey := "yes"];
      }
      if p.proxyUsername != "" {
        match p.proxyType
        case NOT_REQUIRED =>
        case HTTP => data := data[HttpProxyUsernameKey := p.proxyUsername];
        case SOCKS => data := data[SocksProxyUsernameKey := p.proxyUsername];
      }
    }
  }

  method BuildData(d: Data) returns (data: map<Key, string>)
    ensures data == PrintData(d)
  {
    hide PrintedBasic, PrintedGeneral, PrintedSecurity, PrintedTlsAuth, PrintedProxy;
    data := BuildBasic(d.basic);
    data := AddGeneral(data, d.general);
    data := AddSecurity(data, d.security);
    data := AddTlsAuth(data, d.basic.connectionType, d.tlsAuth);
    data := AddProxy(data, d.proxy);
    SameLookups(data, PrintData(d));
  }

  method BuildSecrets(d: Data) returns (secrets: map<Key, string>)
    ensures secrets == PrintSecrets(d)
  {
    secrets := map[];
    match d.basic.connectionType {
      case TLS =>
        secrets := secrets[CertPassKey := d.basic.certPass];
      case PASSWORD =>
        secrets := secrets[PasswordKey := d.basic.password];
      case PASSWORD_TLS =>
        secrets := secrets[CertPassKey := d.basic.certPass];
        secrets := secrets[PasswordKey := d.basic.password];
      case STATIC_KEY =>
    }
    if d.proxy.proxyPassword != "" {
      match d.proxy.proxyType
      case NOT_REQUIRED =>
      case HTTP => secrets := secrets[HttpProxyPasswordKey := d.proxy.proxyPassword];
      case SOCKS => secrets := secrets[SocksProxyPasswordKey := d.proxy.proxyPassword];
    }
    SameLookups(secrets, PrintSecrets(d));
  }
}
