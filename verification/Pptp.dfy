/** The settings of a PPTP connection, printed to and parsed from string maps. */
module Pptp {
  import opened OptionType

  datatype Key =
    | GatewayKey | UserKey | DomainKey | PasswordFlagsKey
    | RefusePapKey | RefuseChapKey | RefuseMschapKey | RefuseMschapv2Key | RefuseEapKey
    | RequireMppeKey | RequireMppe128Key | RequireMppe40Key | MppeStatefulKey
    | NoBsdCompKey | NoDeflateKey | NoVjCompKey | LcpEchoIntervalKey | LcpEchoFailureKey
    | PasswordKey

  datatype Section = BASIC | REFUSALS | MPPE | OPTIONS | SECRET

  function SectionOf(k: Key): Section {
    match k
    case RefusePapKey | RefuseChapKey | RefuseMschapKey | RefuseMschapv2Key | RefuseEapKey => REFUSALS
    case RequireMppeKey | RequireMppe128Key | RequireMppe40Key | MppeStatefulKey => MPPE
    case NoBsdCompKey | NoDeflateKey | NoVjCompKey | LcpEchoIntervalKey | LcpEchoFailureKey => OPTIONS
    case PasswordKey => SECRET
    case _ => BASIC
  }

  function KeyName(k: Key): string {
    match k
    case GatewayKey => "gateway"
    case UserKey => "user"
    case DomainKey => "domain"
    case PasswordFlagsKey => "password-flags"
    case RefusePapKey => "refuse-pap"
    case RefuseChapKey => "refuse-chap"
    case RefuseMschapKey => "refuse-mschap"
    case RefuseMschapv2Key => "refuse-mschapv2"
    case RefuseEapKey => "refuse-eap"
    case RequireMppeKey => "require-mppe"
    case RequireMppe128Key => "require-mppe-128"
    case RequireMppe40Key => "require-mppe-40"
    case MppeStatefulKey => "mppe-stateful"
    case NoBsdCompKey => "nobsdcomp"
    case NoDeflateKey => "nodeflate"
    case NoVjCompKey => "no-vj-comp"
    case LcpEchoIntervalKey => "lcp-echo-interval"
    case LcpEchoFailureKey => "lcp-echo-failure"
    case PasswordKey => "password"
  }

  /** Different keys have different names, so a map over keys is a map over names. */
  lemma KeyNamesDistinct(k: Key, l: Key)
    requires KeyName(k) == KeyName(l)
    ensures k == l
  {
  }

  datatype MppeType = MPPE_ALL | MPPE_128 | MPPE_40

  datatype Data = Data(
    gateway: string, user: string, password: string, domain: string,
    allowPap: bool, allowChap: bool, allowMschap: bool, allowMschapv2: bool, allowEap: bool,
    requireMppe: bool, mppeType: MppeType, mppeStateful: bool,
    bsdCompression: bool, deflateCompression: bool, tcpHeaderCompression: bool, sendPppEchoPackets: bool)

  const DEFAULT_DATA: Data := Data(
    "", "", "", "", true, true, true, true, true, false, MPPE_ALL, false, true, true, true, false)

  function MppeTypeKey(t: MppeType): Key {
    match t
    case MPPE_ALL => RequireMppeKey
    case MPPE_128 => RequireMppe128Key
    case MPPE_40 => RequireMppe40Key
  }

  // ---------- printing ----------

  /** MPPE is printed only if it is required and some variant of MSCHAP is allowed. */
  predicate PrintsMppe(d: Data) {
    d.requireMppe && (d.allowMschap || d.allowMschapv2)
  }

  /** What is printed under each key. */
  function Printed(d: Data, k: Key): Option<string> {
    match k
    case GatewayKey => Some(d.gateway)
    case UserKey => Some(d.user)
    case DomainKey => If(d.domain != "", d.domain)
    case PasswordFlagsKey => Some("1")
    case RefusePapKey => If(!d.requireMppe && !d.allowPap, "yes")
    case RefuseChapKey => If(!d.requireMppe && !d.allowChap, "yes")
    case RefuseMschapKey => If(!d.allowMschap, "yes")
    case RefuseMschapv2Key => If(!d.allowMschapv2, "yes")
    case RefuseEapKey => If(!d.requireMppe && !d.allowEap, "yes")
    case RequireMppeKey => If(PrintsMppe(d) && d.mppeType == MPPE_ALL, "yes")
    case RequireMppe128Key => If(PrintsMppe(d) && d.mppeType == MPPE_128, "yes")
    case RequireMppe40Key => If(PrintsMppe(d) && d.mppeType == MPPE_40, "yes")
    case MppeStatefulKey => If(PrintsMppe(d) && d.mppeStateful, "yes")
    case NoBsdCompKey => If(!d.bsdCompression, "yes")
    case NoDeflateKey => If(!d.deflateCompression, "yes")
    case NoVjCompKey => If(!d.tcpHeaderCompression, "yes")
    case LcpEchoIntervalKey => If(d.sendPppEchoPackets, "30")
    case LcpEchoFailureKey => If(d.sendPppEchoPackets, "5")
    case PasswordKey => None
  }

  function PrintData(d: Data): (r: map<Key, string>)
    ensures forall k :: Lookup(r, k) == Printed(d, k)
  {
    map k: Key | Printed(d, k).Some? :: Printed(d, k).value
  }

  function PrintSecrets(d: Data): map<Key, string> {
    if d.password != "" then map[PasswordKey := d.password] else map[]
  }

  method BuildBasic(d: Data) returns (data: map<Key, string>)
    ensures forall k :: Lookup(data, k) == if SectionOf(k) == BASIC then Printed(d, k) else None
  {
    data := map[];
    data := data[GatewayKey := d.gateway];
    data := data[UserKey := d.user];
    if d.domain != "" {
      data := data[DomainKey := d.domain];
    }
    data := data[PasswordFlagsKey := "1"];
  }

  method AddRefusals(before: map<Key, string>, d: Data) returns (data: map<Key, string>)
    requires forall k <- before :: SectionOf(k) != REFUSALS
    ensures forall k :: Lookup(data, k) == if SectionOf(k) == REFUSALS then Printed(d, k) else Lookup(before, k)
  {
    data := before;
    if !d.requireMppe {
      if !d.allowPap {
        data := data[RefusePapKey := "yes"];
      }
      if !d.allowChap {
        data := data[RefuseChapKey := "yes"];
      }
    }
    if !d.allowMschap {
      data := data[RefuseMschapKey := "yes"];
    }
    if !d.allowMschapv2 {
      data := data[RefuseMschapv2Key := "yes"];
    }
    if !d.requireMppe {
      if !d.allowEap {
        data := data[RefuseEapKey := "yes"];
      }
    }
  }

  method AddMppe(before: map<Key, string>, d: Data) returns (data: map<Key, string>)
    requires forall k <- before :: SectionOf(k) != MPPE
    ensures forall k :: Lookup(data, k) == if SectionOf(k) == MPPE then Printed(d, k) else Lookup(before, k)
  {
    data := before;
    if (d.allowMschap || d.allowMschapv2) && d.requireMppe {
      data := data[MppeTypeKey(d.mppeType) := "yes"];
      if d.mppeStateful {
        data := data[MppeStatefulKey := "yes"];
      }
    }
  }

  method AddOptions(before: map<Key, string>, d: Data) returns (data: map<Key, string>)
    requires forall k <- before :: SectionOf(k) != OPTIONS
    ensures forall k :: Lookup(data, k) == if SectionOf(k) == OPTIONS then Printed(d, k) else Lookup(before, k)
  {
    data := before;
    if !d.bsdCompression {
      data := data[NoBsdCompKey := "yes"];
    }
    if !d.deflateCompression {
      data := data[NoDeflateKey := "yes"];
    }
    if !d.tcpHeaderCompression {
      data := data[NoVjCompKey := "yes"];
    }
    if d.sendPppEchoPackets {
      data := data[LcpEchoIntervalKey := "30"];
      data := data[LcpEchoFailureKey := "5"];
    }
  }

  method BuildData(d: Data) returns (data: map<Key, string>)
    ensures data == PrintData(d)
  {
    assert Printed(d, PasswordKey) == None;
    hide Printed;
    data := BuildBasic(d);
    data := AddRefusals(data, d);
    data := AddMppe(data, d);
    data := AddOptions(data, d);
    SameLookups(data, PrintData(d));
  }

  // ---------- parsing ----------

  function ParseData(d: Data, m: map<Key, string>): Data {
    var all, only128, only40 :=
      IsYes(ValueOf(m, RequireMppeKey)), IsYes(ValueOf(m, RequireMppe128Key)), IsYes(ValueOf(m, RequireMppe40Key));
    Data(
      ValueOf(m, GatewayKey), ValueOf(m, UserKey), d.password, ValueOf(m, DomainKey),
      !IsYes(ValueOf(m, RefusePapKey)), !IsYes(ValueOf(m, RefuseChapKey)),
      !IsYes(ValueOf(m, RefuseMschapKey)), !IsYes(ValueOf(m, RefuseMschapv2Key)), !IsYes(ValueOf(m, RefuseEapKey)),
      all || only128 || only40,
      if all then MPPE_ALL else if only128 then MPPE_128 else if only40 then MPPE_40 else d.mppeType,
      IsYes(ValueOf(m, MppeStatefulKey)),
      !IsYes(ValueOf(m, NoBsdCompKey)), !IsYes(ValueOf(m, NoDeflateKey)), !IsYes(ValueOf(m, NoVjCompKey)),
      Lookup(m, LcpEchoIntervalKey).Some? || Lookup(m, LcpEchoFailureKey).Some?)
  }

  function ParseSecrets(d: Data, m: map<Key, string>): Data {
    d.(password := ValueOf(m, PasswordKey))
  }

  // ---------- what is sent ----------

  /** What is sent of the account, and of the echo packets. */
  lemma AccountSent(d: Data, k: Key)
    requires k in {GatewayKey, UserKey, DomainKey, PasswordFlagsKey, LcpEchoIntervalKey, LcpEchoFailureKey}
    ensures Lookup(PrintData(d), k) == Lookup(
              map[GatewayKey := d.gateway, UserKey := d.user, PasswordFlagsKey := "1"]
              + (if d.domain != "" then map[DomainKey := d.domain] else map[])
              + (if d.sendPppEchoPackets then map[LcpEchoIntervalKey := "30", LcpEchoFailureKey := "5"] else map[]),
              k)
  {
    hide PrintData;
  }

  /** The refused methods that are sent, with "yes": with MPPE required, only those of MSCHAP. */
  lemma RefusalsSent(d: Data, k: Key)
    requires k in {RefusePapKey, RefuseChapKey, RefuseMschapKey, RefuseMschapv2Key, RefuseEapKey}
    ensures Lookup(PrintData(d), k) == Lookup(
              (if d.allowMschap then map[] else map[RefuseMschapKey := "yes"])
              + (if d.allowMschapv2 then map[] else map[RefuseMschapv2Key := "yes"])
              + (if d.allowPap || d.requireMppe then map[] else map[RefusePapKey := "yes"])
              + (if d.allowChap || d.requireMppe then map[] else map[RefuseChapKey := "yes"])
              + (if d.allowEap || d.requireMppe then map[] else map[RefuseEapKey := "yes"]),
              k)
  {
    hide PrintData, PrintsMppe;
  }

  /** What is sent of MPPE, if it is required and some variant of MSCHAP is allowed. */
  lemma MppeSent(d: Data, k: Key)
    requires k in {RequireMppeKey, RequireMppe128Key, RequireMppe40Key, MppeStatefulKey}
    ensures Lookup(PrintData(d), k) == Lookup(
              if !d.requireMppe || (!d.allowMschap && !d.allowMschapv2) then map[] else
                (if d.mppeType == MPPE_ALL then map[RequireMppeKey := "yes"]
                 else if d.mppeType == MPPE_128 then map[RequireMppe128Key := "yes"]
                 else map[RequireMppe40Key := "yes"])
                + (if d.mppeStateful then map[MppeStatefulKey := "yes"] else map[]),
              k)
  {
    hide PrintData;
  }

  /** The switched-off compressions that are sent, and never the password. */
  lemma CompressionSent(d: Data, k: Key)
    requires k in {NoBsdCompKey, NoDeflateKey, NoVjCompKey, PasswordKey}
    ensures Lookup(PrintData(d), k) == Lookup(
              (if d.bsdCompression then map[] else map[NoBsdCompKey := "yes"])
              + (if d.deflateCompression then map[] else map[NoDeflateKey := "yes"])
              + (if d.tcpHeaderCompression then map[] else map[NoVjCompKey := "yes"]),
              k)
  {
    hide PrintData, PrintsMppe;
  }

  // ---------- round trips ----------

  /** What is read back from printed settings: what they stand for on their own. */
  function Effective(p: Data, d: Data): Data {
    d.(password := p.password,
       allowPap := d.allowPap || d.requireMppe, allowChap := d.allowChap || d.requireMppe,
       allowEap := d.allowEap || d.requireMppe,
       requireMppe := PrintsMppe(d), mppeType := if PrintsMppe(d) then d.mppeType else p.mppeType,
       mppeStateful := PrintsMppe(d) && d.mppeStateful)
  }

  lemma ParsePrintedAuth(p: Data, d: Data, m: map<Key, string>)
    requires forall k :: Lookup(m, k) == Printed(d, k)
    ensures var e, f := ParseData(p, m), Effective(p, d);
      && e.allowPap == f.allowPap && e.allowChap == f.allowChap && e.allowMschap == f.allowMschap
      && e.allowMschapv2 == f.allowMschapv2 && e.allowEap == f.allowEap
  {
    YesIsYes();
    hide IsYes;
  }

  lemma ParsePrintedMppe(p: Data, d: Data, m: map<Key, string>)
    requires forall k :: Lookup(m, k) == Printed(d, k)
    ensures var e, f := ParseData(p, m), Effective(p, d);
      e.requireMppe == f.requireMppe && e.mppeType == f.mppeType && e.mppeStateful == f.mppeStateful
  {
    YesIsYes();
    hide IsYes;
  }

  lemma ParsePrintedTexts(p: Data, d: Data, m: map<Key, string>)
    requires forall k :: Lookup(m, k) == Printed(d, k)
    ensures var e, f := ParseData(p, m), Effective(p, d);
      e.gateway == f.gateway && e.user == f.user && e.domain == f.domain && e.password == f.password
  {
  }

  lemma ParsePrintedOptions(p: Data, d: Data, m: map<Key, string>)
    requires forall k :: Lookup(m, k) == Printed(d, k)
    ensures var e := ParseData(p, m); e.bsdCompression == d.bsdCompression && e.deflateCompression == d.deflateCompression
  {
    hide IsYes, PrintsMppe;
    YesIsYes();
  }

  lemma ParsePrintedTcp(p: Data, d: Data, m: map<Key, string>)
    requires forall k :: Lookup(m, k) == Printed(d, k)
    ensures ParseData(p, m).tcpHeaderCompression == d.tcpHeaderCompression
  {
    hide IsYes, PrintsMppe;
    YesIsYes();
  }

  lemma ParsePrintedEcho(p: Data, d: Data, m: map<Key, string>)
    requires forall k :: Lookup(m, k) == Printed(d, k)
    ensures ParseData(p, m).sendPppEchoPackets == d.sendPppEchoPackets
  {
    hide IsYes, PrintsMppe, ValueOf;
  }

  lemma ParsePrintedIsEffective(p: Data, d: Data)
    ensures ParseData(p, PrintData(d)) == Effective(p, d)
  {
    hide PrintData, Printed, ParseData;
    var m := PrintData(d);
    ParsePrintedAuth(p, d, m);
    ParsePrintedMppe(p, d, m);
    ParsePrintedTexts(p, d, m);
    ParsePrintedOptions(p, d, m);
    ParsePrintedTcp(p, d, m);
    ParsePrintedEcho(p, d, m);
  }

  /** Read back over earlier settings `p`, everything is as it was printed, except where MPPE has its say. */
  lemma ParsePrinted(p: Data, d: Data)
    ensures var mppe := d.requireMppe && (d.allowMschap || d.allowMschapv2);
      ParseData(p, PrintData(d)) == d.(
        password := p.password,
        allowPap := d.allowPap || d.requireMppe, allowChap := d.allowChap || d.requireMppe,
        allowEap := d.allowEap || d.requireMppe,
        requireMppe := mppe, mppeType := if mppe then d.mppeType else p.mppeType, mppeStateful := mppe && d.mppeStateful)
  {
    hide ParseData, PrintData;
    ParsePrintedIsEffective(p, d);
  }

  /** What is read back prints the same under each key. */
  lemma EffectivePrintsAlike(p: Data, d: Data, k: Key)
    ensures Printed(Effective(p, d), k) == Printed(d, k)
  {
  }

  /** Parsing printed settings over any earlier settings, and printing again, prints the same. */
  lemma DataRoundTrip(p: Data, d: Data)
    ensures PrintData(ParseData(p, PrintData(d))) == PrintData(d)
  {
    hide ParseData, PrintData, Printed, Effective;
    ParsePrintedIsEffective(p, d);
    var e := Effective(p, d);
    forall k ensures Lookup(PrintData(e), k) == Lookup(PrintData(d), k) {
      EffectivePrintsAlike(p, d, k);
    }
    SameLookups(PrintData(e), PrintData(d));
  }

  /**
   * Parsing inverts printing, up to the password and the MPPE type of settings without MPPE, exactly if required
   * MPPE comes with PAP, CHAP, EAP and some MSCHAP allowed, and stateful MPPE is required MPPE.
   */
  lemma ParseInvertsPrintIff(p: Data, d: Data)
    ensures ParseData(p, PrintData(d)).(password := d.password, mppeType := d.mppeType) == d
            && (d.requireMppe ==> ParseData(p, PrintData(d)).mppeType == d.mppeType)
      <==> (d.requireMppe ==> d.allowPap && d.allowChap && d.allowEap && (d.allowMschap || d.allowMschapv2))
           && (d.mppeStateful ==> d.requireMppe)
  {
    ParsePrinted(p, d);
  }

  /** Settings that ask for stateful MPPE without requiring MPPE lose it in print. */
  lemma LossyExample(p: Data)
    ensures var d := DEFAULT_DATA.(mppeStateful := true); ParseData(p, PrintData(d)).mppeStateful != d.mppeStateful
  {
    hide ParseData, PrintData;
    ParsePrinted(p, DEFAULT_DATA.(mppeStateful := true));
  }

  /** Parsing the printed secrets gives the password. */
  lemma SecretsRoundTrip(p: Data, d: Data)
    ensures ParseSecrets(p, PrintSecrets(d)).password == d.password
    ensures PrintSecrets(ParseSecrets(p, PrintSecrets(d))) == PrintSecrets(d)
    ensures PrintData(ParseSecrets(p, PrintSecrets(d))) == PrintData(p)
  {
    hide PrintData;
    SecretsNotPrinted(p, PrintSecrets(d));
  }

  /** Secrets are not printed among the settings. */
  lemma SecretsNotPrinted(d: Data, m: map<Key, string>)
    ensures PrintData(ParseSecrets(d, m)) == PrintData(d)
  {
    hide PrintData, PrintsMppe;
    var e := ParseSecrets(d, m);
    assert PrintsMppe(e) == PrintsMppe(d) by {
      SameMppe(d, m);
    }
    forall k ensures Lookup(PrintData(e), k) == Lookup(PrintData(d), k) {
      assert Printed(e, k) == Printed(d, k);
    }
    SameLookups(PrintData(e), PrintData(d));
  }

  lemma SameMppe(d: Data, m: map<Key, string>)
    ensures PrintsMppe(ParseSecrets(d, m)) == PrintsMppe(d)
  {
  }

  /** Settings that something else stored: what is read from each key, and which of the three MPPE keys goes first. */
  lemma ParseForeign(p: Data, m: map<Key, string>)
    ensures var q := ParseData(p, m);
      && (GatewayKey !in m ==> q.gateway == "") && (UserKey !in m ==> q.user == "")
      && (q.allowPap <==> Lookup(m, RefusePapKey) != Some("yes")) && (q.allowChap <==> Lookup(m, RefuseChapKey) != Some("yes"))
      && (q.allowMschap <==> Lookup(m, RefuseMschapKey) != Some("yes"))
      && (q.allowMschapv2 <==> Lookup(m, RefuseMschapv2Key) != Some("yes"))
      && (q.allowEap <==> Lookup(m, RefuseEapKey) != Some("yes"))
    ensures var q := ParseData(p, m);
      && (q.bsdCompression <==> Lookup(m, NoBsdCompKey) != Some("yes"))
      && (q.deflateCompression <==> Lookup(m, NoDeflateKey) != Some("yes"))
      && (q.tcpHeaderCompression <==> Lookup(m, NoVjCompKey) != Some("yes"))
      && (q.sendPppEchoPackets <==> LcpEchoIntervalKey in m || LcpEchoFailureKey in m)
    ensures var q := ParseData(p, m);
      var all, only128, only40 := Lookup(m, RequireMppeKey) == Some("yes"), Lookup(m, RequireMppe128Key) == Some("yes"),
                                  Lookup(m, RequireMppe40Key) == Some("yes");
      && (q.requireMppe <==> all || only128 || only40)
      && (all ==> q.mppeType == MPPE_ALL) && (!all && only128 ==> q.mppeType == MPPE_128)
      && (!all && !only128 && only40 ==> q.mppeType == MPPE_40) && (!all && !only128 && !only40 ==> q.mppeType == p.mppeType)
      && (q.mppeStateful <==> Lookup(m, MppeStatefulKey) == Some("yes"))
  {
  }

  lemma KeyTexts()
    ensures KeyName(GatewayKey) == "gateway" && KeyName(UserKey) == "user" && KeyName(DomainKey) == "domain"
    ensures KeyName(PasswordFlagsKey) == "password-flags" && KeyName(PasswordKey) == "password"
    ensures KeyName(RefusePapKey) == "refuse-pap" && KeyName(RefuseChapKey) == "refuse-chap"
    ensures KeyName(RefuseMschapKey) == "refuse-mschap" && KeyName(RefuseMschapv2Key) == "refuse-mschapv2"
    ensures KeyName(RefuseEapKey) == "refuse-eap"
  {
  }

  lemma OptionKeyTexts()
    ensures KeyName(RequireMppeKey) == "require-mppe" && KeyName(RequireMppe128Key) == "require-mppe-128"
    ensures KeyName(RequireMppe40Key) == "require-mppe-40" && KeyName(MppeStatefulKey) == "mppe-stateful"
    ensures KeyName(NoBsdCompKey) == "nobsdcomp" && KeyName(NoDeflateKey) == "nodeflate" && KeyName(NoVjCompKey) == "no-vj-comp"
    ensures KeyName(LcpEchoIntervalKey) == "lcp-echo-interval" && KeyName(LcpEchoFailureKey) == "lcp-echo-failure"
  {
  }

  // ---------- the connection object ----------

  /** One property write; the last one is a secret. */
  datatype Write =
    | SetGateway(s: string) | SetUser(s: string) | SetDomain(s: string)
    | SetAllowPap(b: bool) | SetAllowChap(b: bool) | SetAllowMschap(b: bool) | SetAllowMschapv2(b: bool) | SetAllowEap(b: bool)
    | SetRequireMppe(b: bool) | SetMppeType(mppeType: MppeType) | SetMppeStateful(b: bool)
    | SetBsdCompression(b: bool) | SetDeflateCompression(b: bool) | SetTcpHeaderCompression(b: bool)
    | SetSendPppEchoPackets(b: bool)
    | SetPassword(s: string)

  predicate IsSecret(w: Write) {
    w.SetPassword?
  }

  /** The settings with the written property changed. */
  function Written(d: Data, w: Write): Data {
    match w
    case SetGateway(s) => d.(gateway := s)
    case SetUser(s) => d.(user := s)
    case SetPassword(s) => d.(password := s)
    case SetDomain(s) => d.(domain := s)
    case SetAllowPap(b) => d.(allowPap := b)
    case SetAllowChap(b) => d.(allowChap := b)
    case SetAllowMschap(b) => d.(allowMschap := b)
    case SetAllowMschapv2(b) => d.(allowMschapv2 := b)
    case SetAllowEap(b) => d.(allowEap := b)
    case SetRequireMppe(b) => d.(requireMppe := b)
    case SetMppeType(t) => d.(mppeType := t)
    case SetMppeStateful(b) => d.(mppeStateful := b)
    case SetBsdCompression(b) => d.(bsdCompression := b)
    case SetDeflateCompression(b) => d.(deflateCompression := b)
    case SetTcpHeaderCompression(b) => d.(tcpHeaderCompression := b)
    case SetSendPppEchoPackets(b) => d.(sendPppEchoPackets := b)
  }

  /** A write gives its own property the value, and leaves every other property as it was. */
  lemma WriteIsOneProperty(d: Data, w: Write)
    ensures w.SetGateway? ==> Written(d, w) == d.(gateway := w.s)
    ensures w.SetUser? ==> Written(d, w) == d.(user := w.s)
    ensures w.SetPassword? ==> Written(d, w) == d.(password := w.s)
    ensures w.SetDomain? ==> Written(d, w) == d.(domain := w.s)
    ensures w.SetAllowPap? ==> Written(d, w) == d.(allowPap := w.b)
    ensures w.SetAllowChap? ==> Written(d, w) == d.(allowChap := w.b)
    ensures w.SetAllowMschap? ==> Written(d, w) == d.(allowMschap := w.b)
    ensures w.SetAllowMschapv2? ==> Written(d, w) == d.(allowMschapv2 := w.b)
    ensures w.SetAllowEap? ==> Written(d, w) == d.(allowEap := w.b)
    ensures w.SetRequireMppe? ==> Written(d, w) == d.(requireMppe := w.b)
    ensures w.SetMppeType? ==> Written(d, w) == d.(mppeType := w.mppeType)
    ensures w.SetMppeStateful? ==> Written(d, w) == d.(mppeStateful := w.b)
    ensures w.SetBsdCompression? ==> Written(d, w) == d.(bsdCompression := w.b)
    ensures w.SetDeflateCompression? ==> Written(d, w) == d.(deflateCompression := w.b)
    ensures w.SetTcpHeaderCompression? ==> Written(d, w) == d.(tcpHeaderCompression := w.b)
    ensures w.SetSendPppEchoPackets? ==> Written(d, w) == d.(sendPppEchoPackets := w.b)
  {
  }

  /** A secret write leaves the printed settings as they were, and a settings write the printed secrets. */
  lemma WriteKeepsTheOther(d: Data, w: Write)
    ensures IsSecret(w) ==> PrintData(Written(d, w)) == PrintData(d)
    ensures !IsSecret(w) ==> PrintSecrets(Written(d, w)) == PrintSecrets(d)
  {
    hide PrintData;
    if IsSecret(w) {
      var e := Written(d, w);
      forall k ensures Printed(e, k) == Printed(d, k) {}
      SameLookups(PrintData(e), PrintData(d));
    }
  }
}
