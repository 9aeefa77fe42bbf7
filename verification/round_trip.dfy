/**
 * Export followed by Import. For every profile whose values survive the
 * line format (single-token strings, known protocols, non-negative
 * integers, blobs of whole lines that are not themselves directives), the
 * import of the export is the profile itself except for three fields: the
 * `dev-type` line overwrites `dev`, `devType` comes back as the default
 * "tun", and `blockOutsideDns` is never carried. In particular the round
 * trip is the identity exactly when `dev` and `devType` are both "tun" and
 * `blockOutsideDns` is false.
 */
module RoundTrip {
  import opened Wrappers
  import opened Strings
  import opened Decimal
  import opened OvpnTypes
  import opened OvpnExport
  import opened OvpnImport
  import opened ImportProperties

  // ---------------------------------------------------------------------
  // Profiles whose values fit the line format.
  // ---------------------------------------------------------------------

  /** A value that stays one token on one line. */
  predicate Word(s: string) {
    s != "" && ' ' !in s && '\n' !in s && '\r' !in s
  }

  /** Text without line breaks. */
  predicate OneLine(s: string) {
    '\n' !in s && '\r' !in s
  }

  predicate OptionalWord(s: string) {
    s == "" || Word(s)
  }

  /** Empty, or ending with a line feed. */
  predicate Terminated(body: string) {
    body == "" || body[|body| - 1] == '\n'
  }

  /** The lines of a non-empty blob, without their line feeds. */
  function BodyLines(body: string): seq<string>
    requires body != ""
  {
    Split(body[..|body| - 1], '\n')
  }

  /**
   * A blob that reads back unchanged: empty, or whole lines without
   * carriage returns, none of them the block's closing tag or a directive.
   */
  predicate PlainBlob(b: Blob, body: string)
    requires Terminated(body)
  {
    body == "" ||
    ('\r' !in body && forall l <- BodyLines(body) :: l != ClosingTag(b) && EffectOf(l) == Inert)
  }

  predicate Representable(o: Ovpn) {
    && o.dev in {"tun", "tap"}
    && o.devType in {"tun", "tap"}
    && OptionalWord(o.envId) && OptionalWord(o.envName)
    && OptionalWord(o.cipher) && OptionalWord(o.auth)
    && (forall r <- o.remotes :: Word(r.host) && r.proto in Protocols)
    && (forall f :: IntOf(o, f) >= 0)
    && o.remoteCertTls in {"", "server"}
    && o.compress in {"", "lzo", "lz4"}
    && (forall b :: Terminated(BlobOf(o, b)) && PlainBlob(b, BlobOf(o, b)))
  }

  // ---------------------------------------------------------------------
  // How each exported line is read back.
  // ---------------------------------------------------------------------

  lemma TokensJoin(a: string, rest: string)
    requires ' ' !in a
    ensures Split(a + " " + rest, ' ') == [a] + Split(rest, ' ')
  {
    assert a + " " + rest == a + [' '] + rest;
    SplitAtFirst(a, ' ', rest);
  }

  /** No upper-case ASCII letter. */
  predicate LowerCase(s: string) {
    forall i :: 0 <= i < |s| ==> !('A' <= s[i] <= 'Z')
  }

  lemma LowerCaseWord(s: string)
    requires LowerCase(s)
    ensures Lower(s) == s
  {
  }

  lemma FormatIntIsWord(n: int)
    ensures Word(FormatInt(n))
  {
    var s := FormatInt(n);
    assert ParseInt(s).Some?;
    assert s != "";
    forall c | c in s
      ensures c != ' ' && c != '\n' && c != '\r'
    {
      var i :| 0 <= i < |s| && s[i] == c;
    }
  }

  /** `<d> <v>` with a lower-case keyword `d` and a one-token value `v`. */
  lemma PairTokens(d: string, v: string)
    requires d != "" && ' ' !in d && Lower(d) == d
    requires v != "" && ' ' !in v
    ensures Tokens(d + " " + v) == [d, v]
    ensures Keyword(d + " " + v) == d
  {
    TokensJoin(d, v);
    SplitWithoutSeparator(v, ' ');
  }

  lemma IntLineEffect(d: string, f: IntField, n: int)
    requires d in Directives && Directives[d] == Integer(f)
    requires d != "" && ' ' !in d && Lower(d) == d
    ensures EffectOf(d + " " + FormatInt(n)) == AssignInt(f, n)
  {
    FormatIntIsWord(n);
    PairTokens(d, FormatInt(n));
  }

  lemma StrLineEffect(d: string, f: StrField, v: string)
    requires d in Directives && Directives[d] == Verbatim(f)
    requires d != "" && ' ' !in d && Lower(d) == d
    requires Word(v)
    ensures EffectOf(d + " " + v) == AssignStr(f, v)
  {
    PairTokens(d, v);
  }

  lemma ChoiceLineEffect(d: string, f: StrField, accepted: map<string, string>, v: string)
    requires d in Directives && Directives[d] == Choice(f, accepted)
    requires d != "" && ' ' !in d && Lower(d) == d
    requires v != "" && ' ' !in v && Lower(v) == v && v in accepted && accepted[v] == v
    ensures EffectOf(d + " " + v) == AssignStr(f, v)
  {
    PairTokens(d, v);
  }

  lemma FlagLineEffect(d: string, f: FlagField)
    requires d in Directives && Directives[d] == Presence(f)
    requires ' ' !in d && Lower(d) == d
    ensures EffectOf(d) == RaiseFlag(f)
  {
    SplitWithoutSeparator(d, ' ');
  }

  lemma DeviceTokens(d: string, v: string)
    requires d == "dev" || d == "dev-type"
    requires v == "tun" || v == "tap"
    ensures Tokens(d + " " + v) == [d, v] && Keyword(d + " " + v) == d
  {
    assert Lower(d) == d by {
      LowerCaseWord(d);
    }
    PairTokens(d, v);
  }

  lemma DeviceLineEffect(d: string, v: string)
    requires d == "dev" || d == "dev-type"
    requires v == "tun" || v == "tap"
    ensures EffectOf(d + " " + v) == AssignStr(Dev, v)
  {
    DeviceTokens(d, v);
    DeviceEffectOfTokens(d, v);
  }

  lemma DeviceEffectOfTokens(d: string, v: string)
    requires d == "dev" || d == "dev-type"
    requires v == "tun" || v == "tap"
    requires Tokens(d + " " + v) == [d, v] && Keyword(d + " " + v) == d
    ensures EffectOf(d + " " + v) == AssignStr(Dev, v)
  {
    DeviceKeyed(d);
    KeyedLine(d + " " + v, d, Device);
    assert Lower(v) == v by {
      LowerCaseWord(v);
    }
  }

  lemma DeviceKeyed(d: string)
    requires d == "dev" || d == "dev-type"
    ensures d in Directives && Directives[d] == Device
  {
  }

  /** A line whose keyword is in the directive table takes the effect of that keyword's case. */
  lemma KeyedLine(line: string, key: string, kind: Kind)
    requires Keyword(line) == key && key in Directives && Directives[key] == kind
    ensures EffectOf(line) == KindEffect(kind, Tokens(line))
  {
  }

  lemma SetenvTokens(name: string, v: string)
    requires name == "UV_ID" || name == "UV_NAME"
    requires Word(v)
    ensures Tokens("setenv " + name + " " + v) == ["setenv", name, v]
    ensures Keyword("setenv " + name + " " + v) == "setenv"
  {
    assert "setenv " + name + " " + v == "setenv" + " " + (name + " " + v);
    TokensJoin("setenv", name + " " + v);
    TokensJoin(name, v);
    SplitWithoutSeparator(v, ' ');
    LowerCaseWord("setenv");
  }

  lemma SetenvLineEffect(name: string, f: StrField, v: string)
    requires (name == "UV_ID" && f == EnvId) || (name == "UV_NAME" && f == EnvName)
    requires Word(v)
    ensures EffectOf("setenv " + name + " " + v) == AssignStr(f, v)
  {
    SetenvTokens(name, v);
    SetenvKeyed();
    KeyedLine("setenv " + name + " " + v, "setenv", Setenv);
    SetenvKind(name, f, v);
  }

  lemma SetenvKeyed()
    ensures "setenv" in Directives && Directives["setenv"] == Setenv
  {
  }

  lemma SetenvKind(name: string, f: StrField, v: string)
    requires (name == "UV_ID" && f == EnvId) || (name == "UV_NAME" && f == EnvName)
    ensures KindEffect(Setenv, ["setenv", name, v]) == AssignStr(f, v)
  {
    assert Lower(name) == if f == EnvId then "uv_id" else "uv_name";
  }

  lemma ClientLineEffect()
    ensures EffectOf("client") == Inert
  {
    var w := "client";
    assert w !in Directives;
    UnknownWord(w);
  }


  lemma RemoteLineShape(r: Remote)
    ensures RemoteLine(r) == "remote" + " " + (r.host + " " + (FormatInt(r.port) + " " + r.proto))
  {
  }

  lemma RemoteTokens(r: Remote)
    requires Word(r.host) && r.proto in Protocols
    ensures Tokens(RemoteLine(r)) == ["remote", r.host, FormatInt(r.port), r.proto]
  {
    var port := FormatInt(r.port);
    FormatIntIsWord(r.port);
    RemoteLineShape(r);
    assert r.proto in {"udp", "udp6", "tcp", "tcp6"};
    ThreeTokens(r.host, port, r.proto);
    TokensJoin("remote", r.host + " " + (port + " " + r.proto));
  }

  /** Three space-free words joined by single spaces split back into themselves. */
  lemma ThreeTokens(a: string, b: string, c: string)
    requires ' ' !in a && ' ' !in b && ' ' !in c
    ensures Split(a + " " + (b + " " + c), ' ') == [a, b, c]
  {
    TokensJoin(a, b + " " + c);
    TokensJoin(b, c);
    SplitWithoutSeparator(c, ' ');
  }


  lemma ProtocolsAreLowerCase(p: string)
    requires p in Protocols
    ensures Lower(p) == p
  {
    assert p == "udp" || p == "udp6" || p == "tcp" || p == "tcp6";
    LowerCaseWord(p);
  }

  lemma RemoteLineEffect(r: Remote)
    requires Word(r.host) && r.proto in Protocols
    ensures EffectOf(RemoteLine(r)) == AppendRemote(r)
  {
    RemoteTokens(r);
    RemoteEffectOfTokens(RemoteLine(r), r);
  }

  lemma RemoteEffectOfTokens(line: string, r: Remote)
    requires r.proto in Protocols
    requires Tokens(line) == ["remote", r.host, FormatInt(r.port), r.proto]
    ensures EffectOf(line) == AppendRemote(r)
  {
    RemoteKeyword(line);
    ProtocolsAreLowerCase(r.proto);
    var t := Tokens(line);
    assert KindEffect(RemoteEntry, t) == AppendRemote(r);
  }

  lemma RemoteKeyword(line: string)
    requires Tokens(line)[0] == "remote"
    ensures Keyword(line) == "remote" && "remote" in Directives && Directives["remote"] == RemoteEntry
  {
    LowerCaseWord("remote");
  }

  // ---------------------------------------------------------------------
  // Every exported directive line writes back the value it was made from.
  // ---------------------------------------------------------------------

  /** `l` writes only values `t` holds, and neither `dev` nor the remote list. */
  predicate Writes(t: Ovpn, l: string) {
    match EffectOf(l)
    case Inert => true
    case AssignStr(f, v) => f != Dev && StrOf(t, f) == v
    case AssignInt(f, n) => IntOf(t, f) == n
    case RaiseFlag(f) => FlagOf(t, f)
    case _ => false
  }

  /** An exported directive line: one that `Writes`, a remote entry, or a device line. */
  predicate Exported(t: Ovpn, l: string) {
    || Writes(t, l)
    || EffectOf(l).AppendRemote?
    || (EffectOf(l).AssignStr? && EffectOf(l).field == Dev)
  }

  lemma EnvLinesWrite(o: Ovpn)
    requires OptionalWord(o.envId) && OptionalWord(o.envName)
    ensures forall l <- EnvLines(o) :: Writes(o, l) && OneLine(l)
    ensures o.envId != "" ==> EffectOf("setenv UV_ID" + " " + o.envId) == AssignStr(EnvId, o.envId)
    ensures o.envName != "" ==> EffectOf("setenv UV_NAME" + " " + o.envName) == AssignStr(EnvName, o.envName)
  {
    if o.envId != "" {
      EnvIdLine(o.envId);
    }
    if o.envName != "" {
      EnvNameLine(o.envName);
    }
  }

  lemma EnvIdLine(v: string)
    requires Word(v)
    ensures EffectOf("setenv UV_ID" + " " + v) == AssignStr(EnvId, v)
    ensures OneLine("setenv UV_ID" + " " + v)
  {
    assert "setenv UV_ID" + " " + v == "setenv " + "UV_ID" + " " + v;
    SetenvLineEffect("UV_ID", EnvId, v);
  }

  lemma EnvNameLine(v: string)
    requires Word(v)
    ensures EffectOf("setenv UV_NAME" + " " + v) == AssignStr(EnvName, v)
    ensures OneLine("setenv UV_NAME" + " " + v)
  {
    assert "setenv UV_NAME" + " " + v == "setenv " + "UV_NAME" + " " + v;
    SetenvLineEffect("UV_NAME", EnvName, v);
  }

  // ---------------------------------------------------------------------
  // The settings table agrees with the directive table.
  // ---------------------------------------------------------------------

  /** The values a choice field is printed with that read back as themselves. */
  function ChoiceMap(f: StrField): map<string, string> {
    match f
    case RemoteCertTls => map["server" := "server"]
    case Compress => map["lzo" := "lzo", "lz4" := "lz4"]
    case _ => map[]
  }

  /**
   * The directive table maps the setting's keyword back to the field the
   * setting prints: a presence switch, an integer, a string copied
   * verbatim, or a string chosen from the same values it is printed with.
   */
  predicate Keyed(s: Setting) {
    && Word(s.keyword) && LowerCase(s.keyword)
    && s.keyword in Directives
    && match s
       case Switch(d, f) => Directives[d] == Presence(f)
       case Number(d, f) => Directives[d] == Integer(f)
       case Text(d, f) =>
         if f in {RemoteCertTls, Compress} then Directives[d] == Choice(f, ChoiceMap(f))
         else f in {Cipher, Auth} && Directives[d] == Verbatim(f)
  }

  /** The value `o` holds for a text setting is one token, from the choice map when there is one. */
  predicate Fits(o: Ovpn, s: Setting) {
    s.Text? ==>
      var f := s.field;
      var v := StrOf(o, f);
      v == "" || (Word(v) && (f in {RemoteCertTls, Compress} ==> v in ChoiceMap(f)))
  }

  lemma RepresentableFits(o: Ovpn)
    requires Representable(o)
    ensures forall s :: Fits(o, s)
  {
    forall s: Setting | s.Text?
      ensures Fits(o, s)
    {
      match s.field
      case RemoteCertTls =>
        if o.remoteCertTls != "" {
          ServerFits(o.remoteCertTls);
        }
      case Compress =>
        if o.compress != "" {
          CompressFits(o.compress);
        }
      case _ =>
    }
  }

  lemma ServerFits(v: string)
    requires v in {"", "server"} && v != ""
    ensures Word(v) && v in ChoiceMap(RemoteCertTls)
  {
    assert v == "server";
  }

  lemma CompressFits(v: string)
    requires v in {"", "lzo", "lz4"} && v != ""
    ensures Word(v) && v in ChoiceMap(Compress)
  {
    assert v == "lzo" || v == "lz4";
  }


  lemma SwitchWrites(o: Ovpn, d: string, f: FlagField)
    requires Keyed(Switch(d, f))
    ensures forall l <- FlagLine(d, FlagOf(o, f)) :: Writes(o, l) && OneLine(l)
    ensures FlagOf(o, f) ==> EffectOf(d) == RaiseFlag(f)
  {
    if FlagOf(o, f) {
      LowerCaseWord(d);
      FlagLineEffect(d, f);
    }
  }

  lemma NumberWrites(o: Ovpn, d: string, f: IntField)
    requires Keyed(Number(d, f))
    ensures forall l <- IntLine(d, IntOf(o, f)) :: Writes(o, l) && OneLine(l)
    ensures IntOf(o, f) > 0 ==> EffectOf(d + " " + FormatInt(IntOf(o, f))) == AssignInt(f, IntOf(o, f))
  {
    var n := IntOf(o, f);
    if n > 0 {
      NumberLineEffect(d, f, n);
      FormatIntIsWord(n);
      PairOneLine(d, FormatInt(n));
    }
  }

  /** A keyed integer setting's line assigns the printed number. */
  lemma NumberLineEffect(d: string, f: IntField, n: int)
    requires Keyed(Number(d, f))
    ensures EffectOf(d + " " + FormatInt(n)) == AssignInt(f, n)
  {
    LowerCaseWord(d);
    IntLineEffect(d, f, n);
  }

  lemma TextWrites(o: Ovpn, d: string, f: StrField)
    requires Keyed(Text(d, f)) && Fits(o, Text(d, f))
    ensures forall l <- StrLine(d, StrOf(o, f)) :: Writes(o, l) && OneLine(l)
    ensures StrOf(o, f) != "" ==> EffectOf(d + " " + StrOf(o, f)) == AssignStr(f, StrOf(o, f))
  {
    var v := StrOf(o, f);
    if v != "" {
      TextLineEffect(d, f, v);
      PairOneLine(d, v);
    }
  }

  /** A keyed text setting's line carrying a fitting value assigns that value. */
  lemma TextLineEffect(d: string, f: StrField, v: string)
    requires Keyed(Text(d, f)) && Word(v)
    requires f in {RemoteCertTls, Compress} ==> v in ChoiceMap(f)
    ensures EffectOf(d + " " + v) == AssignStr(f, v) && f != Dev
  {
    LowerCaseWord(d);
    if f in {RemoteCertTls, Compress} {
      ChoiceWord(f, v);
      ChoiceLineEffect(d, f, ChoiceMap(f), v);
    } else {
      StrLineEffect(d, f, v);
    }
  }

  lemma PairOneLine(d: string, v: string)
    requires Word(d) && Word(v)
    ensures OneLine(d + " " + v)
  {
  }

  lemma ChoiceWord(f: StrField, v: string)
    requires v in ChoiceMap(f)
    ensures ChoiceMap(f)[v] == v && v != "" && ' ' !in v && Lower(v) == v
  {
    if f == RemoteCertTls {
      ServerWord(v);
    } else {
      CompressWord(v);
    }
  }

  lemma ServerWord(v: string)
    requires v in ChoiceMap(RemoteCertTls)
    ensures ChoiceMap(RemoteCertTls)[v] == v && v != "" && ' ' !in v && Lower(v) == v
  {
    assert v == "server";
    LowerCaseWord(v);
  }

  lemma CompressWord(v: string)
    requires v in ChoiceMap(Compress)
    ensures ChoiceMap(Compress)[v] == v && v != "" && ' ' !in v && Lower(v) == v
  {
    assert v == "lzo" || v == "lz4";
    LowerCaseWord(v);
  }

  /** Every line of a keyed, fitting setting writes back the value it was printed from. */
  lemma SettingWrites(o: Ovpn, s: Setting)
    requires Keyed(s) && Fits(o, s)
    ensures forall l <- SettingLines(o, s) :: Writes(o, l) && OneLine(l)
  {
    match s
    case Switch(d, f) => SwitchWrites(o, d, f);
    case Number(d, f) => NumberWrites(o, d, f);
    case Text(d, f) => TextWrites(o, d, f);
  }

  lemma {:induction false} SettingsWrite(o: Ovpn, settings: seq<Setting>)
    requires forall s <- settings :: Keyed(s) && Fits(o, s)
    ensures forall l <- SettingsLines(o, settings) :: Writes(o, l) && OneLine(l)
  {
    if settings != [] {
      SettingWrites(o, settings[0]);
      SettingsWrite(o, settings[1..]);
    }
  }

  /** The lines of a setting in the table are among the printed lines. */
  lemma {:induction false} SettingPrinted(o: Ovpn, settings: seq<Setting>, s: Setting)
    requires s in settings
    ensures forall l <- SettingLines(o, s) :: l in SettingsLines(o, settings)
  {
    if settings[0] != s {
      SettingPrinted(o, settings[1..], s);
    }
  }

  /** The setting that prints integer field `f`. */
  lemma IntSetting(f: IntField) returns (d: string)
    ensures Number(d, f) in Settings
  {
    var i := match f
      case Verb => 5
      case Mute => 6
      case Ping => 8
      case PingExit => 9
      case HandWindow => 10
      case ServerPollTimeout => 11
      case RenegSec => 12
      case SndBuf => 13
      case RcvBuf => 14
      case KeyDirection => 18;
    d := Settings[i].keyword;
  }

  /** The setting that prints boolean field `f`. */
  lemma FlagSetting(f: FlagField) returns (d: string)
    ensures Switch(d, f) in Settings
  {
    var i := match f
      case RemoteRandom => 0
      case NoBind => 1
      case PersistTun => 2
      case PushPeerInfo => 7
      case AuthUserPass => 17;
    d := Settings[i].keyword;
  }

  /** The setting that prints string field `f`, for the four that have one. */
  lemma TextSetting(f: StrField) returns (d: string)
    requires f !in {Dev, EnvId, EnvName}
    ensures Text(d, f) in Settings
  {
    var i := match f
      case Cipher => 3
      case Auth => 4
      case RemoteCertTls => 15
      case _ => 16;
    d := Settings[i].keyword;
  }

  /** Every entry of the settings table is keyed. */
  lemma KeyedSettings()
    ensures forall s <- Settings :: Keyed(s)
  {
    KeyedFirst();
    KeyedSecond();
    KeyedThird();
    forall s <- Settings
      ensures Keyed(s)
    {
      var i :| 0 <= i < |Settings| && Settings[i] == s;
    }
  }

  lemma KeyedFirst()
    ensures forall i | 0 <= i < 7 :: Keyed(Settings[i])
  {
    forall i | 0 <= i < 7
      ensures Keyed(Settings[i])
    {
      if i == 0 {
        assert Settings[0] == Switch("remote-random", RemoteRandom);
        KeyedRemoteRandom();
      } else if i == 1 {
        assert Settings[1] == Switch("nobind", NoBind);
        KeyedNoBind();
      } else if i == 2 {
        assert Settings[2] == Switch("persist-tun", PersistTun);
        KeyedPersistTun();
      } else if i == 3 {
        assert Settings[3] == Text("cipher", Cipher);
        KeyedCipher();
      } else if i == 4 {
        assert Settings[4] == Text("auth", Auth);
        KeyedAuth();
      } else if i == 5 {
        assert Settings[5] == Number("verb", Verb);
        KeyedVerb();
      } else if i == 6 {
        assert Settings[6] == Number("mute", Mute);
        KeyedMute();
      }
    }
  }

  lemma KeyedSecond()
    ensures forall i | 7 <= i < 13 :: Keyed(Settings[i])
  {
    forall i | 7 <= i < 13
      ensures Keyed(Settings[i])
    {
      if i == 7 {
        assert Settings[7] == Switch("push-peer-info", PushPeerInfo);
        KeyedPushPeerInfo();
      } else if i == 8 {
        assert Settings[8] == Number("ping", Ping);
        KeyedPing();
      } else if i == 9 {
        assert Settings[9] == Number("ping-exit", PingExit);
        KeyedPingExit();
      } else if i == 10 {
        assert Settings[10] == Number("hand-window", HandWindow);
        KeyedHandWindow();
      } else if i == 11 {
        assert Settings[11] == Number("server-poll-timeout", ServerPollTimeout);
        KeyedServerPollTimeout();
      } else if i == 12 {
        assert Settings[12] == Number("reneg-sec", RenegSec);
        KeyedRenegSec();
      }
    }
  }

  lemma KeyedThird()
    ensures forall i | 13 <= i < 19 :: Keyed(Settings[i])
  {
    forall i | 13 <= i < 19
      ensures Keyed(Settings[i])
    {
      if i == 13 {
        assert Settings[13] == Number("sndbuf", SndBuf);
        KeyedSndBuf();
      } else if i == 14 {
        assert Settings[14] == Number("rcvbuf", RcvBuf);
        KeyedRcvBuf();
      } else if i == 15 {
        assert Settings[15] == Text("remote-cert-tls", RemoteCertTls);
        KeyedRemoteCertTls();
      } else if i == 16 {
        assert Settings[16] == Text("compress", Compress);
        KeyedCompress();
      } else if i == 17 {
        assert Settings[17] == Switch("auth-user-pass", AuthUserPass);
        KeyedAuthUserPass();
      } else if i == 18 {
        assert Settings[18] == Number("key-direction", KeyDirection);
        KeyedKeyDirection();
      }
    }
  }

  // ---------------------------------------------------------------------
  // The directive lines, segment by segment.
  // ---------------------------------------------------------------------

  lemma DevLine(v: string)
    requires v == "tun" || v == "tap"
    ensures EffectOf("dev " + v) == AssignStr(Dev, v) && OneLine("dev " + v)
  {
    assert "dev " + v == "dev" + " " + v;
    DeviceLineEffect("dev", v);
  }

  lemma DevTypeLine(v: string)
    requires v == "tun" || v == "tap"
    ensures EffectOf("dev-type " + v) == AssignStr(Dev, v) && OneLine("dev-type " + v)
  {
    assert "dev-type " + v == "dev-type" + " " + v;
    DeviceLineEffect("dev-type", v);
  }

  lemma ClientLine(t: Ovpn)
    ensures Exported(t, "client") && OneLine("client") && !EffectOf("client").AppendRemote?
  {
    ClientLineEffect();
  }

  /** `client` does nothing; `dev` and then `dev-type` both write `dev`. */
  lemma InterfaceExported(o: Ovpn)
    requires o.dev in {"tun", "tap"} && o.devType in {"tun", "tap"}
    ensures forall l <- InterfaceLines(o) :: Exported(o, l) && OneLine(l) && !EffectOf(l).AppendRemote?
    ensures EffectOf(InterfaceLines(o)[2]) == AssignStr(Dev, o.devType)
  {
    ClientLine(o);
    DevLine(o.dev);
    DevTypeLine(o.devType);
    ThreeLines(o, "client", "dev " + o.dev, "dev-type " + o.devType);
  }

  lemma ThreeLines(t: Ovpn, a: string, b: string, c: string)
    requires Exported(t, a) && OneLine(a) && !EffectOf(a).AppendRemote?
    requires Exported(t, b) && OneLine(b) && !EffectOf(b).AppendRemote?
    requires Exported(t, c) && OneLine(c) && !EffectOf(c).AppendRemote?
    ensures forall l <- [a, b, c] :: Exported(t, l) && OneLine(l) && !EffectOf(l).AppendRemote?
  {
  }

  /** Each remote line appends its entry, so the remote lines read back as the list. */
  lemma {:induction false} RemoteLinesAppend(remotes: seq<Remote>)
    requires forall r <- remotes :: Word(r.host) && r.proto in Protocols
    ensures forall l <- RemoteLines(remotes) :: EffectOf(l).AppendRemote? && OneLine(l)
    ensures RemotesOf(RemoteLines(remotes)) == remotes
  {
    if remotes != [] {
      var r := remotes[0];
      RemoteLineRead(r);
      RemoteLinesAppend(remotes[1..]);
      RemoteLinesCons(remotes);
    }
  }

  lemma RemoteLinesCons(remotes: seq<Remote>)
    requires remotes != []
    requires RemoteOf(RemoteLine(remotes[0])) == Some(remotes[0])
    requires RemotesOf(RemoteLines(remotes[1..])) == remotes[1..]
    ensures RemotesOf(RemoteLines(remotes)) == remotes
  {
    var lines := RemoteLines(remotes);
    assert lines[0] == RemoteLine(remotes[0]) && lines[1..] == RemoteLines(remotes[1..]);
    RemotesOfCons(lines);
    assert remotes == [remotes[0]] + remotes[1..];
  }


  lemma RemoteLineRead(r: Remote)
    requires Word(r.host) && r.proto in Protocols
    ensures EffectOf(RemoteLine(r)) == AppendRemote(r)
    ensures RemoteOf(RemoteLine(r)) == Some(r)
    ensures OneLine(RemoteLine(r))
  {
    RemoteLineEffect(r);
    RemoteEffect(RemoteLine(r));
    RemoteLineOneLine(r);
  }

  lemma RemoteLineOneLine(r: Remote)
    requires Word(r.host) && r.proto in Protocols
    ensures OneLine(RemoteLine(r))
  {
    FormatIntIsWord(r.port);
    assert r.proto in {"udp", "udp6", "tcp", "tcp6"};
    RemoteLineShape(r);
  }


  lemma {:induction false} RemotesOfAppend(a: seq<string>, b: seq<string>)
    ensures RemotesOf(a + b) == RemotesOf(a) + RemotesOf(b)
  {
    if a == [] {
      assert a + b == b;
    } else {
      var head := if RemoteOf(a[0]).Some? then [RemoteOf(a[0]).value] else [];
      assert (a + b)[0] == a[0] && (a + b)[1..] == a[1..] + b;
      assert RemotesOf(a + b) == head + RemotesOf(a[1..] + b);
      assert RemotesOf(a) == head + RemotesOf(a[1..]);
      RemotesOfAppend(a[1..], b);
      assert head + (RemotesOf(a[1..]) + RemotesOf(b)) == (head + RemotesOf(a[1..])) + RemotesOf(b);
    }
  }


  lemma {:induction false} RemotesOfNone(lines: seq<string>)
    requires forall l <- lines :: !EffectOf(l).AppendRemote?
    ensures RemotesOf(lines) == []
  {
    if lines != [] {
      RemoteEffect(lines[0]);
      RemotesOfNone(lines[1..]);
    }
  }

  /** The guarded directives of a representable profile write only its own values. */
  lemma OptionLinesWrite(o: Ovpn)
    requires Representable(o)
    ensures forall l <- OptionLines(o) :: Writes(o, l) && OneLine(l)
  {
    RepresentableFits(o);
    KeyedSettings();
    SettingsWrite(o, Settings);
  }

  /** Every directive line of a representable profile is exported and holds no line break. */
  lemma DirectiveLinesExported(o: Ovpn)
    requires Representable(o)
    ensures forall l <- DirectiveLines(o) :: Exported(o, l) && OneLine(l)
  {
    EnvLinesWrite(o);
    InterfaceExported(o);
    RemoteLinesAppend(o.remotes);
    OptionLinesWrite(o);
    FourSegments(o, EnvLines(o), InterfaceLines(o), RemoteLines(o.remotes), OptionLines(o));
  }

  lemma FourSegments(t: Ovpn, a: seq<string>, b: seq<string>, c: seq<string>, d: seq<string>)
    requires forall l <- a :: Writes(t, l) && OneLine(l)
    requires forall l <- b :: Exported(t, l) && OneLine(l)
    requires forall l <- c :: EffectOf(l).AppendRemote? && OneLine(l)
    requires forall l <- d :: Writes(t, l) && OneLine(l)
    ensures forall l <- a + b + c + d :: Exported(t, l) && OneLine(l)
  {
  }

  /** The remote lines are the only ones that append an entry. */
  lemma DirectiveRemotes(o: Ovpn)
    requires Representable(o)
    ensures RemotesOf(DirectiveLines(o)) == o.remotes
  {
    EnvLinesWrite(o);
    WritesNoRemotes(o, EnvLines(o));
    InterfaceExported(o);
    RemotesOfNone(InterfaceLines(o));
    OptionLinesWrite(o);
    WritesNoRemotes(o, OptionLines(o));
    RemoteLinesAppend(o.remotes);
    FourRemotes(EnvLines(o), InterfaceLines(o), RemoteLines(o.remotes), OptionLines(o));
  }

  lemma WritesNoRemotes(t: Ovpn, lines: seq<string>)
    requires forall l <- lines :: Writes(t, l)
    ensures RemotesOf(lines) == []
  {
    RemotesOfNone(lines);
  }

  lemma FourRemotes(a: seq<string>, b: seq<string>, c: seq<string>, d: seq<string>)
    requires RemotesOf(a) == [] && RemotesOf(b) == [] && RemotesOf(d) == []
    ensures RemotesOf(a + b + c + d) == RemotesOf(c)
  {
    RemotesOfAppend(a, b);
    RemotesOfAppend(a + b, c);
    RemotesOfAppend(a + b + c, d);
  }

  // ---------------------------------------------------------------------
  // The last write of a field, over exported lines.
  // ---------------------------------------------------------------------

  lemma {:induction false} LastIntWritten(t: Ovpn, lines: seq<string>, f: IntField)
    requires forall l <- lines :: Exported(t, l)
    ensures LastInt(lines, f) == None || LastInt(lines, f) == Some(IntOf(t, f))
  {
    if lines != [] {
      assert lines[0] in lines;
      assert forall l <- lines[1..] :: l in lines;
      IntEffect(lines[0], f);
      LastIntWritten(t, lines[1..], f);
    }
  }

  lemma {:induction false} LastIntFound(lines: seq<string>, f: IntField, l: string)
    requires l in lines && IntAssignment(l, f).Some?
    ensures LastInt(lines, f).Some?
  {
    if lines[0] != l {
      LastIntFound(lines[1..], f, l);
    }
  }

  lemma {:induction false} LastStrWritten(t: Ovpn, lines: seq<string>, f: StrField)
    requires f != Dev
    requires forall l <- lines :: Exported(t, l)
    ensures LastStr(lines, f) == None || LastStr(lines, f) == Some(StrOf(t, f))
  {
    if lines != [] {
      assert lines[0] in lines;
      assert forall l <- lines[1..] :: l in lines;
      StrEffect(lines[0], f);
      LastStrWritten(t, lines[1..], f);
    }
  }

  lemma {:induction false} LastStrFound(lines: seq<string>, f: StrField, l: string)
    requires l in lines && StrAssignment(l, f).Some?
    ensures LastStr(lines, f).Some?
  {
    if lines[0] != l {
      LastStrFound(lines[1..], f, l);
    }
  }

  lemma {:induction false} LastStrNone(lines: seq<string>, f: StrField)
    requires forall l <- lines :: !(EffectOf(l).AssignStr? && EffectOf(l).field == f)
    ensures LastStr(lines, f) == None
  {
    if lines != [] {
      StrEffect(lines[0], f);
      LastStrNone(lines[1..], f);
    }
  }

  lemma {:induction false} LastStrAppend(a: seq<string>, b: seq<string>, f: StrField)
    ensures LastStr(a + b, f) == if LastStr(b, f).Some? then LastStr(b, f) else LastStr(a, f)
  {
    if a == [] {
      assert a + b == b;
    } else {
      assert (a + b)[0] == a[0] && (a + b)[1..] == a[1..] + b;
      LastStrAppend(a[1..], b, f);
    }
  }

  /** A presence keyword among exported lines is one whose flag is set. */
  lemma MentionedFlag(t: Ovpn, lines: seq<string>, f: FlagField)
    requires forall l <- lines :: Exported(t, l)
    ensures Mentions(lines, f) ==> FlagOf(t, f)
  {
    if Mentions(lines, f) {
      var i :| 0 <= i < |lines| && Keyword(lines[i]) == FlagKeyword(f);
      assert lines[i] in lines;
      FlagEffect(lines[i], f);
      RaisedFlag(t, lines[i], f);
    }
  }

  lemma RaisedFlag(t: Ovpn, l: string, f: FlagField)
    requires Exported(t, l) && EffectOf(l) == RaiseFlag(f)
    ensures FlagOf(t, f)
  {
  }


  // ---------------------------------------------------------------------
  // Dispatching the directive lines, field by field.
  // ---------------------------------------------------------------------

  lemma EmptyFields()
    ensures forall f :: IntOf(Empty, f) == 0
    ensures forall f :: StrOf(Empty, f) == ""
    ensures forall f :: !FlagOf(Empty, f)
    ensures forall b :: BlobOf(Empty, b) == ""
  {
    forall f: IntField ensures IntOf(Empty, f) == 0 {
      match f
      case Verb =>
      case Mute =>
      case Ping =>
      case PingExit =>
      case HandWindow =>
      case ServerPollTimeout =>
      case RenegSec =>
      case SndBuf =>
      case RcvBuf =>
      case KeyDirection =>
    }
  }

  lemma OptionInDirectives(o: Ovpn, l: string)
    requires l in OptionLines(o)
    ensures l in DirectiveLines(o)
  {
  }

  lemma EnvInDirectives(o: Ovpn, l: string)
    requires l in EnvLines(o)
    ensures l in DirectiveLines(o)
  {
  }

  /** No directive line panics, so dispatching them succeeds. */
  lemma DirectivesSucceed(o: Ovpn)
    requires Representable(o)
    ensures Dispatched(Empty, DirectiveLines(o)).Ok?
  {
    DirectiveLinesExported(o);
    ExportedSucceed(o, Empty, DirectiveLines(o));
  }

  /** Exported lines never panic. */
  lemma ExportedSucceed(t: Ovpn, r: Ovpn, lines: seq<string>)
    requires forall l <- lines :: Exported(t, l)
    ensures Dispatched(r, lines).Ok?
  {
    DispatchedPanics(r, lines);
    forall i | 0 <= i < |lines|
      ensures !IsBareDevice(lines[i])
    {
      assert lines[i] in lines;
      ExportedNoPanic(t, lines[i]);
    }
  }

  lemma ExportedNoPanic(t: Ovpn, l: string)
    requires Exported(t, l)
    ensures !IsBareDevice(l)
  {
    PanicEffect(l);
  }

  lemma IntCarried(o: Ovpn, f: IntField)
    requires Representable(o)
    ensures Dispatched(Empty, DirectiveLines(o)).Ok?
    ensures IntOf(Dispatched(Empty, DirectiveLines(o)).value, f) == IntOf(o, f)
  {
    var lines := DirectiveLines(o);
    var n := IntOf(o, f);
    DirectivesSucceed(o);
    DirectiveLinesExported(o);
    DispatchedInt(Empty, lines, f);
    LastIntWritten(o, lines, f);
    EmptyFields();
    if n > 0 {
      var d := IntSetting(f);
      KeyedSettings();
      NumberWrites(o, d, f);
      var l := d + " " + FormatInt(n);
      SettingPrinted(o, Settings, Number(d, f));
      assert l in SettingLines(o, Number(d, f));
      OptionInDirectives(o, l);
      IntEffect(l, f);
      LastIntFound(lines, f, l);
    }
  }

  lemma StrCarried(o: Ovpn, f: StrField)
    requires Representable(o) && f != Dev
    ensures Dispatched(Empty, DirectiveLines(o)).Ok?
    ensures StrOf(Dispatched(Empty, DirectiveLines(o)).value, f) == StrOf(o, f)
  {
    var lines := DirectiveLines(o);
    var v := StrOf(o, f);
    DirectivesSucceed(o);
    DirectiveLinesExported(o);
    DispatchedStr(Empty, lines, f);
    LastStrWritten(o, lines, f);
    EmptyFields();
    if v != "" {
      var l := StrWitness(o, f);
      StrEffect(l, f);
      LastStrFound(lines, f, l);
    }
  }

  /** The line that writes string field `f` back. */
  lemma StrWitness(o: Ovpn, f: StrField) returns (l: string)
    requires Representable(o) && f != Dev && StrOf(o, f) != ""
    ensures l in DirectiveLines(o) && EffectOf(l) == AssignStr(f, StrOf(o, f))
  {
    var v := StrOf(o, f);
    EnvLinesWrite(o);
    if f == EnvId {
      l := "setenv UV_ID" + " " + v;
      EnvInDirectives(o, l);
    } else if f == EnvName {
      l := "setenv UV_NAME" + " " + v;
      EnvInDirectives(o, l);
    } else {
      var d := TextSetting(f);
      KeyedSettings();
      RepresentableFits(o);
      TextWrites(o, d, f);
      l := d + " " + v;
      SettingPrinted(o, Settings, Text(d, f));
      assert l in SettingLines(o, Text(d, f));
      OptionInDirectives(o, l);
    }
  }

  lemma FlagCarried(o: Ovpn, f: FlagField)
    requires Representable(o)
    ensures Dispatched(Empty, DirectiveLines(o)).Ok?
    ensures FlagOf(Dispatched(Empty, DirectiveLines(o)).value, f) == FlagOf(o, f)
  {
    var lines := DirectiveLines(o);
    DirectivesSucceed(o);
    DirectiveLinesExported(o);
    DispatchedFlag(Empty, lines, f);
    MentionedFlag(o, lines, f);
    EmptyFields();
    if FlagOf(o, f) {
      var d := FlagSetting(f);
      KeyedSettings();
      SwitchWrites(o, d, f);
      SettingPrinted(o, Settings, Switch(d, f));
      assert d in SettingLines(o, Switch(d, f));
      OptionInDirectives(o, d);
      FlagEffect(d, f);
      var i :| 0 <= i < |lines| && lines[i] == d;
    }
  }

  /** The `dev-type` line is the last one that writes `dev`. */
  lemma DevCarried(o: Ovpn)
    requires Representable(o)
    ensures Dispatched(Empty, DirectiveLines(o)).Ok?
    ensures StrOf(Dispatched(Empty, DirectiveLines(o)).value, Dev) == o.devType
  {
    DirectivesSucceed(o);
    DispatchedStr(Empty, DirectiveLines(o), Dev);
    DevTypeLast(o);
  }

  /** The `dev-type` line is the last to write `dev`. */
  lemma DevTypeLast(o: Ovpn)
    requires Representable(o)
    ensures LastStr(DirectiveLines(o), Dev) == Some(o.devType)
  {
    EnvLinesWrite(o);
    WritesNoDev(o, EnvLines(o));
    InterfaceDevLast(o);
    RemoteLinesAppend(o.remotes);
    LastStrNone(RemoteLines(o.remotes), Dev);
    OptionLinesWrite(o);
    WritesNoDev(o, OptionLines(o));
    LastOfFour(EnvLines(o), InterfaceLines(o), RemoteLines(o.remotes), OptionLines(o), Dev);
  }

  /** The interface lines end with `dev-type`, which writes `dev` last. */
  lemma InterfaceDevLast(o: Ovpn)
    requires o.dev in {"tun", "tap"} && o.devType in {"tun", "tap"}
    ensures LastStr(InterfaceLines(o), Dev) == Some(o.devType)
  {
    var iface := InterfaceLines(o);
    InterfaceExported(o);
    assert iface == iface[..2] + [iface[2]];
    LastStrAppend(iface[..2], [iface[2]], Dev);
    StrEffect(iface[2], Dev);
  }

  lemma WritesNoDev(t: Ovpn, lines: seq<string>)
    requires forall l <- lines :: Writes(t, l)
    ensures LastStr(lines, Dev) == None
  {
    LastStrNone(lines, Dev);
  }

  lemma LastOfFour(a: seq<string>, b: seq<string>, c: seq<string>, d: seq<string>, f: StrField)
    requires LastStr(b, f).Some? && LastStr(c, f) == None && LastStr(d, f) == None
    ensures LastStr(a + b + c + d, f) == LastStr(b, f)
  {
    LastStrAppend(a, b, f);
    LastStrAppend(a + b, c, f);
    LastStrAppend(a + b + c, d, f);
  }


  /** Dispatching the directive lines rebuilds the profile without blobs, `dev` taken from `devType`. */
  lemma DirectivesImport(o: Ovpn)
    requires Representable(o)
    ensures Dispatched(Empty, DirectiveLines(o))
            == Ok(WithoutBlobs(o).(dev := o.devType, devType := "", blockOutsideDns := false))
  {
    var lines := DirectiveLines(o);
    FieldsCarried(o);
    var got := Dispatched(Empty, lines).value;
    DirectiveRemotes(o);
    DispatchedRemotes(Empty, lines);
    DispatchedKeeps(Empty, lines);
    EmptyFields();
    Rebuilt(got, o);
  }

  /** Every integer, string and boolean field is read back; `dev` holds the `devType` value. */
  lemma FieldsCarried(o: Ovpn)
    requires Representable(o)
    ensures Dispatched(Empty, DirectiveLines(o)).Ok?
    ensures forall f :: IntOf(Dispatched(Empty, DirectiveLines(o)).value, f) == IntOf(o, f)
    ensures forall f :: f != Dev ==> StrOf(Dispatched(Empty, DirectiveLines(o)).value, f) == StrOf(o, f)
    ensures StrOf(Dispatched(Empty, DirectiveLines(o)).value, Dev) == o.devType
    ensures forall f :: FlagOf(Dispatched(Empty, DirectiveLines(o)).value, f) == FlagOf(o, f)
  {
    DirectivesSucceed(o);
    forall f: IntField ensures IntOf(Dispatched(Empty, DirectiveLines(o)).value, f) == IntOf(o, f) {
      IntCarried(o, f);
    }
    forall f: StrField | f != Dev ensures StrOf(Dispatched(Empty, DirectiveLines(o)).value, f) == StrOf(o, f) {
      StrCarried(o, f);
    }
    DevCarried(o);
    forall f: FlagField ensures FlagOf(Dispatched(Empty, DirectiveLines(o)).value, f) == FlagOf(o, f) {
      FlagCarried(o, f);
    }
  }

  /** A record with the scalar fields of `o`, its remotes and nothing else is the import target. */
  lemma Rebuilt(got: Ovpn, o: Ovpn)
    requires forall f :: IntOf(got, f) == IntOf(o, f)
    requires forall f :: f != Dev ==> StrOf(got, f) == StrOf(o, f)
    requires StrOf(got, Dev) == o.devType
    requires forall f :: FlagOf(got, f) == FlagOf(o, f)
    requires forall b :: BlobOf(got, b) == ""
    requires got.remotes == o.remotes && got.devType == "" && !got.blockOutsideDns
    ensures got == WithoutBlobs(o).(dev := o.devType, devType := "", blockOutsideDns := false)
  {
    var target := WithoutBlobs(o).(dev := o.devType, devType := "", blockOutsideDns := false);
    forall f: StrField ensures StrOf(got, f) == StrOf(target, f) {
      match f
      case EnvId =>
      case EnvName =>
      case Dev =>
      case Cipher =>
      case Auth =>
      case RemoteCertTls =>
      case Compress =>
    }
    forall f: IntField ensures IntOf(got, f) == IntOf(target, f) {
      match f
      case Verb =>
      case Mute =>
      case Ping =>
      case PingExit =>
      case HandWindow =>
      case ServerPollTimeout =>
      case RenegSec =>
      case SndBuf =>
      case RcvBuf =>
      case KeyDirection =>
    }
    forall f: FlagField ensures FlagOf(got, f) == FlagOf(target, f) {
      match f
      case RemoteRandom =>
      case NoBind =>
      case PersistTun =>
      case PushPeerInfo =>
      case AuthUserPass =>
    }
    forall b: Blob ensures BlobOf(got, b) == BlobOf(target, b) {
      match b
      case Ca =>
      case TlsAuth =>
      case Cert =>
      case Key =>
    }
    Extensionality(got, target);
  }


  // ---------------------------------------------------------------------
  // The material blocks, and the exported text as lines.
  // ---------------------------------------------------------------------

  function TagName(b: Blob): string {
    match b
    case Ca => "ca"
    case TlsAuth => "tls-auth"
    case Cert => "cert"
    case Key => "key"
  }

  function OpeningTag(b: Blob): string {
    match b
    case Ca => "<ca>"
    case TlsAuth => "<tls-auth>"
    case Cert => "<cert>"
    case Key => "<key>"
  }

  /** The lines of one exported block; an empty body prints nothing. */
  function BlockLines(b: Blob, body: string): seq<string>
    requires Terminated(body)
  {
    if body == "" then [] else [OpeningTag(b)] + BodyLines(body) + [ClosingTag(b)]
  }

  function BlobLines(o: Ovpn): seq<string>
    requires forall b :: Terminated(BlobOf(o, b))
  {
    assert Terminated(BlobOf(o, Ca)) && Terminated(BlobOf(o, TlsAuth));
    assert Terminated(BlobOf(o, Cert)) && Terminated(BlobOf(o, Key));
    BlockLines(Ca, o.caCert) + BlockLines(TlsAuth, o.tlsAuth)
    + BlockLines(Cert, o.cert) + BlockLines(Key, o.key)
  }

  /** The exported text, line by line, without the line feeds. */
  function ExportLines(o: Ovpn): seq<string>
    requires forall b :: Terminated(BlobOf(o, b))
  {
    DirectiveLines(o) + BlobLines(o)
  }

  /** Both tags of a block spell its name. */
  lemma TagShape(b: Blob)
    ensures OpeningTag(b) == "<" + TagName(b) + ">"
    ensures ClosingTag(b) == "</" + TagName(b) + ">"
  {
  }

  lemma TagsOneLine(b: Blob)
    ensures OneLine(OpeningTag(b)) && OneLine(ClosingTag(b))
  {
  }

  /** An opening tag opens its block. */
  lemma OpenTagEffect(b: Blob)
    ensures EffectOf(OpeningTag(b)) == OpenBlock(b)
  {
    BareWord(OpeningTag(b));
    OpensBlock(OpeningTag(b), b);
  }

  /**
   * A line opens block `b` exactly when its lower-cased first token is the
   * opening tag of `b`, whatever follows it on the line.
   */
  lemma OpensBlock(line: string, b: Blob)
    ensures EffectOf(line) == OpenBlock(b) <==> Keyword(line) == OpeningTag(b)
  {
    var key := Keyword(line);
    TagKeys(key, b);
    if key in Directives {
      TagKind(Directives[key], Tokens(line), b);
    }
  }

  /** Only the opening-tag case of `b` opens `b`, whatever the tokens. */
  lemma TagKind(kind: Kind, tokens: seq<string>, b: Blob)
    requires |tokens| >= 1
    ensures KindEffect(kind, tokens) == OpenBlock(b) <==> kind == OpenTag(b)
  {
    match kind
    case OpenTag(_) =>
    case Setenv =>
    case Device =>
    case RemoteEntry =>
    case Presence(_) =>
    case Verbatim(_) =>
    case Integer(_) =>
    case Choice(_, _) =>
  }

  /** The one keyword the table maps to the opening-tag case of `b`. */
  lemma TagKeys(key: string, b: Blob)
    ensures (key in Directives && Directives[key] == OpenTag(b)) <==> key == OpeningTag(b)
  {
    match b
    case Ca =>
    case TlsAuth =>
    case Cert =>
    case Key =>
  }

  lemma UnlinesOne(line: string)
    ensures Unlines([line]) == line + "\n"
  {
    assert [line][1..] == [];
  }

  /** Lines between two tag lines, printed with their line feeds. */
  lemma WrapLines(open: string, body: string, close: string)
    requires body != "" && body[|body| - 1] == '\n'
    ensures Unlines([open] + BodyLines(body) + [close]) == open + "\n" + body + close + "\n"
  {
    var inner := body[..|body| - 1];
    assert body == inner + "\n";
    UnlinesSplit(inner);
    var lines := BodyLines(body);
    UnlinesAppend([open] + lines, [close]);
    UnlinesAppend([open], lines);
    UnlinesOne(open);
    UnlinesOne(close);
  }

  lemma BlockText(tag: string, body: string)
    requires body != ""
    ensures Block(tag, body) == ("<" + tag + ">") + "\n" + body + ("</" + tag + ">") + "\n"
  {
  }

  /** A block printed as text is its lines, each with a line feed. */
  lemma BlockAsLines(b: Blob, body: string)
    requires Terminated(body)
    ensures Block(TagName(b), body) == Unlines(BlockLines(b, body))
  {
    if body != "" {
      WrapLines(OpeningTag(b), body, ClosingTag(b));
      TagShape(b);
      BlockText(TagName(b), body);
    }
  }

  /** No line of a plain block holds a line break. */
  lemma BlockLinesOneLine(b: Blob, body: string)
    requires Terminated(body) && PlainBlob(b, body)
    ensures forall l <- BlockLines(b, body) :: OneLine(l)
  {
    if body != "" {
      var inner := body[..|body| - 1];
      SplitPieces(inner, '\n');
      assert forall c <- inner :: c in body;
      TagsOneLine(b);
    }
  }

  lemma ExportAsLines(o: Ovpn)
    requires forall b :: Terminated(BlobOf(o, b))
    ensures Export(o) == Unlines(ExportLines(o))
  {
    BlocksAsLines(DirectiveLines(o), o);
  }

  /** The four blocks appended to the directive lines. */
  lemma BlocksAsLines(dl: seq<string>, o: Ovpn)
    requires forall b :: Terminated(BlobOf(o, b))
    ensures Unlines(dl) + Block("ca", o.caCert) + Block("tls-auth", o.tlsAuth) + Block("cert", o.cert) + Block("key", o.key)
            == Unlines(dl + BlobLines(o))
  {
    BlobsAsLines(o);
    UnlinesAppend(dl, BlobLines(o));
  }

  lemma BlobsAsLines(o: Ovpn)
    requires forall b :: Terminated(BlobOf(o, b))
    ensures Unlines(BlobLines(o))
            == Block("ca", o.caCert) + Block("tls-auth", o.tlsAuth) + Block("cert", o.cert) + Block("key", o.key)
  {
    assert Terminated(BlobOf(o, Ca)) && Terminated(BlobOf(o, TlsAuth));
    assert Terminated(BlobOf(o, Cert)) && Terminated(BlobOf(o, Key));
    BlockAsLines(Ca, o.caCert);
    BlockAsLines(TlsAuth, o.tlsAuth);
    BlockAsLines(Cert, o.cert);
    BlockAsLines(Key, o.key);
    UnlinesFour(BlockLines(Ca, o.caCert), BlockLines(TlsAuth, o.tlsAuth), BlockLines(Cert, o.cert), BlockLines(Key, o.key));
  }

  lemma UnlinesFour(a: seq<string>, b: seq<string>, c: seq<string>, d: seq<string>)
    ensures Unlines(a + b + c + d) == Unlines(a) + Unlines(b) + Unlines(c) + Unlines(d)
  {
    UnlinesAppend(a + b + c, d);
    UnlinesAppend(a + b, c);
    UnlinesAppend(a, b);
  }

  lemma ExportLinesOneLine(o: Ovpn)
    requires Representable(o)
    ensures forall l <- ExportLines(o) :: OneLine(l)
  {
    DirectiveLinesExported(o);
    assert Terminated(BlobOf(o, Ca)) && PlainBlob(Ca, BlobOf(o, Ca));
    assert Terminated(BlobOf(o, TlsAuth)) && PlainBlob(TlsAuth, BlobOf(o, TlsAuth));
    assert Terminated(BlobOf(o, Cert)) && PlainBlob(Cert, BlobOf(o, Cert));
    assert Terminated(BlobOf(o, Key)) && PlainBlob(Key, BlobOf(o, Key));
    BlockLinesOneLine(Ca, o.caCert);
    BlockLinesOneLine(TlsAuth, o.tlsAuth);
    BlockLinesOneLine(Cert, o.cert);
    BlockLinesOneLine(Key, o.key);
  }

  /** The export splits into its lines and a final empty piece. */
  lemma ExportSplit(o: Ovpn)
    requires Representable(o)
    ensures StripCarriageReturns(Export(o)) == Export(o)
    ensures Split(Export(o), '\n') == ExportLines(o) + [""]
  {
    var lines := ExportLines(o);
    ExportAsLines(o);
    ExportLinesOneLine(o);
    UnlinesWithoutCarriageReturn(lines);
    SplitUnlines(lines, "");
    assert Unlines(lines) + "" == Unlines(lines);
  }

  /** When the sanitizer keeps every line, the parser reads the export's lines and a final empty one. */
  lemma ExportRead(o: Ovpn, filter: LineFilter)
    requires Representable(o)
    requires forall l <- Split(Export(o), '\n') :: filter(l, MaxLineLength) == l
    ensures Lines(Export(o), filter) == ExportLines(o) + [""]
  {
    ExportSplit(o);
    var raw := Split(Export(o), '\n');
    var lines := Lines(Export(o), filter);
    forall i | 0 <= i < |raw|
      ensures lines[i] == raw[i]
    {
      assert raw[i] in raw;
    }
  }

  // ---------------------------------------------------------------------
  // Reading the lines back.
  // ---------------------------------------------------------------------

  /** Outside any block, lines that neither open a block nor panic are only dispatched. */
  lemma {:induction false} RunPlain(r: Reader, lines: seq<string>)
    requires ActiveBlob(r) == None
    requires forall l <- lines :: !EffectOf(l).OpenBlock? && EffectOf(l) != IndexPanic
    ensures Dispatched(r.o, lines).Ok?
    ensures Run(r, lines) == Ok(r.(o := Dispatched(r.o, lines).value))
    decreases |lines|
  {
    if lines != [] {
      var e := EffectOf(lines[0]);
      var next := r.(o := Apply(r.o, e));
      assert lines[0] in lines;
      assert Step(r, lines[0]) == Ok(next);
      assert forall l <- lines[1..] :: l in lines;
      RunPlain(next, lines[1..]);
    }
  }

  /** Inert lines leave the record as it is. */
  lemma {:induction false} DispatchedInert(o: Ovpn, lines: seq<string>)
    requires forall l <- lines :: EffectOf(l) == Inert
    ensures Dispatched(o, lines) == Ok(o)
    decreases |lines|
  {
    if lines != [] {
      assert lines[0] in lines;
      assert forall l <- lines[1..] :: l in lines;
      DispatchedInert(o, lines[1..]);
    }
  }

  /** An exported directive line neither opens a block nor panics. */
  lemma ExportedPlain(t: Ovpn, lines: seq<string>)
    requires forall l <- lines :: Exported(t, l)
    ensures forall l <- lines :: !EffectOf(l).OpenBlock? && EffectOf(l) != IndexPanic
  {
  }

  /** An opening tag, inert lines and the closing tag append the lines to the blob of that block. */
  lemma RunInertBlock(r: Reader, b: Blob, open: string, lines: seq<string>)
    requires ActiveBlob(r) == None && EffectOf(open) == OpenBlock(b)
    requires forall l <- lines :: l != ClosingTag(b) && EffectOf(l) == Inert
    ensures Run(r, [open] + lines + [ClosingTag(b)]) == Ok(r.(o := WithBlob(r.o, b, BlobOf(r.o, b) + Unlines(lines))))
  {
    assert PlainBody(b, lines) by {
      forall i | 0 <= i < |lines| ensures lines[i] in lines {}
    }
    CaptureBlock(r, b, open, lines);
    DispatchedInert(r.o, lines);
  }

  /** An exported block read into an empty blob stores its body and nothing else. */
  lemma RunBlock(r: Reader, b: Blob, body: string)
    requires ActiveBlob(r) == None && BlobOf(r.o, b) == ""
    requires Terminated(body) && PlainBlob(b, body)
    ensures Run(r, BlockLines(b, body)) == Ok(r.(o := WithBlob(r.o, b, body)))
  {
    if body == "" {
      RunEmptyBlock(r, b);
    } else {
      RunFullBlock(r, b, body);
    }
  }

  lemma RunEmptyBlock(r: Reader, b: Blob)
    requires BlobOf(r.o, b) == ""
    ensures Run(r, BlockLines(b, "")) == Ok(r.(o := WithBlob(r.o, b, "")))
  {
    WithOwnBlob(r.o, b);
    assert BlockLines(b, "") == [];
  }

  lemma RunFullBlock(r: Reader, b: Blob, body: string)
    requires ActiveBlob(r) == None && BlobOf(r.o, b) == ""
    requires body != "" && Terminated(body) && PlainBlob(b, body)
    ensures Run(r, BlockLines(b, body)) == Ok(r.(o := WithBlob(r.o, b, body)))
  {
    var inner := body[..|body| - 1];
    assert body == inner + "\n";
    UnlinesSplit(inner);
    RunTagged(r, b, BodyLines(body), body);
  }

  lemma RunTagged(r: Reader, b: Blob, lines: seq<string>, body: string)
    requires ActiveBlob(r) == None && BlobOf(r.o, b) == ""
    requires forall l <- lines :: l != ClosingTag(b) && EffectOf(l) == Inert
    requires Unlines(lines) == body
    ensures Run(r, [OpeningTag(b)] + lines + [ClosingTag(b)]) == Ok(r.(o := WithBlob(r.o, b, body)))
  {
    OpenTagEffect(b);
    RunInertBlock(r, b, OpeningTag(b), lines);
    assert BlobOf(r.o, b) + Unlines(lines) == body;
  }

  /** The four exported blocks, read outside any block into empty blobs, store the four bodies. */
  lemma RunBlocks(r: Reader, o: Ovpn)
    requires ActiveBlob(r) == None && forall b :: BlobOf(r.o, b) == ""
    requires forall b :: Terminated(BlobOf(o, b)) && PlainBlob(b, BlobOf(o, b))
    ensures Run(r, BlobLines(o))
            == Ok(r.(o := r.o.(caCert := o.caCert, tlsAuth := o.tlsAuth, cert := o.cert, key := o.key)))
  {
    assert Terminated(BlobOf(o, Ca)) && PlainBlob(Ca, BlobOf(o, Ca));
    assert Terminated(BlobOf(o, TlsAuth)) && PlainBlob(TlsAuth, BlobOf(o, TlsAuth));
    assert Terminated(BlobOf(o, Cert)) && PlainBlob(Cert, BlobOf(o, Cert));
    assert Terminated(BlobOf(o, Key)) && PlainBlob(Key, BlobOf(o, Key));
    assert BlobOf(r.o, Ca) == "" && BlobOf(r.o, TlsAuth) == "" && BlobOf(r.o, Cert) == "" && BlobOf(r.o, Key) == "";
    var ca, tls, cert, key := BlockLines(Ca, o.caCert), BlockLines(TlsAuth, o.tlsAuth),
                              BlockLines(Cert, o.cert), BlockLines(Key, o.key);
    var r1 := r.(o := r.o.(caCert := o.caCert));
    var r2 := r1.(o := r1.o.(tlsAuth := o.tlsAuth));
    var r3 := r2.(o := r2.o.(cert := o.cert));
    var r4 := r3.(o := r3.o.(key := o.key));
    RunBlock(r, Ca, o.caCert);
    RunBlock(r1, TlsAuth, o.tlsAuth);
    RunBlock(r2, Cert, o.cert);
    RunBlock(r3, Key, o.key);
    RunAppend(r, ca, tls);
    RunAppend(r, ca + tls, cert);
    RunAppend(r, ca + tls + cert, key);
  }

  /** The empty last piece of the text is an unknown keyword. */
  lemma EmptyLineInert()
    ensures EffectOf("") == Inert
  {
    SplitWithoutSeparator("", ' ');
    assert Keyword("") == "";
    assert "" !in Directives;
  }

  // ---------------------------------------------------------------------
  // The round trip.
  // ---------------------------------------------------------------------

  /** The directive lines, read from the start, rebuild the profile without blobs. */
  lemma ReadDirectives(o: Ovpn)
    requires Representable(o)
    ensures Run(Start, DirectiveLines(o))
            == Ok(Start.(o := WithoutBlobs(o).(dev := o.devType, devType := "", blockOutsideDns := false)))
  {
    var dl := DirectiveLines(o);
    DirectiveLinesExported(o);
    ExportedPlain(o, dl);
    RunPlain(Start, dl);
    DirectivesImport(o);
  }

  /** The profile without blobs, with the four bodies put back, is the profile. */
  lemma BlobsRestored(o: Ovpn, x: Ovpn)
    requires x == WithoutBlobs(o).(dev := o.devType, devType := "", blockOutsideDns := false)
    ensures x.(caCert := o.caCert, tlsAuth := o.tlsAuth, cert := o.cert, key := o.key)
            == o.(dev := o.devType, devType := "", blockOutsideDns := false)
  {
  }

  /** The blocks and the final empty line, read after the directives, complete the profile. */
  lemma ReadBlocks(o: Ovpn, r: Reader)
    requires Representable(o)
    requires r == Start.(o := WithoutBlobs(o).(dev := o.devType, devType := "", blockOutsideDns := false))
    ensures Run(r, BlobLines(o) + [""]) == Ok(Start.(o := o.(dev := o.devType, devType := "", blockOutsideDns := false)))
  {
    RunBlocks(r, o);
    BlobsRestored(o, r.o);
    var r2 := Start.(o := o.(dev := o.devType, devType := "", blockOutsideDns := false));
    EmptyLineInert();
    RunOne(r2, "");
    RunAppend(r, BlobLines(o), [""]);
  }

  /**
   * Importing the export of a representable profile, through a sanitizer
   * that keeps every exported line, gives back the profile with `dev`
   * replaced by `devType` (the later `dev-type` line wins), `devType`
   * defaulted to "tun" and `blockOutsideDns` cleared.
   */
  lemma ImportExport(o: Ovpn, filter: LineFilter)
    requires Representable(o)
    requires forall l <- Split(Export(o), '\n') :: filter(l, MaxLineLength) == l
    ensures ImportSpec(Export(o), filter) == Ok(o.(dev := o.devType, devType := "tun", blockOutsideDns := false))
  {
    RunExport(o, filter, Lines(Export(o), filter));
    assert o.devType != "";
    ImportAfterRun(Export(o), filter, o);
  }

  /** A run that ends outside any block with `devType` unset and `dev` set yields the defaulted record. */
  lemma ImportAfterRun(data: string, filter: LineFilter, o: Ovpn)
    requires o.devType != ""
    requires Run(Start, Lines(data, filter))
             == Ok(Reader(o.(dev := o.devType, devType := "", blockOutsideDns := false), false, false, false, false))
    ensures ImportSpec(data, filter) == Ok(o.(dev := o.devType, devType := "tun", blockOutsideDns := false))
  {
  }

  /** The parser, run over the export's lines, ends outside any block with the profile minus three fields. */
  lemma RunExport(o: Ovpn, filter: LineFilter, lines: seq<string>)
    requires Representable(o)
    requires forall l <- Split(Export(o), '\n') :: filter(l, MaxLineLength) == l
    requires lines == Lines(Export(o), filter)
    ensures Run(Start, lines) == Ok(Reader(o.(dev := o.devType, devType := "", blockOutsideDns := false), false, false, false, false))
  {
    var dl, bl := DirectiveLines(o), BlobLines(o);
    ExportRead(o, filter);
    assert lines == dl + (bl + [""]);
    ReadDirectives(o);
    var r1 := Start.(o := WithoutBlobs(o).(dev := o.devType, devType := "", blockOutsideDns := false));
    ReadBlocks(o, r1);
    RunAppend(Start, dl, bl + [""]);
  }

  /** The round trip is the identity exactly on tun profiles that do not block outside DNS. */
  lemma ImportExportIdentity(o: Ovpn, filter: LineFilter)
    requires Representable(o)
    requires forall l <- Split(Export(o), '\n') :: filter(l, MaxLineLength) == l
    ensures ImportSpec(Export(o), filter) == Ok(o) <==> o.dev == "tun" && o.devType == "tun" && !o.blockOutsideDns
  {
    ImportExport(o, filter);
  }

  lemma KeyedRemoteRandom()
    ensures Keyed(Switch("remote-random", RemoteRandom))
  {
    var d := "remote-random";
    assert Word(d) && LowerCase(d);
    assert d in Directives && Directives[d] == Presence(RemoteRandom);
  }

  lemma KeyedNoBind()
    ensures Keyed(Switch("nobind", NoBind))
  {
    var d := "nobind";
    assert Word(d) && LowerCase(d);
    assert d in Directives && Directives[d] == Presence(NoBind);
  }

  lemma KeyedPersistTun()
    ensures Keyed(Switch("persist-tun", PersistTun))
  {
    var d := "persist-tun";
    assert Word(d) && LowerCase(d);
    assert d in Directives && Directives[d] == Presence(PersistTun);
  }

  lemma KeyedCipher()
    ensures Keyed(Text("cipher", Cipher))
  {
    var d := "cipher";
    assert Word(d) && LowerCase(d);
    assert d in Directives && Directives[d] == Verbatim(Cipher);
  }

  lemma KeyedAuth()
    ensures Keyed(Text("auth", Auth))
  {
    var d := "auth";
    assert Word(d) && LowerCase(d);
    assert d in Directives && Directives[d] == Verbatim(Auth);
  }

  lemma KeyedVerb()
    ensures Keyed(Number("verb", Verb))
  {
    var d := "verb";
    assert Word(d) && LowerCase(d);
    assert d in Directives && Directives[d] == Integer(Verb);
  }

  lemma KeyedMute()
    ensures Keyed(Number("mute", Mute))
  {
    var d := "mute";
    assert Word(d) && LowerCase(d);
    assert d in Directives && Directives[d] == Integer(Mute);
  }

  lemma KeyedPushPeerInfo()
    ensures Keyed(Switch("push-peer-info", PushPeerInfo))
  {
    var d := "push-peer-info";
    assert Word(d) && LowerCase(d);
    assert d in Directives && Directives[d] == Presence(PushPeerInfo);
  }

  lemma KeyedPing()
    ensures Keyed(Number("ping", Ping))
  {
    var d := "ping";
    assert Word(d) && LowerCase(d);
    assert d in Directives && Directives[d] == Integer(Ping);
  }

  lemma KeyedPingExit()
    ensures Keyed(Number("ping-exit", PingExit))
  {
    var d := "ping-exit";
    assert Word(d) && LowerCase(d);
    assert d in Directives && Directives[d] == Integer(PingExit);
  }

  lemma KeyedHandWindow()
    ensures Keyed(Number("hand-window", HandWindow))
  {
    var d := "hand-window";
    assert Word(d) && LowerCase(d);
    assert d in Directives && Directives[d] == Integer(HandWindow);
  }

  lemma KeyedServerPollTimeout()
    ensures Keyed(Number("server-poll-timeout", ServerPollTimeout))
  {
    var d := "server-poll-timeout";
    assert Word(d) && LowerCase(d);
    assert d in Directives && Directives[d] == Integer(ServerPollTimeout);
  }

  lemma KeyedRenegSec()
    ensures Keyed(Number("reneg-sec", RenegSec))
  {
    var d := "reneg-sec";
    assert Word(d) && LowerCase(d);
    assert d in Directives && Directives[d] == Integer(RenegSec);
  }

  lemma KeyedSndBuf()
    ensures Keyed(Number("sndbuf", SndBuf))
  {
    var d := "sndbuf";
    assert Word(d) && LowerCase(d);
    assert d in Directives && Directives[d] == Integer(SndBuf);
  }

  lemma KeyedRcvBuf()
    ensures Keyed(Number("rcvbuf", RcvBuf))
  {
    var d := "rcvbuf";
    assert Word(d) && LowerCase(d);
    assert d in Directives && Directives[d] == Integer(RcvBuf);
  }

  lemma KeyedRemoteCertTls()
    ensures Keyed(Text("remote-cert-tls", RemoteCertTls))
  {
    var d := "remote-cert-tls";
    assert Word(d) && LowerCase(d);
    assert d in Directives && Directives[d] == Choice(RemoteCertTls, map["server" := "server"]);
  }

  lemma KeyedCompress()
    ensures Keyed(Text("compress", Compress))
  {
    var d := "compress";
    assert Word(d) && LowerCase(d);
    assert d in Directives && Directives[d] == Choice(Compress, map["lzo" := "lzo", "lz4" := "lz4"]);
  }

  lemma KeyedAuthUserPass()
    ensures Keyed(Switch("auth-user-pass", AuthUserPass))
  {
    var d := "auth-user-pass";
    assert Word(d) && LowerCase(d);
    assert d in Directives && Directives[d] == Presence(AuthUserPass);
  }

  lemma KeyedKeyDirection()
    ensures Keyed(Number("key-direction", KeyDirection))
  {
    var d := "key-direction";
    assert Word(d) && LowerCase(d);
    assert d in Directives && Directives[d] == Integer(KeyDirection);
  }
}
