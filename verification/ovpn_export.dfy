/**
 * `(*Ovpn).Export`: the profile as OpenVPN directive text. Each directive is
 * one line; the fixed order and the guards (non-empty string, true, > 0)
 * are those of the source. The four material blocks follow, each body
 * emitted byte for byte between its opening and closing tag lines.
 */
module OvpnExport {
  import opened Strings
  import opened Decimal
  import opened OvpnTypes

  /** `<directive> <value>` when the value is non-empty. */
  function StrLine(directive: string, value: string): seq<string> {
    if value != "" then [directive + " " + value] else []
  }

  /** `<directive> <n>` when `n` is strictly positive. */
  function IntLine(directive: string, n: int): seq<string> {
    if n > 0 then [directive + " " + FormatInt(n)] else []
  }

  /** The bare directive when the switch is on. */
  function FlagLine(directive: string, on: bool): seq<string> {
    if on then [directive] else []
  }

  function RemoteLine(r: Remote): string {
    "remote " + r.host + " " + FormatInt(r.port) + " " + r.proto
  }

  /** One `remote` line per entry, in list order. */
  function RemoteLines(remotes: seq<Remote>): seq<string> {
    if remotes == [] then [] else [RemoteLine(remotes[0])] + RemoteLines(remotes[1..])
  }

  /** The optional `setenv` lines. */
  function EnvLines(o: Ovpn): seq<string> {
    StrLine("setenv UV_ID", o.envId) + StrLine("setenv UV_NAME", o.envName)
  }

  /** The three lines that are always emitted. */
  function InterfaceLines(o: Ovpn): seq<string> {
    ["client", "dev " + o.dev, "dev-type " + o.devType]
  }

  /**
   * One guarded directive after the remotes: its keyword and the field it
   * prints. A switch is printed bare when true, a text field with its value
   * when non-empty, a number with its decimal value when strictly positive.
   */
  datatype Setting =
    | Switch(keyword: string, flag: FlagField)
    | Text(keyword: string, field: StrField)
    | Number(keyword: string, intField: IntField)

  /** The guarded directives in the order the source writes them. */
  const Settings: seq<Setting> := [
    Switch("remote-random", RemoteRandom),
    Switch("nobind", NoBind),
    Switch("persist-tun", PersistTun),
    Text("cipher", Cipher),
    Text("auth", Auth),
    Number("verb", Verb),
    Number("mute", Mute),
    Switch("push-peer-info", PushPeerInfo),
    Number("ping", Ping),
    Number("ping-exit", PingExit),
    Number("hand-window", HandWindow),
    Number("server-poll-timeout", ServerPollTimeout),
    Number("reneg-sec", RenegSec),
    Number("sndbuf", SndBuf),
    Number("rcvbuf", RcvBuf),
    Text("remote-cert-tls", RemoteCertTls),
    Text("compress", Compress),
    Switch("auth-user-pass", AuthUserPass),
    Number("key-direction", KeyDirection)
  ]

  /** The line of one setting, or nothing when its guard fails. */
  function SettingLines(o: Ovpn, s: Setting): seq<string> {
    match s
    case Switch(d, f) => FlagLine(d, FlagOf(o, f))
    case Text(d, f) => StrLine(d, StrOf(o, f))
    case Number(d, f) => IntLine(d, IntOf(o, f))
  }

  /** The lines of `settings`, in order. */
  function SettingsLines(o: Ovpn, settings: seq<Setting>): seq<string> {
    if settings == [] then [] else SettingLines(o, settings[0]) + SettingsLines(o, settings[1..])
  }

  /** The guarded directives after the remotes, in source order. */
  function OptionLines(o: Ovpn): seq<string> {
    SettingsLines(o, Settings)
  }

  /** Every directive line, in emission order. */
  function DirectiveLines(o: Ovpn): seq<string> {
    EnvLines(o) + InterfaceLines(o) + RemoteLines(o.remotes) + OptionLines(o)
  }

  /** `<tag>\n<body></tag>\n` for a non-empty body; nothing for an empty one. */
  function Block(tag: string, body: string): string {
    if body == "" then "" else "<" + tag + ">\n" + body + "</" + tag + ">\n"
  }

  function Export(o: Ovpn): string {
    Unlines(DirectiveLines(o))
    + Block("ca", o.caCert)
    + Block("tls-auth", o.tlsAuth)
    + Block("cert", o.cert)
    + Block("key", o.key)
  }

  /** The remote lines are the entries' lines, one each, in list order. */
  lemma {:induction false} RemoteLinesInOrder(remotes: seq<Remote>)
    ensures |RemoteLines(remotes)| == |remotes|
    ensures forall i :: 0 <= i < |remotes| ==> RemoteLines(remotes)[i] == RemoteLine(remotes[i])
  {
    if remotes != [] {
      var rest := remotes[1..];
      RemoteLinesInOrder(rest);
      assert RemoteLines(remotes) == [RemoteLine(remotes[0])] + RemoteLines(rest);
      forall i | 0 < i < |remotes|
        ensures RemoteLines(remotes)[i] == RemoteLine(remotes[i])
      {
        assert remotes[i] == rest[i - 1];
      }
    }
  }

  /** The guard of a setting: a true flag, a non-empty string or a positive number. */
  predicate Printed(o: Ovpn, s: Setting) {
    match s
    case Switch(_, f) => FlagOf(o, f)
    case Text(_, f) => StrOf(o, f) != ""
    case Number(_, f) => IntOf(o, f) > 0
  }

  /**
   * A setting prints nothing exactly when its guard fails, and otherwise
   * one line that starts with its keyword.
   */
  lemma SettingSilent(o: Ovpn, s: Setting)
    ensures SettingLines(o, s) == [] <==> !Printed(o, s)
    ensures Printed(o, s) ==> |SettingLines(o, s)| == 1 && s.keyword <= SettingLines(o, s)[0]
  {
    if Printed(o, s) {
      var line := SettingLines(o, s)[0];
      match s
      case Switch(d, f) =>
      case Text(d, f) => assert line == d + " " + StrOf(o, f);
      case Number(d, f) => assert line == d + " " + FormatInt(IntOf(o, f));
    }
  }

  /** A list of settings prints nothing exactly when every guard in it fails. */
  lemma {:induction false} SilentSettings(o: Ovpn, settings: seq<Setting>)
    ensures SettingsLines(o, settings) == [] <==> forall s <- settings :: !Printed(o, s)
  {
    if settings != [] {
      SettingSilent(o, settings[0]);
      SilentSettings(o, settings[1..]);
      assert forall s <- settings :: s == settings[0] || s in settings[1..];
    }
  }

  lemma {:induction false} SettingsLinesAppend(o: Ovpn, a: seq<Setting>, b: seq<Setting>)
    ensures SettingsLines(o, a + b) == SettingsLines(o, a) + SettingsLines(o, b)
  {
    if a == [] {
      assert a + b == b;
    } else {
      assert (a + b)[0] == a[0] && (a + b)[1..] == a[1..] + b;
      SettingsLinesAppend(o, a[1..], b);
    }
  }

  /** No setting prints `dev`, `devType` or the `setenv` values. */
  lemma SettingFields()
    ensures forall s <- Settings :: s.Text? ==> s.field !in {Dev, EnvId, EnvName}
  {
  }

  /** All optional fields unset (empty, false or at most 0). */
  predicate NothingOptional(o: Ovpn) {
    && (forall f :: f != Dev ==> StrOf(o, f) == "")
    && (forall f :: !FlagOf(o, f))
    && (forall f :: IntOf(o, f) <= 0)
    && (forall b :: BlobOf(o, b) == "")
  }

  /** A profile with every optional field unset prints no guarded directive. */
  lemma UnsetSettingsSilent(o: Ovpn)
    requires NothingOptional(o)
    ensures OptionLines(o) == []
  {
    SettingFields();
    forall s <- Settings
      ensures !Printed(o, s)
    {
      UnsetNotPrinted(o, s);
    }
    SilentSettings(o, Settings);
  }

  lemma UnsetNotPrinted(o: Ovpn, s: Setting)
    requires NothingOptional(o)
    requires s.Text? ==> s.field != Dev
    ensures !Printed(o, s)
  {
  }

  /**
   * Unset fields emit nothing: such a profile exports as the three fixed
   * lines followed by its remote lines.
   */
  lemma ExportOfUnsetFields(o: Ovpn)
    requires NothingOptional(o)
    ensures Export(o) == Unlines(["client", "dev " + o.dev, "dev-type " + o.devType]
                                 + RemoteLines(o.remotes))
  {
    UnsetDirectives(o);
    UnsetBlocks(o);
  }

  lemma UnsetDirectives(o: Ovpn)
    requires NothingOptional(o)
    ensures DirectiveLines(o) == InterfaceLines(o) + RemoteLines(o.remotes)
  {
    assert StrOf(o, EnvId) == "" && StrOf(o, EnvName) == "";
    assert EnvLines(o) == [];
    UnsetSettingsSilent(o);
  }

  lemma UnsetBlocks(o: Ovpn)
    requires NothingOptional(o)
    ensures Export(o) == Unlines(DirectiveLines(o))
  {
    assert BlobOf(o, Ca) == "" && BlobOf(o, TlsAuth) == "" && BlobOf(o, Cert) == "" && BlobOf(o, Key) == "";
  }

}
