/**
 * `Import`: OpenVPN directive text to a profile. Carriage returns are
 * removed, the text is split on line feeds and every line passes through
 * the sanitizer (`FilterStr(line, 256)` in the source, a parameter here).
 * Four independent booleans track the inline material blocks; every line
 * other than the closing tag of the block being captured is then split on
 * single spaces and dispatched on its lower-cased first token. A directive
 * whose arity or value check fails is dropped without touching the record.
 */
module OvpnImport {
  import opened Wrappers
  import opened Strings
  import opened Decimal
  import opened OvpnTypes

  /** The line sanitizer, applied as `filter(line, MaxLineLength)`; its behaviour is not modelled. */
  type LineFilter = (string, nat) -> string

  const MaxLineLength: nat := 256

  /**
   * The result of an import. A `dev` or `dev-type` line without an argument
   * makes the source index past the end of its token slice, which is a Go
   * runtime panic; that outcome carries the offending line.
   */
  datatype Outcome<T> = Ok(value: T) | IndexOutOfRange(line: string)

  /** What a recognised keyword selects in the dispatch switch. */
  datatype Kind =
    | OpenTag(opens: Blob)
    | Setenv
    | Device
    | RemoteEntry
    | Presence(sets: FlagField)
    | Verbatim(copiesTo: StrField)
    | Integer(parsesTo: IntField)
    | Choice(mapsTo: StrField, accepted: map<string, string>)

  /**
   * The keywords of the switch and what each selects. Both `dev` and
   * `dev-type` select `Device` (they write `dev`); both `ping-restart` and
   * `ping-exit` write `pingExit`.
   */
  const Directives: map<string, Kind> := map[
    "<ca>" := OpenTag(Ca),
    "<tls-auth>" := OpenTag(TlsAuth),
    "<cert>" := OpenTag(Cert),
    "<key>" := OpenTag(Key),
    "setenv" := Setenv,
    "dev" := Device,
    "dev-type" := Device,
    "remote" := RemoteEntry,
    "remote-random" := Presence(RemoteRandom),
    "nobind" := Presence(NoBind),
    "persist-tun" := Presence(PersistTun),
    "cipher" := Verbatim(Cipher),
    "auth" := Verbatim(Auth),
    "verb" := Integer(Verb),
    "mute" := Integer(Mute),
    "push-peer-info" := Presence(PushPeerInfo),
    "ping" := Integer(Ping),
    "ping-restart" := Integer(PingExit),
    "ping-exit" := Integer(PingExit),
    "hand-window" := Integer(HandWindow),
    "server-poll-timeout" := Integer(ServerPollTimeout),
    "reneg-sec" := Integer(RenegSec),
    "sndbuf" := Integer(SndBuf),
    "rcvbuf" := Integer(RcvBuf),
    "remote-cert-tls" := Choice(RemoteCertTls, map["server" := "server"]),
    "comp-lzo" := Choice(Compress, map["on" := "lzo"]),
    "compress" := Choice(Compress, map["lzo" := "lzo", "lz4" := "lz4"]),
    "auth-user-pass" := Presence(AuthUserPass),
    "key-direction" := Integer(KeyDirection)
  ]

  /** The transport protocols a `remote` line may name (compared lower-cased). */
  const Protocols: set<string> := {"udp", "udp6", "tcp", "tcp6"}

  /** What dispatching one line does to the record or to the block flags. */
  datatype Effect =
    | Inert
    | OpenBlock(blob: Blob)
    | AssignStr(field: StrField, text: string)
    | AssignInt(intField: IntField, number: int)
    | RaiseFlag(flag: FlagField)
    | AppendRemote(remote: Remote)
    | IndexPanic

  /** The line split on single spaces. */
  function Tokens(line: string): (tokens: seq<string>)
    ensures |tokens| >= 1
  {
    Split(line, ' ')
  }

  /** The lower-cased first token, which selects the switch case. */
  function Keyword(line: string): string {
    Lower(Tokens(line)[0])
  }

  /** The effect of dispatching `line`; unknown keywords have none. */
  function EffectOf(line: string): Effect {
    var key := Keyword(line);
    if key in Directives then KindEffect(Directives[key], Tokens(line)) else Inert
  }

  /** The arity and value checks of one switch case, on the line's tokens. */
  function KindEffect(kind: Kind, tokens: seq<string>): Effect
    requires |tokens| >= 1
  {
    match kind
    case OpenTag(b) => OpenBlock(b)
    case Setenv =>
      if |tokens| != 3 then Inert
      else if Lower(tokens[1]) == "uv_id" then AssignStr(EnvId, tokens[2])
      else if Lower(tokens[1]) == "uv_name" then AssignStr(EnvName, tokens[2])
      else Inert
    case Device =>
      if |tokens| < 2 then IndexPanic
      else if Lower(tokens[1]) == "tun" then AssignStr(Dev, "tun")
      else if Lower(tokens[1]) == "tap" then AssignStr(Dev, "tap")
      else Inert
    case RemoteEntry =>
      if |tokens| != 4 then Inert
      else if ParseInt(tokens[2]).None? then Inert
      else if Lower(tokens[3]) !in Protocols then Inert
      else AppendRemote(Remote(tokens[1], ParseInt(tokens[2]).value, Lower(tokens[3])))
    case Presence(f) => RaiseFlag(f)
    case Verbatim(f) =>
      if |tokens| != 2 then Inert else AssignStr(f, tokens[1])
    case Integer(f) =>
      if |tokens| != 2 || ParseInt(tokens[1]).None? then Inert
      else AssignInt(f, ParseInt(tokens[1]).value)
    case Choice(f, accepted) =>
      if |tokens| != 2 || Lower(tokens[1]) !in accepted then Inert
      else AssignStr(f, accepted[Lower(tokens[1])])
  }

  /** The record after a field-writing effect; the other effects leave it alone. */
  function Apply(o: Ovpn, e: Effect): Ovpn {
    match e
    case AssignStr(f, s) => WithStr(o, f, s)
    case AssignInt(f, n) => WithInt(o, f, n)
    case RaiseFlag(f) => WithFlag(o, f, true)
    case AppendRemote(r) => o.(remotes := o.remotes + [r])
    case _ => o
  }

  /** The parser's state between lines: the record so far and the four block flags. */
  datatype Reader = Reader(o: Ovpn, inCa: bool, inTls: bool, inCert: bool, inKey: bool)

  const Start: Reader := Reader(Empty, false, false, false, false)

  /** The block a line is captured into: the first raised flag in the if/else chain. */
  function ActiveBlob(r: Reader): Option<Blob> {
    if r.inCa then Some(Ca)
    else if r.inTls then Some(TlsAuth)
    else if r.inCert then Some(Cert)
    else if r.inKey then Some(Key)
    else None
  }

  function ClosingTag(b: Blob): string {
    match b
    case Ca => "</ca>"
    case TlsAuth => "</tls-auth>"
    case Cert => "</cert>"
    case Key => "</key>"
  }

  /** The reader with the flag of `b` set to `on`. */
  function WithBlockFlag(r: Reader, b: Blob, on: bool): Reader {
    match b
    case Ca => r.(inCa := on)
    case TlsAuth => r.(inTls := on)
    case Cert => r.(inCert := on)
    case Key => r.(inKey := on)
  }

  /** The switch: an opening tag raises its flag, anything else goes to the record. */
  function Dispatch(r: Reader, line: string): Outcome<Reader> {
    match EffectOf(line)
    case IndexPanic => IndexOutOfRange(line)
    case OpenBlock(b) => Ok(WithBlockFlag(r, b, true))
    case e => Ok(r.(o := Apply(r.o, e)))
  }

  /**
   * One iteration of the loop: inside a block the exact closing tag lowers
   * the flag and ends the iteration; any other line is appended to the
   * blob with a line feed and then dispatched like every line.
   */
  function Step(r: Reader, line: string): Outcome<Reader> {
    match ActiveBlob(r)
    case None => Dispatch(r, line)
    case Some(b) =>
      if line == ClosingTag(b) then Ok(WithBlockFlag(r, b, false))
      else Dispatch(r.(o := WithBlob(r.o, b, BlobOf(r.o, b) + line + "\n")), line)
  }

  /** The loop over all lines; the first panic ends it. */
  function Run(r: Reader, lines: seq<string>): Outcome<Reader>
    decreases |lines|
  {
    if lines == [] then Ok(r)
    else
      match Step(r, lines[0])
      case IndexOutOfRange(l) => IndexOutOfRange(l)
      case Ok(next) => Run(next, lines[1..])
  }

  /** Continue the loop from an outcome. */
  function Resume(x: Outcome<Reader>, lines: seq<string>): Outcome<Reader> {
    match x
    case IndexOutOfRange(l) => x
    case Ok(r) => Run(r, lines)
  }

  lemma {:induction false} RunAppend(r: Reader, a: seq<string>, b: seq<string>)
    ensures Run(r, a + b) == Resume(Run(r, a), b)
    decreases |a|
  {
    if a == [] {
      assert a + b == b;
    } else {
      assert (a + b)[0] == a[0] && (a + b)[1..] == a[1..] + b;
      match Step(r, a[0])
      case IndexOutOfRange(l) =>
      case Ok(next) => RunAppend(next, a[1..], b);
    }
  }

  lemma RunOne(r: Reader, line: string)
    ensures Run(r, [line]) == Step(r, line)
  {
    assert [line][0] == line && [line][1..] == [];
    match Step(r, line)
    case IndexOutOfRange(l) =>
    case Ok(next) => assert Run(next, []) == Ok(next);
  }

  /** The sanitized lines of the input text. */
  function Lines(data: string, filter: LineFilter): (lines: seq<string>)
    ensures |lines| == |Split(StripCarriageReturns(data), '\n')|
  {
    var raw := Split(StripCarriageReturns(data), '\n');
    seq(|raw|, i requires 0 <= i < |raw| => filter(raw[i], MaxLineLength))
  }

  /** The final defaulting: an empty `dev` or `devType` becomes "tun". */
  function Defaults(o: Ovpn): (d: Ovpn)
    ensures d.dev != "" && d.devType != ""
    ensures o.dev != "" ==> d.dev == o.dev
    ensures o.devType != "" ==> d.devType == o.devType
    ensures o.dev == "" ==> d.dev == "tun"
    ensures o.devType == "" ==> d.devType == "tun"
    ensures d == o.(dev := d.dev, devType := d.devType)
  {
    o.(dev := if o.dev == "" then "tun" else o.dev,
       devType := if o.devType == "" then "tun" else o.devType)
  }

  /** What `Import` returns for `data`. */
  function ImportSpec(data: string, filter: LineFilter): Outcome<Ovpn> {
    match Run(Start, Lines(data, filter))
    case IndexOutOfRange(l) => IndexOutOfRange(l)
    case Ok(r) => Ok(Defaults(r.o))
  }
}
