/**
 * The OpenVPN client profile record (`Ovpn` in service/parser/ovpn.go) and
 * its `Remote` entries, with field selectors used by the directive table.
 * The record is a value: `Import` builds a fresh one and `Export` only
 * reads it, so no reference to it is shared while it changes.
 */
module OvpnTypes {

  /** One `remote <host> <port> <proto>` entry; order in the list is attempt order. */
  datatype Remote = Remote(host: string, port: int, proto: string)

  /**
   * The profile. Field names follow the source, except that the source's
   * misspelt `PersisitTun` is `persistTun` here. `blockOutsideDns` is
   * carried but neither codec direction reads or writes it.
   */
  datatype Ovpn = Ovpn(
    envId: string,
    envName: string,
    dev: string,
    devType: string,
    remotes: seq<Remote>,
    remoteRandom: bool,
    noBind: bool,
    persistTun: bool,
    cipher: string,
    auth: string,
    verb: int,
    mute: int,
    pushPeerInfo: bool,
    ping: int,
    pingExit: int,
    handWindow: int,
    serverPollTimeout: int,
    renegSec: int,
    sndBuf: int,
    rcvBuf: int,
    remoteCertTls: string,
    compress: string,
    blockOutsideDns: bool,
    authUserPass: bool,
    keyDirection: int,
    caCert: string,
    tlsAuth: string,
    cert: string,
    key: string)

  /** The zero record `Import` starts from: empty strings, no remotes, false, 0. */
  const Empty: Ovpn := Ovpn("", "", "", "", [], false, false, false, "", "", 0, 0, false,
                            0, 0, 0, 0, 0, 0, 0, "", "", false, false, 0, "", "", "", "")

  /** String fields a directive can assign. (`devType` is not one: no directive writes it.) */
  datatype StrField = EnvId | EnvName | Dev | Cipher | Auth | RemoteCertTls | Compress

  /** Integer fields a directive can assign. */
  datatype IntField =
    | Verb | Mute | Ping | PingExit | HandWindow | ServerPollTimeout
    | RenegSec | SndBuf | RcvBuf | KeyDirection

  /** Boolean fields a presence-only directive sets. */
  datatype FlagField = RemoteRandom | NoBind | PersistTun | PushPeerInfo | AuthUserPass

  /** The four inline material blocks, in the priority order of the capture chain. */
  datatype Blob = Ca | TlsAuth | Cert | Key

  function StrOf(o: Ovpn, f: StrField): string {
    match f
    case EnvId => o.envId
    case EnvName => o.envName
    case Dev => o.dev
    case Cipher => o.cipher
    case Auth => o.auth
    case RemoteCertTls => o.remoteCertTls
    case Compress => o.compress
  }

  function WithStr(o: Ovpn, f: StrField, s: string): Ovpn {
    match f
    case EnvId => o.(envId := s)
    case EnvName => o.(envName := s)
    case Dev => o.(dev := s)
    case Cipher => o.(cipher := s)
    case Auth => o.(auth := s)
    case RemoteCertTls => o.(remoteCertTls := s)
    case Compress => o.(compress := s)
  }

  function IntOf(o: Ovpn, f: IntField): int {
    match f
    case Verb => o.verb
    case Mute => o.mute
    case Ping => o.ping
    case PingExit => o.pingExit
    case HandWindow => o.handWindow
    case ServerPollTimeout => o.serverPollTimeout
    case RenegSec => o.renegSec
    case SndBuf => o.sndBuf
    case RcvBuf => o.rcvBuf
    case KeyDirection => o.keyDirection
  }

  function WithInt(o: Ovpn, f: IntField, n: int): Ovpn {
    match f
    case Verb => o.(verb := n)
    case Mute => o.(mute := n)
    case Ping => o.(ping := n)
    case PingExit => o.(pingExit := n)
    case HandWindow => o.(handWindow := n)
    case ServerPollTimeout => o.(serverPollTimeout := n)
    case RenegSec => o.(renegSec := n)
    case SndBuf => o.(sndBuf := n)
    case RcvBuf => o.(rcvBuf := n)
    case KeyDirection => o.(keyDirection := n)
  }

  function FlagOf(o: Ovpn, f: FlagField): bool {
    match f
    case RemoteRandom => o.remoteRandom
    case NoBind => o.noBind
    case PersistTun => o.persistTun
    case PushPeerInfo => o.pushPeerInfo
    case AuthUserPass => o.authUserPass
  }

  function WithFlag(o: Ovpn, f: FlagField, b: bool): Ovpn {
    match f
    case RemoteRandom => o.(remoteRandom := b)
    case NoBind => o.(noBind := b)
    case PersistTun => o.(persistTun := b)
    case PushPeerInfo => o.(pushPeerInfo := b)
    case AuthUserPass => o.(authUserPass := b)
  }

  function BlobOf(o: Ovpn, b: Blob): string {
    match b
    case Ca => o.caCert
    case TlsAuth => o.tlsAuth
    case Cert => o.cert
    case Key => o.key
  }

  function WithBlob(o: Ovpn, b: Blob, s: string): Ovpn {
    match b
    case Ca => o.(caCert := s)
    case TlsAuth => o.(tlsAuth := s)
    case Cert => o.(cert := s)
    case Key => o.(key := s)
  }

  /** The record with its four blobs cleared: everything block capture does not write. */
  function WithoutBlobs(o: Ovpn): Ovpn {
    o.(caCert := "", tlsAuth := "", cert := "", key := "")
  }

  // Each writer changes its own field and nothing else.

  lemma WithStrFrame(o: Ovpn, g: StrField, s: string)
    ensures StrOf(WithStr(o, g, s), g) == s
    ensures forall f :: f != g ==> StrOf(WithStr(o, g, s), f) == StrOf(o, f)
    ensures forall f :: IntOf(WithStr(o, g, s), f) == IntOf(o, f)
    ensures forall f :: FlagOf(WithStr(o, g, s), f) == FlagOf(o, f)
    ensures forall b :: BlobOf(WithStr(o, g, s), b) == BlobOf(o, b)
    ensures WithStr(o, g, s).remotes == o.remotes
    ensures WithStr(o, g, s).devType == o.devType
    ensures WithStr(o, g, s).blockOutsideDns == o.blockOutsideDns
  {
    match g
    case EnvId =>
    case EnvName =>
    case Dev =>
    case Cipher =>
    case Auth =>
    case RemoteCertTls =>
    case Compress =>
  }
  lemma WithIntFrame(o: Ovpn, g: IntField, n: int)
    ensures IntOf(WithInt(o, g, n), g) == n
    ensures forall f :: f != g ==> IntOf(WithInt(o, g, n), f) == IntOf(o, f)
    ensures forall f :: StrOf(WithInt(o, g, n), f) == StrOf(o, f)
    ensures forall f :: FlagOf(WithInt(o, g, n), f) == FlagOf(o, f)
    ensures forall b :: BlobOf(WithInt(o, g, n), b) == BlobOf(o, b)
    ensures WithInt(o, g, n).remotes == o.remotes
    ensures WithInt(o, g, n).devType == o.devType
    ensures WithInt(o, g, n).blockOutsideDns == o.blockOutsideDns
  {
    match g
    case Verb =>
    case Mute =>
    case Ping =>
    case PingExit =>
    case HandWindow =>
    case ServerPollTimeout =>
    case RenegSec =>
    case SndBuf =>
    case RcvBuf =>
    case KeyDirection =>
  }
  lemma WithFlagFrame(o: Ovpn, g: FlagField, v: bool)
    ensures FlagOf(WithFlag(o, g, v), g) == v
    ensures forall f :: f != g ==> FlagOf(WithFlag(o, g, v), f) == FlagOf(o, f)
    ensures forall f :: StrOf(WithFlag(o, g, v), f) == StrOf(o, f)
    ensures forall f :: IntOf(WithFlag(o, g, v), f) == IntOf(o, f)
    ensures forall b :: BlobOf(WithFlag(o, g, v), b) == BlobOf(o, b)
    ensures WithFlag(o, g, v).remotes == o.remotes
    ensures WithFlag(o, g, v).devType == o.devType
    ensures WithFlag(o, g, v).blockOutsideDns == o.blockOutsideDns
  {
    match g
    case RemoteRandom =>
    case NoBind =>
    case PersistTun =>
    case PushPeerInfo =>
    case AuthUserPass =>
  }

  /** Writing a blob commutes with writing any other field. */
  lemma WithStrWithBlob(o: Ovpn, f: StrField, s: string, b: Blob, v: string)
    ensures WithStr(WithBlob(o, b, v), f, s) == WithBlob(WithStr(o, f, s), b, v)
  {
    match b
    case Ca => StrCommutesCa(o, f, s, v);
    case TlsAuth => StrCommutesTlsAuth(o, f, s, v);
    case Cert => StrCommutesCert(o, f, s, v);
    case Key => StrCommutesKey(o, f, s, v);
  }

  lemma StrCommutesCa(o: Ovpn, f: StrField, s: string, v: string)
    ensures WithStr(o.(caCert := v), f, s) == WithStr(o, f, s).(caCert := v)
  {
    match f
    case EnvId =>
    case EnvName =>
    case Dev =>
    case Cipher =>
    case Auth =>
    case RemoteCertTls =>
    case Compress =>
  }

  lemma StrCommutesTlsAuth(o: Ovpn, f: StrField, s: string, v: string)
    ensures WithStr(o.(tlsAuth := v), f, s) == WithStr(o, f, s).(tlsAuth := v)
  {
    match f
    case EnvId =>
    case EnvName =>
    case Dev =>
    case Cipher =>
    case Auth =>
    case RemoteCertTls =>
    case Compress =>
  }

  lemma StrCommutesCert(o: Ovpn, f: StrField, s: string, v: string)
    ensures WithStr(o.(cert := v), f, s) == WithStr(o, f, s).(cert := v)
  {
    match f
    case EnvId =>
    case EnvName =>
    case Dev =>
    case Cipher =>
    case Auth =>
    case RemoteCertTls =>
    case Compress =>
  }

  lemma StrCommutesKey(o: Ovpn, f: StrField, s: string, v: string)
    ensures WithStr(o.(key := v), f, s) == WithStr(o, f, s).(key := v)
  {
    match f
    case EnvId =>
    case EnvName =>
    case Dev =>
    case Cipher =>
    case Auth =>
    case RemoteCertTls =>
    case Compress =>
  }

  lemma WithIntWithBlob(o: Ovpn, f: IntField, n: int, b: Blob, v: string)
    ensures WithInt(WithBlob(o, b, v), f, n) == WithBlob(WithInt(o, f, n), b, v)
  {
  }

  lemma WithFlagWithBlob(o: Ovpn, f: FlagField, t: bool, b: Blob, v: string)
    ensures WithFlag(WithBlob(o, b, v), f, t) == WithBlob(WithFlag(o, f, t), b, v)
  {
    match b
    case Ca =>
    case TlsAuth =>
    case Cert =>
    case Key =>
  }

  /** A record is determined by its selectors, its remote list, `devType` and `blockOutsideDns`. */
  lemma Extensionality(a: Ovpn, b: Ovpn)
    requires forall f :: StrOf(a, f) == StrOf(b, f)
    requires forall f :: IntOf(a, f) == IntOf(b, f)
    requires forall f :: FlagOf(a, f) == FlagOf(b, f)
    requires forall x :: BlobOf(a, x) == BlobOf(b, x)
    requires a.remotes == b.remotes && a.devType == b.devType && a.blockOutsideDns == b.blockOutsideDns
    ensures a == b
  {
    assert StrOf(a, EnvId) == StrOf(b, EnvId) && StrOf(a, EnvName) == StrOf(b, EnvName);
    assert StrOf(a, Dev) == StrOf(b, Dev) && StrOf(a, Cipher) == StrOf(b, Cipher);
    assert StrOf(a, Auth) == StrOf(b, Auth) && StrOf(a, RemoteCertTls) == StrOf(b, RemoteCertTls);
    assert StrOf(a, Compress) == StrOf(b, Compress);
    assert IntOf(a, Verb) == IntOf(b, Verb) && IntOf(a, Mute) == IntOf(b, Mute);
    assert IntOf(a, Ping) == IntOf(b, Ping) && IntOf(a, PingExit) == IntOf(b, PingExit);
    assert IntOf(a, HandWindow) == IntOf(b, HandWindow);
    assert IntOf(a, ServerPollTimeout) == IntOf(b, ServerPollTimeout);
    assert IntOf(a, RenegSec) == IntOf(b, RenegSec) && IntOf(a, SndBuf) == IntOf(b, SndBuf);
    assert IntOf(a, RcvBuf) == IntOf(b, RcvBuf) && IntOf(a, KeyDirection) == IntOf(b, KeyDirection);
    assert FlagOf(a, RemoteRandom) == FlagOf(b, RemoteRandom) && FlagOf(a, NoBind) == FlagOf(b, NoBind);
    assert FlagOf(a, PersistTun) == FlagOf(b, PersistTun) && FlagOf(a, PushPeerInfo) == FlagOf(b, PushPeerInfo);
    assert FlagOf(a, AuthUserPass) == FlagOf(b, AuthUserPass);
    assert BlobOf(a, Ca) == BlobOf(b, Ca) && BlobOf(a, TlsAuth) == BlobOf(b, TlsAuth);
    assert BlobOf(a, Cert) == BlobOf(b, Cert) && BlobOf(a, Key) == BlobOf(b, Key);
  }
}
