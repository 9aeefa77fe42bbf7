/**
 * What `Import` does, field by field, stated against reference definitions
 * written directly from the cases of the source's switch, and what block
 * capture does. The central fact is that block capture affects only the
 * four blobs: every line except a consumed closing tag is dispatched, so
 * every other field is the result of dispatching all lines in order.
 */
module ImportProperties {
  import opened Wrappers
  import opened Strings
  import opened Decimal
  import opened OvpnTypes
  import opened OvpnImport

  // ---------------------------------------------------------------------
  // Reference definitions, one per kind of field, from the switch cases.
  // ---------------------------------------------------------------------

  /** The entry a `remote` line appends: four tokens, an integer port, a known protocol. */
  function RemoteOf(line: string): Option<Remote> {
    var t := Tokens(line);
    if Keyword(line) == "remote" && |t| == 4 && ParseInt(t[2]).Some? && Lower(t[3]) in Protocols
    then Some(Remote(t[1], ParseInt(t[2]).value, Lower(t[3])))
    else None
  }

  /** The entries of all accepted `remote` lines, in input order. */
  function RemotesOf(lines: seq<string>): seq<Remote> {
    if lines == [] then []
    else (if RemoteOf(lines[0]).Some? then [RemoteOf(lines[0]).value] else []) + RemotesOf(lines[1..])
  }

  lemma RemotesOfCons(lines: seq<string>)
    requires lines != [] && RemoteOf(lines[0]).Some?
    ensures RemotesOf(lines) == [RemoteOf(lines[0]).value] + RemotesOf(lines[1..])
  {
  }

  /** The keywords whose two-token integer lines write an integer field. */
  function IntKeywords(f: IntField): set<string> {
    match f
    case Verb => {"verb"}
    case Mute => {"mute"}
    case Ping => {"ping"}
    case PingExit => {"ping-restart", "ping-exit"}
    case HandWindow => {"hand-window"}
    case ServerPollTimeout => {"server-poll-timeout"}
    case RenegSec => {"reneg-sec"}
    case SndBuf => {"sndbuf"}
    case RcvBuf => {"rcvbuf"}
    case KeyDirection => {"key-direction"}
  }

  /** The value `line` writes into integer field `f`, if it writes one. */
  function IntAssignment(line: string, f: IntField): Option<int> {
    var t := Tokens(line);
    if Keyword(line) in IntKeywords(f) && |t| == 2 && ParseInt(t[1]).Some? then ParseInt(t[1]) else None
  }

  /** The value `line` writes into string field `f`, if it writes one. */
  function StrAssignment(line: string, f: StrField): Option<string> {
    var t := Tokens(line);
    var key := Keyword(line);
    match f
    case EnvId =>
      if key == "setenv" && |t| == 3 && Lower(t[1]) == "uv_id" then Some(t[2]) else None
    case EnvName =>
      if key == "setenv" && |t| == 3 && Lower(t[1]) == "uv_name" then Some(t[2]) else None
    case Dev =>
      if (key == "dev" || key == "dev-type") && |t| >= 2 && Lower(t[1]) in {"tun", "tap"}
      then Some(Lower(t[1])) else None
    case Cipher =>
      if key == "cipher" && |t| == 2 then Some(t[1]) else None
    case Auth =>
      if key == "auth" && |t| == 2 then Some(t[1]) else None
    case RemoteCertTls =>
      if key == "remote-cert-tls" && |t| == 2 && Lower(t[1]) == "server" then Some("server") else None
    case Compress =>
      if key == "comp-lzo" && |t| == 2 && Lower(t[1]) == "on" then Some("lzo")
      else if key == "compress" && |t| == 2 && Lower(t[1]) in {"lzo", "lz4"} then Some(Lower(t[1]))
      else None
  }

  /** The presence-only keyword of a boolean field. */
  function FlagKeyword(f: FlagField): string {
    match f
    case RemoteRandom => "remote-random"
    case NoBind => "nobind"
    case PersistTun => "persist-tun"
    case PushPeerInfo => "push-peer-info"
    case AuthUserPass => "auth-user-pass"
  }

  /** A `dev` or `dev-type` line with no argument: the source indexes past its tokens. */
  predicate IsBareDevice(line: string) {
    (Keyword(line) == "dev" || Keyword(line) == "dev-type") && |Tokens(line)| == 1
  }

  /** The value of the last line that writes integer field `f`. */
  function LastInt(lines: seq<string>, f: IntField): Option<int> {
    if lines == [] then None
    else if LastInt(lines[1..], f).Some? then LastInt(lines[1..], f)
    else IntAssignment(lines[0], f)
  }

  /** The value of the last line that writes string field `f`. */
  function LastStr(lines: seq<string>, f: StrField): Option<string> {
    if lines == [] then None
    else if LastStr(lines[1..], f).Some? then LastStr(lines[1..], f)
    else StrAssignment(lines[0], f)
  }

  /** Some line is the presence-only directive of `f`. */
  predicate Mentions(lines: seq<string>, f: FlagField) {
    exists i :: 0 <= i < |lines| && Keyword(lines[i]) == FlagKeyword(f)
  }

  // ---------------------------------------------------------------------
  // The directive table agrees with the reference definitions.
  // ---------------------------------------------------------------------

  /** The directive table implements the switch cases: one lemma per kind of field. */
  lemma IntEffect(line: string, f: IntField)
    ensures IntAssignment(line, f).Some? <==> (EffectOf(line).AssignInt? && EffectOf(line).intField == f)
    ensures IntAssignment(line, f).Some? ==> EffectOf(line).number == IntAssignment(line, f).value
  {
    var key := Keyword(line);
    IntKeys(key, f);
    if key in Directives {
      IntKind(Directives[key], Tokens(line), f);
    }
  }

  /** Only an integer case assigns an integer field, and only from a two-token line with a number. */
  lemma IntKind(kind: Kind, tokens: seq<string>, f: IntField)
    requires |tokens| >= 1
    ensures var e := KindEffect(kind, tokens);
            (e.AssignInt? && e.intField == f) <==> (kind == Integer(f) && |tokens| == 2 && ParseInt(tokens[1]).Some?)
    ensures kind == Integer(f) && |tokens| == 2 && ParseInt(tokens[1]).Some? ==>
              KindEffect(kind, tokens).number == ParseInt(tokens[1]).value
  {
    match kind
    case OpenTag(_) =>
    case Setenv =>
    case Device =>
    case RemoteEntry =>
    case Presence(_) =>
    case Verbatim(_) =>
    case Integer(_) =>
    case Choice(_, _) =>
  }

  /** The keywords the table maps to the integer case of `f`. */
  lemma IntKeys(key: string, f: IntField)
    ensures (key in Directives && Directives[key] == Integer(f)) <==> key in IntKeywords(f)
  {
    match f
    case Verb =>
    case Mute =>
    case Ping =>
    case PingExit =>
    case HandWindow =>
    case ServerPollTimeout =>
    case RenegSec =>
    case SndBuf =>
    case RcvBuf =>
    case KeyDirection =>
  }

  lemma StrEffect(line: string, f: StrField)
    ensures StrAssignment(line, f).Some? <==> (EffectOf(line).AssignStr? && EffectOf(line).field == f)
    ensures StrAssignment(line, f).Some? ==> EffectOf(line).text == StrAssignment(line, f).value
  {
    match f
    case EnvId => StrEffectEnvId(line);
    case EnvName => StrEffectEnvName(line);
    case Dev => StrEffectDev(line);
    case Cipher => StrEffectCipher(line);
    case Auth => StrEffectAuth(line);
    case RemoteCertTls => StrEffectRemoteCertTls(line);
    case Compress => StrEffectCompress(line);
  }

  lemma StrEffectEnvId(line: string)
    ensures StrAssignment(line, EnvId).Some? <==> (EffectOf(line).AssignStr? && EffectOf(line).field == EnvId)
    ensures StrAssignment(line, EnvId).Some? ==> EffectOf(line).text == StrAssignment(line, EnvId).value
  {
    var key := Keyword(line);
    if key in Directives {
      match Directives[key]
      case Choice(g, accepted) =>
        assert key in {"remote-cert-tls", "comp-lzo", "compress"};
      case _ =>
    }
  }

  lemma StrEffectEnvName(line: string)
    ensures StrAssignment(line, EnvName).Some? <==> (EffectOf(line).AssignStr? && EffectOf(line).field == EnvName)
    ensures StrAssignment(line, EnvName).Some? ==> EffectOf(line).text == StrAssignment(line, EnvName).value
  {
    var key := Keyword(line);
    if key in Directives {
      match Directives[key]
      case Choice(g, accepted) =>
        assert key in {"remote-cert-tls", "comp-lzo", "compress"};
      case _ =>
    }
  }

  lemma StrEffectDev(line: string)
    ensures StrAssignment(line, Dev).Some? <==> (EffectOf(line).AssignStr? && EffectOf(line).field == Dev)
    ensures StrAssignment(line, Dev).Some? ==> EffectOf(line).text == StrAssignment(line, Dev).value
  {
    var key := Keyword(line);
    if key in Directives {
      match Directives[key]
      case Choice(g, accepted) =>
        assert key in {"remote-cert-tls", "comp-lzo", "compress"};
      case _ =>
    }
  }

  lemma StrEffectCipher(line: string)
    ensures StrAssignment(line, Cipher).Some? <==> (EffectOf(line).AssignStr? && EffectOf(line).field == Cipher)
    ensures StrAssignment(line, Cipher).Some? ==> EffectOf(line).text == StrAssignment(line, Cipher).value
  {
    var key := Keyword(line);
    if key in Directives {
      match Directives[key]
      case Choice(g, accepted) =>
        assert key in {"remote-cert-tls", "comp-lzo", "compress"};
      case _ =>
    }
  }

  lemma StrEffectAuth(line: string)
    ensures StrAssignment(line, Auth).Some? <==> (EffectOf(line).AssignStr? && EffectOf(line).field == Auth)
    ensures StrAssignment(line, Auth).Some? ==> EffectOf(line).text == StrAssignment(line, Auth).value
  {
    var key := Keyword(line);
    if key in Directives {
      match Directives[key]
      case Choice(g, accepted) =>
        assert key in {"remote-cert-tls", "comp-lzo", "compress"};
      case _ =>
    }
  }

  lemma StrEffectRemoteCertTls(line: string)
    ensures StrAssignment(line, RemoteCertTls).Some? <==> (EffectOf(line).AssignStr? && EffectOf(line).field == RemoteCertTls)
    ensures StrAssignment(line, RemoteCertTls).Some? ==> EffectOf(line).text == StrAssignment(line, RemoteCertTls).value
  {
    var key := Keyword(line);
    if key in Directives {
      match Directives[key]
      case Choice(g, accepted) =>
        assert key in {"remote-cert-tls", "comp-lzo", "compress"};
      case _ =>
    }
  }

  lemma StrEffectCompress(line: string)
    ensures StrAssignment(line, Compress).Some? <==> (EffectOf(line).AssignStr? && EffectOf(line).field == Compress)
    ensures StrAssignment(line, Compress).Some? ==> EffectOf(line).text == StrAssignment(line, Compress).value
  {
    var key := Keyword(line);
    if key in Directives {
      match Directives[key]
      case Choice(g, accepted) =>
        assert key in {"remote-cert-tls", "comp-lzo", "compress"};
      case _ =>
    }
  }

  lemma FlagEffect(line: string, f: FlagField)
    ensures EffectOf(line) == RaiseFlag(f) <==> Keyword(line) == FlagKeyword(f)
  {
    var key := Keyword(line);
    FlagKeys(key, f);
    if key in Directives {
      FlagKind(Directives[key], Tokens(line), f);
    }
  }

  /** Only a presence case raises a flag, whatever the tokens. */
  lemma FlagKind(kind: Kind, tokens: seq<string>, f: FlagField)
    requires |tokens| >= 1
    ensures KindEffect(kind, tokens) == RaiseFlag(f) <==> kind == Presence(f)
  {
    match kind
    case OpenTag(_) =>
    case Setenv =>
    case Device =>
    case RemoteEntry =>
    case Presence(_) =>
    case Verbatim(_) =>
    case Integer(_) =>
    case Choice(_, _) =>
  }

  /** The one keyword the table maps to the presence case of `f`. */
  lemma FlagKeys(key: string, f: FlagField)
    ensures (key in Directives && Directives[key] == Presence(f)) <==> key == FlagKeyword(f)
  {
    match f
    case RemoteRandom =>
    case NoBind =>
    case PersistTun =>
    case PushPeerInfo =>
    case AuthUserPass =>
  }

  lemma RemoteEffect(line: string)
    ensures RemoteOf(line).Some? <==> EffectOf(line).AppendRemote?
    ensures RemoteOf(line).Some? ==> EffectOf(line).remote == RemoteOf(line).value
  {
  }

  lemma PanicEffect(line: string)
    ensures EffectOf(line) == IndexPanic <==> IsBareDevice(line)
  {
  }

  /** The effects of `lines` applied in order, ignoring block capture; the first panic ends it. */
  function Dispatched(o: Ovpn, lines: seq<string>): Outcome<Ovpn>
    decreases |lines|
  {
    if lines == [] then Ok(o)
    else if EffectOf(lines[0]) == IndexPanic then IndexOutOfRange(lines[0])
    else Dispatched(Apply(o, EffectOf(lines[0])), lines[1..])
  }

  // ---------------------------------------------------------------------
  // Lines the switch drops.
  // ---------------------------------------------------------------------

  /**
   * An unknown keyword, a `setenv` without three tokens or with another
   * variable, and a `remote-cert-tls`, `comp-lzo` or `compress` line whose
   * value is not accepted are dropped: the reader, flags and record
   * included, is left as it was.
   */
  lemma DroppedLines(r: Reader, line: string)
    ensures Keyword(line) !in Directives ==> Dispatch(r, line) == Ok(r)
    ensures Keyword(line) == "setenv" && (|Tokens(line)| != 3 || Lower(Tokens(line)[1]) !in {"uv_id", "uv_name"})
            ==> Dispatch(r, line) == Ok(r)
    ensures Keyword(line) == "remote-cert-tls" && (|Tokens(line)| != 2 || Lower(Tokens(line)[1]) != "server")
            ==> Dispatch(r, line) == Ok(r)
    ensures Keyword(line) == "comp-lzo" && (|Tokens(line)| != 2 || Lower(Tokens(line)[1]) != "on")
            ==> Dispatch(r, line) == Ok(r)
    ensures Keyword(line) == "compress" && (|Tokens(line)| != 2 || Lower(Tokens(line)[1]) !in {"lzo", "lz4"})
            ==> Dispatch(r, line) == Ok(r)
  {
    var key := Keyword(line);
    var t := Tokens(line);
    if key == "setenv" && (|t| != 3 || Lower(t[1]) !in {"uv_id", "uv_name"}) {
      DroppedSetenv(line);
    } else if key == "remote-cert-tls" && (|t| != 2 || Lower(t[1]) != "server") {
      DroppedRemoteCertTls(line);
    } else if key == "comp-lzo" && (|t| != 2 || Lower(t[1]) != "on") {
      DroppedCompLzo(line);
    } else if key == "compress" && (|t| != 2 || Lower(t[1]) !in {"lzo", "lz4"}) {
      DroppedCompress(line);
    }
    InertKeeps(r, line);
  }

  lemma InertKeeps(r: Reader, line: string)
    ensures EffectOf(line) == Inert ==> Dispatch(r, line) == Ok(r)
  {
  }

  lemma DroppedSetenv(line: string)
    requires Keyword(line) == "setenv" && (|Tokens(line)| != 3 || Lower(Tokens(line)[1]) !in {"uv_id", "uv_name"})
    ensures EffectOf(line) == Inert
  {
    var k := "setenv";
    assert k in Directives && Directives[k] == Setenv;
  }

  lemma DroppedRemoteCertTls(line: string)
    requires Keyword(line) == "remote-cert-tls" && (|Tokens(line)| != 2 || Lower(Tokens(line)[1]) != "server")
    ensures EffectOf(line) == Inert
  {
    var k := "remote-cert-tls";
    assert k in Directives && Directives[k] == Choice(RemoteCertTls, map["server" := "server"]);
  }

  lemma DroppedCompLzo(line: string)
    requires Keyword(line) == "comp-lzo" && (|Tokens(line)| != 2 || Lower(Tokens(line)[1]) != "on")
    ensures EffectOf(line) == Inert
  {
    var k := "comp-lzo";
    assert k in Directives && Directives[k] == Choice(Compress, map["on" := "lzo"]);
  }

  lemma DroppedCompress(line: string)
    requires Keyword(line) == "compress" && (|Tokens(line)| != 2 || Lower(Tokens(line)[1]) !in {"lzo", "lz4"})
    ensures EffectOf(line) == Inert
  {
    var k := "compress";
    assert k in Directives && Directives[k] == Choice(Compress, map["lzo" := "lzo", "lz4" := "lz4"]);
  }

  // ---------------------------------------------------------------------
  // What one effect does to the record.
  // ---------------------------------------------------------------------

  lemma ApplyRemotes(o: Ovpn, e: Effect)
    ensures Apply(o, e).remotes == o.remotes + (if e.AppendRemote? then [e.remote] else [])
  {
    assert o.remotes + [] == o.remotes;
    match e
    case AssignStr(f, s) => WithStrFrame(o, f, s);
    case AssignInt(f, n) => WithIntFrame(o, f, n);
    case RaiseFlag(f) => WithFlagFrame(o, f, true);
    case AppendRemote(r) =>
    case _ =>
  }

  lemma ApplyFrame(o: Ovpn, e: Effect)
    ensures forall f :: IntOf(Apply(o, e), f) == if e.AssignInt? && e.intField == f then e.number else IntOf(o, f)
    ensures forall f :: StrOf(Apply(o, e), f) == if e.AssignStr? && e.field == f then e.text else StrOf(o, f)
    ensures forall f :: FlagOf(Apply(o, e), f) <==> FlagOf(o, f) || e == RaiseFlag(f)
    ensures forall b :: BlobOf(Apply(o, e), b) == BlobOf(o, b)
    ensures Apply(o, e).devType == o.devType
    ensures Apply(o, e).blockOutsideDns == o.blockOutsideDns
  {
    match e
    case AssignStr(g, s) => WithStrFrame(o, g, s);
    case AssignInt(g, n) => WithIntFrame(o, g, n);
    case RaiseFlag(g) => WithFlagFrame(o, g, true);
    case AppendRemote(r) =>
    case _ =>
  }

  /** Writing a blob commutes with every effect. */
  lemma ApplyWithBlob(o: Ovpn, e: Effect, b: Blob, v: string)
    ensures Apply(WithBlob(o, b, v), e) == WithBlob(Apply(o, e), b, v)
  {
    match e
    case AssignStr(f, s) => WithStrWithBlob(o, f, s, b, v);
    case AssignInt(f, n) => WithIntWithBlob(o, f, n, b, v);
    case RaiseFlag(f) => WithFlagWithBlob(o, f, true, b, v);
    case AppendRemote(r) =>
    case _ =>
  }

  lemma WithoutBlobsOfWithBlob(o: Ovpn, b: Blob, v: string)
    ensures WithoutBlobs(WithBlob(o, b, v)) == WithoutBlobs(o)
  {
  }

  // ---------------------------------------------------------------------
  // Dispatching every line in order, without block capture.
  // ---------------------------------------------------------------------

  lemma {:induction false} DispatchedRemotes(o: Ovpn, lines: seq<string>)
    ensures Dispatched(o, lines).Ok? ==> Dispatched(o, lines).value.remotes == o.remotes + RemotesOf(lines)
    decreases |lines|
  {
    if lines != [] {
      var e := EffectOf(lines[0]);
      if e != IndexPanic {
        RemoteEffect(lines[0]);
        ApplyRemotes(o, e);
        DispatchedRemotes(Apply(o, e), lines[1..]);
      }
    }
  }

  lemma {:induction false} DispatchedInt(o: Ovpn, lines: seq<string>, f: IntField)
    ensures Dispatched(o, lines).Ok? ==>
              IntOf(Dispatched(o, lines).value, f) == LastInt(lines, f).GetOr(IntOf(o, f))
    decreases |lines|
  {
    if lines != [] {
      var e := EffectOf(lines[0]);
      if e != IndexPanic {
        IntEffect(lines[0], f);
        ApplyFrame(o, e);
        DispatchedInt(Apply(o, e), lines[1..], f);
      }
    }
  }

  lemma {:induction false} DispatchedStr(o: Ovpn, lines: seq<string>, f: StrField)
    ensures Dispatched(o, lines).Ok? ==>
              StrOf(Dispatched(o, lines).value, f) == LastStr(lines, f).GetOr(StrOf(o, f))
    decreases |lines|
  {
    if lines != [] {
      var e := EffectOf(lines[0]);
      if e != IndexPanic {
        StrEffect(lines[0], f);
        ApplyFrame(o, e);
        DispatchedStr(Apply(o, e), lines[1..], f);
      }
    }
  }

  lemma {:induction false} DispatchedFlag(o: Ovpn, lines: seq<string>, f: FlagField)
    ensures Dispatched(o, lines).Ok? ==>
              (FlagOf(Dispatched(o, lines).value, f) <==> FlagOf(o, f) || Mentions(lines, f))
    decreases |lines|
  {
    if lines != [] {
      var e := EffectOf(lines[0]);
      if e != IndexPanic {
        FlagEffect(lines[0], f);
        ApplyFrame(o, e);
        DispatchedFlag(Apply(o, e), lines[1..], f);
        MentionsCons(lines, f);
      }
    }
  }
  /** A keyword is mentioned by the first line or by the rest. */
  lemma MentionsCons(lines: seq<string>, f: FlagField)
    requires lines != []
    ensures Mentions(lines, f) <==> Keyword(lines[0]) == FlagKeyword(f) || Mentions(lines[1..], f)
  {
    if Mentions(lines[1..], f) {
      var i :| 0 <= i < |lines[1..]| && Keyword(lines[1..][i]) == FlagKeyword(f);
      assert Keyword(lines[i + 1]) == FlagKeyword(f);
    }
    if Mentions(lines, f) && Keyword(lines[0]) != FlagKeyword(f) {
      var i :| 0 <= i < |lines| && Keyword(lines[i]) == FlagKeyword(f);
      assert Keyword(lines[1..][i - 1]) == FlagKeyword(f);
    }
  }


  lemma {:induction false} DispatchedKeeps(o: Ovpn, lines: seq<string>)
    ensures Dispatched(o, lines).Ok? ==>
              && Dispatched(o, lines).value.devType == o.devType
              && Dispatched(o, lines).value.blockOutsideDns == o.blockOutsideDns
              && (forall b :: BlobOf(Dispatched(o, lines).value, b) == BlobOf(o, b))
    decreases |lines|
  {
    if lines != [] {
      var e := EffectOf(lines[0]);
      if e != IndexPanic {
        ApplyFrame(o, e);
        DispatchedKeeps(Apply(o, e), lines[1..]);
      }
    }
  }

  /** Dispatching fails exactly when some line is a bare `dev`/`dev-type`, and on such a line. */
  lemma {:induction false} DispatchedPanics(o: Ovpn, lines: seq<string>)
    ensures Dispatched(o, lines).IndexOutOfRange? <==> exists i :: 0 <= i < |lines| && IsBareDevice(lines[i])
    ensures Dispatched(o, lines).IndexOutOfRange? ==>
              Dispatched(o, lines).line in lines && IsBareDevice(Dispatched(o, lines).line)
    decreases |lines|
  {
    if lines != [] {
      var e := EffectOf(lines[0]);
      PanicEffect(lines[0]);
      if e != IndexPanic {
        DispatchedPanics(Apply(o, e), lines[1..]);
        if exists i :: 0 <= i < |lines| && IsBareDevice(lines[i]) {
          var i :| 0 <= i < |lines| && IsBareDevice(lines[i]);
          assert IsBareDevice(lines[1..][i - 1]);
        }
        if exists i :: 0 <= i < |lines[1..]| && IsBareDevice(lines[1..][i]) {
          var i :| 0 <= i < |lines[1..]| && IsBareDevice(lines[1..][i]);
          assert IsBareDevice(lines[i + 1]);
        }
      } else {
        assert IsBareDevice(lines[0]);
      }
    }
  }

  /** Dispatching never reads a blob, so writing one first or last gives the same record. */
  lemma {:induction false} DispatchedWithBlob(o: Ovpn, b: Blob, v: string, lines: seq<string>)
    ensures Dispatched(WithBlob(o, b, v), lines).Ok? <==> Dispatched(o, lines).Ok?
    ensures Dispatched(o, lines).Ok? ==>
              Dispatched(WithBlob(o, b, v), lines).value == WithBlob(Dispatched(o, lines).value, b, v)
    ensures !Dispatched(o, lines).Ok? ==>
              Dispatched(WithBlob(o, b, v), lines).line == Dispatched(o, lines).line
    decreases |lines|
  {
    if lines != [] {
      var e := EffectOf(lines[0]);
      if e != IndexPanic {
        ApplyWithBlob(o, e, b, v);
        DispatchedWithBlob(Apply(o, e), b, v, lines[1..]);
      }
    }
  }

  // ---------------------------------------------------------------------
  // Block capture touches only the blobs.
  // ---------------------------------------------------------------------

  /** A closing tag, when it is not consumed, is an unknown keyword. */
  lemma ClosingTagIsInert(b: Blob)
    ensures EffectOf(ClosingTag(b)) == Inert
  {
    var tag := ClosingTag(b);
    match b {
      case Ca => assert tag !in Directives;
      case TlsAuth => assert tag !in Directives;
      case Cert => assert tag !in Directives;
      case Key => assert tag !in Directives;
    }
    UnknownWord(tag);
  }

  /** A single lower-case token that is not in the table does nothing. */
  lemma UnknownWord(line: string)
    requires line != [] && forall i :: 0 <= i < |line| ==> line[i] != ' ' && !('A' <= line[i] <= 'Z')
    requires line !in Directives
    ensures EffectOf(line) == Inert
  {
    BareWord(line);
  }

  /**
   * A run and a dispatch agree: both succeed and have the same fields
   * apart from the blobs, or both fail on the same line.
   */
  predicate Agree(x: Outcome<Reader>, y: Outcome<Ovpn>) {
    match x
    case Ok(r) => y.Ok? && WithoutBlobs(r.o) == WithoutBlobs(y.value)
    case IndexOutOfRange(l) => y == IndexOutOfRange(l)
  }

  /**
   * Whatever blocks are open at the start, running the parser and
   * dispatching every line agree on success, on the failing line and on
   * every field except the four blobs.
   */
  lemma {:induction false} RunMatchesDispatched(r: Reader, lines: seq<string>)
    ensures Agree(Run(r, lines), Dispatched(r.o, lines))
    decreases |lines|, 2
  {
    if lines != [] {
      var line, rest := lines[0], lines[1..];
      assert Run(r, lines) == Resume(Step(r, line), rest);
      var e := EffectOf(line);
      if e != IndexPanic {
        assert Dispatched(r.o, lines) == Dispatched(Apply(r.o, e), rest);
        match ActiveBlob(r)
        case None =>
          DispatchStepMatches(r, line, rest);
        case Some(b) =>
          if line == ClosingTag(b) {
            ClosingTagIsInert(b);
            RunMatchesDispatched(WithBlockFlag(r, b, false), rest);
          } else {
            CaptureStepMatches(r, b, line, rest);
          }
      } else if ActiveBlob(r).Some? && line == ClosingTag(ActiveBlob(r).value) {
        ClosingTagIsInert(ActiveBlob(r).value);
      }
    }
  }

  /** The induction step of `RunMatchesDispatched` for a line captured into blob `b`. */
  lemma {:induction false} CaptureStepMatches(r: Reader, b: Blob, line: string, rest: seq<string>)
    requires EffectOf(line) != IndexPanic
    ensures Agree(Resume(Dispatch(r.(o := WithBlob(r.o, b, BlobOf(r.o, b) + line + "\n")), line), rest),
                  Dispatched(Apply(r.o, EffectOf(line)), rest))
    decreases |rest| + 1, 1
  {
    var e := EffectOf(line);
    var v := BlobOf(r.o, b) + line + "\n";
    var r1 := r.(o := WithBlob(r.o, b, v));
    DispatchStepMatches(r1, line, rest);
    ApplyWithBlob(r.o, e, b, v);
    DispatchedWithBlob(Apply(r.o, e), b, v, rest);
    if Dispatched(Apply(r.o, e), rest).Ok? {
      WithoutBlobsOfWithBlob(Dispatched(Apply(r.o, e), rest).value, b, v);
    }
  }

  /** The induction step of `RunMatchesDispatched` for a dispatched line that does not panic. */
  lemma {:induction false} DispatchStepMatches(r: Reader, line: string, rest: seq<string>)
    requires EffectOf(line) != IndexPanic
    ensures Agree(Resume(Dispatch(r, line), rest), Dispatched(Apply(r.o, EffectOf(line)), rest))
    decreases |rest| + 1, 0
  {
    var next := DispatchSucceeds(r, line);
    RunMatchesDispatched(next, rest);
  }

  /** A line that does not panic leads to a reader whose record is the line's effect applied. */
  lemma DispatchSucceeds(r: Reader, line: string) returns (next: Reader)
    requires EffectOf(line) != IndexPanic
    ensures Dispatch(r, line) == Ok(next) && next.o == Apply(r.o, EffectOf(line))
  {
    var e := EffectOf(line);
    match e
    case OpenBlock(b) =>
      next := WithBlockFlag(r, b, true);
      assert next.o == r.o by {
        match b
        case Ca =>
        case TlsAuth =>
        case Cert =>
        case Key =>
      }
    case Inert => next := r.(o := Apply(r.o, e));
    case AssignStr(_, _) => next := r.(o := Apply(r.o, e));
    case AssignInt(_, _) => next := r.(o := Apply(r.o, e));
    case RaiseFlag(_) => next := r.(o := Apply(r.o, e));
    case AppendRemote(_) => next := r.(o := Apply(r.o, e));
  }


  /** Clearing the blobs keeps every other field. */
  lemma WithoutBlobsKeeps(o: Ovpn)
    ensures forall f :: IntOf(WithoutBlobs(o), f) == IntOf(o, f)
    ensures forall f :: StrOf(WithoutBlobs(o), f) == StrOf(o, f)
    ensures forall f :: FlagOf(WithoutBlobs(o), f) == FlagOf(o, f)
    ensures WithoutBlobs(o).remotes == o.remotes
    ensures WithoutBlobs(o).devType == o.devType
    ensures WithoutBlobs(o).blockOutsideDns == o.blockOutsideDns
  {
  }

  /** The defaulting writes only `dev` and `devType`. */
  lemma DefaultsKeeps(o: Ovpn)
    ensures forall f :: IntOf(Defaults(o), f) == IntOf(o, f)
    ensures forall f :: f != Dev ==> StrOf(Defaults(o), f) == StrOf(o, f)
    ensures forall f :: FlagOf(Defaults(o), f) == FlagOf(o, f)
    ensures forall b :: BlobOf(Defaults(o), b) == BlobOf(o, b)
    ensures Defaults(o).remotes == o.remotes
    ensures Defaults(o).blockOutsideDns == o.blockOutsideDns
  {
    var d := Defaults(o);
    assert d == o.(dev := d.dev, devType := d.devType);
  }

  // ---------------------------------------------------------------------
  // What `Import` returns, field by field.
  // ---------------------------------------------------------------------

  /** `Import` without its blobs is the defaulted result of dispatching every line. */
  lemma ImportMatchesDispatched(data: string, filter: LineFilter)
    ensures ImportSpec(data, filter).Ok? <==> Dispatched(Empty, Lines(data, filter)).Ok?
    ensures ImportSpec(data, filter).Ok? ==>
              WithoutBlobs(ImportSpec(data, filter).value)
              == WithoutBlobs(Defaults(Dispatched(Empty, Lines(data, filter)).value))
    ensures !ImportSpec(data, filter).Ok? ==>
              ImportSpec(data, filter).line == Dispatched(Empty, Lines(data, filter)).line
  {
    var lines := Lines(data, filter);
    RunMatchesDispatched(Start, lines);
    if Run(Start, lines).Ok? {
      var o := Run(Start, lines).value.o;
      var d := Dispatched(Empty, lines).value;
      assert WithoutBlobs(Defaults(o)) == WithoutBlobs(Defaults(d)) by {
        assert WithoutBlobs(o) == WithoutBlobs(d);
        assert o.dev == WithoutBlobs(o).dev && d.dev == WithoutBlobs(d).dev;
        assert o.devType == WithoutBlobs(o).devType && d.devType == WithoutBlobs(d).devType;
      }
    }
  }

  /**
   * The import fails exactly when some line is a `dev` or `dev-type` with
   * no argument, and then names such a line.
   */
  lemma ImportFails(data: string, filter: LineFilter)
    ensures var lines := Lines(data, filter);
            ImportSpec(data, filter).IndexOutOfRange? <==> exists i :: 0 <= i < |lines| && IsBareDevice(lines[i])
    ensures ImportSpec(data, filter).IndexOutOfRange? ==>
              ImportSpec(data, filter).line in Lines(data, filter) && IsBareDevice(ImportSpec(data, filter).line)
  {
    ImportMatchesDispatched(data, filter);
    DispatchedPanics(Empty, Lines(data, filter));
  }

  /** The remotes are those of the accepted `remote` lines, in input order. */
  lemma ImportedRemotes(data: string, filter: LineFilter)
    ensures ImportSpec(data, filter).Ok? ==> ImportSpec(data, filter).value.remotes == RemotesOf(Lines(data, filter))
  {
    var lines := Lines(data, filter);
    ImportMatchesDispatched(data, filter);
    DispatchedRemotes(Empty, lines);
    if ImportSpec(data, filter).Ok? {
      var d := Dispatched(Empty, lines).value;
      WithoutBlobsKeeps(ImportSpec(data, filter).value);
      WithoutBlobsKeeps(Defaults(d));
      DefaultsKeeps(d);
    }
  }

  /** An integer field holds the value of its last well-formed line, or 0. */
  lemma ImportedInteger(data: string, filter: LineFilter, f: IntField)
    ensures ImportSpec(data, filter).Ok? ==>
              IntOf(ImportSpec(data, filter).value, f) == LastInt(Lines(data, filter), f).GetOr(0)
  {
    var lines := Lines(data, filter);
    ImportMatchesDispatched(data, filter);
    DispatchedInt(Empty, lines, f);
    if ImportSpec(data, filter).Ok? {
      var d := Dispatched(Empty, lines).value;
      WithoutBlobsKeeps(ImportSpec(data, filter).value);
      WithoutBlobsKeeps(Defaults(d));
      DefaultsKeeps(d);
    }
  }

  /** A string field other than `dev` holds the value of its last accepted line, or "". */
  lemma ImportedString(data: string, filter: LineFilter, f: StrField)
    requires f != Dev
    ensures ImportSpec(data, filter).Ok? ==>
              StrOf(ImportSpec(data, filter).value, f) == LastStr(Lines(data, filter), f).GetOr("")
  {
    var lines := Lines(data, filter);
    ImportMatchesDispatched(data, filter);
    DispatchedStr(Empty, lines, f);
    if ImportSpec(data, filter).Ok? {
      var d := Dispatched(Empty, lines).value;
      WithoutBlobsKeeps(ImportSpec(data, filter).value);
      WithoutBlobsKeeps(Defaults(d));
      DefaultsKeeps(d);
    }
  }

  /** A boolean field is set exactly when its keyword starts some line. */
  lemma ImportedFlag(data: string, filter: LineFilter, f: FlagField)
    ensures ImportSpec(data, filter).Ok? ==>
              (FlagOf(ImportSpec(data, filter).value, f) <==> Mentions(Lines(data, filter), f))
  {
    var lines := Lines(data, filter);
    ImportMatchesDispatched(data, filter);
    DispatchedFlag(Empty, lines, f);
    if ImportSpec(data, filter).Ok? {
      var d := Dispatched(Empty, lines).value;
      WithoutBlobsKeeps(ImportSpec(data, filter).value);
      WithoutBlobsKeeps(Defaults(d));
      DefaultsKeeps(d);
    }
  }

  /**
   * `dev` is the last `tun`/`tap` of a `dev` or `dev-type` line, "tun" when
   * there is none; `devType` is always "tun" and `blockOutsideDns` false,
   * since no directive writes them.
   */
  lemma ImportedDevice(data: string, filter: LineFilter)
    ensures ImportSpec(data, filter).Ok? ==>
              && ImportSpec(data, filter).value.dev == LastStr(Lines(data, filter), Dev).GetOr("tun")
              && ImportSpec(data, filter).value.dev in {"tun", "tap"}
              && ImportSpec(data, filter).value.devType == "tun"
              && !ImportSpec(data, filter).value.blockOutsideDns
  {
    var lines := Lines(data, filter);
    ImportMatchesDispatched(data, filter);
    DispatchedStr(Empty, lines, Dev);
    DispatchedKeeps(Empty, lines);
    LastDevice(lines);
    if ImportSpec(data, filter).Ok? {
      var d := Dispatched(Empty, lines).value;
      WithoutBlobsKeeps(ImportSpec(data, filter).value);
      WithoutBlobsKeeps(Defaults(d));
      DefaultsKeeps(d);
      assert ImportSpec(data, filter).value.dev == WithoutBlobs(ImportSpec(data, filter).value).dev;
      assert Defaults(d).dev == WithoutBlobs(Defaults(d)).dev;
    }
  }

  /** A device line only ever names "tun" or "tap". */
  lemma {:induction false} LastDevice(lines: seq<string>)
    ensures LastStr(lines, Dev).Some? ==> LastStr(lines, Dev).value in {"tun", "tap"}
  {
    if lines != [] {
      LastDevice(lines[1..]);
    }
  }

  // ---------------------------------------------------------------------
  // What block capture stores.
  // ---------------------------------------------------------------------

  /** Lines that, inside block `b`, are captured and dispatched without opening or failing. */
  predicate PlainBody(b: Blob, body: seq<string>) {
    forall i :: 0 <= i < |body| ==>
      body[i] != ClosingTag(b) && !EffectOf(body[i]).OpenBlock? && EffectOf(body[i]) != IndexPanic
  }

  lemma WithBlobTwice(o: Ovpn, b: Blob, v: string, w: string)
    ensures WithBlob(WithBlob(o, b, v), b, w) == WithBlob(o, b, w)
    ensures BlobOf(WithBlob(o, b, v), b) == v
  {
    match b
    case Ca =>
    case TlsAuth =>
    case Cert =>
    case Key =>
  }

  lemma WithOwnBlob(o: Ovpn, b: Blob)
    ensures WithBlob(o, b, BlobOf(o, b)) == o
  {
    match b
    case Ca =>
    case TlsAuth =>
    case Cert =>
    case Key =>
  }

  /**
   * One captured line: appended to the blob, then dispatched. An opening tag
   * raises its own flag beside the active one, a bare `dev` or `dev-type`
   * panics, and any other line applies its effect to the record.
   */
  lemma CaptureStep(r: Reader, b: Blob, line: string)
    requires ActiveBlob(r) == Some(b) && line != ClosingTag(b)
    ensures EffectOf(line) == IndexPanic ==> Step(r, line) == IndexOutOfRange(line)
    ensures EffectOf(line).OpenBlock? ==>
              Step(r, line)
              == Ok(WithBlockFlag(r.(o := WithBlob(r.o, b, BlobOf(r.o, b) + line + "\n")), EffectOf(line).blob, true))
    ensures !EffectOf(line).OpenBlock? && EffectOf(line) != IndexPanic ==>
              Step(r, line) == Ok(r.(o := WithBlob(Apply(r.o, EffectOf(line)), b, BlobOf(r.o, b) + line + "\n")))
  {
    ApplyWithBlob(r.o, EffectOf(line), b, BlobOf(r.o, b) + line + "\n");
  }

  /**
   * While block `b` is being captured, every line is appended to the blob
   * with a line feed and is also dispatched as a directive.
   */
  lemma {:induction false} CaptureBody(r: Reader, b: Blob, body: seq<string>)
    requires ActiveBlob(r) == Some(b)
    requires PlainBody(b, body)
    ensures Dispatched(r.o, body).Ok?
    ensures Run(r, body) == Ok(r.(o := WithBlob(Dispatched(r.o, body).value, b, BlobOf(r.o, b) + Unlines(body))))
    decreases |body|
  {
    if body == [] {
      assert BlobOf(r.o, b) + Unlines(body) == BlobOf(r.o, b);
      WithOwnBlob(r.o, b);
    } else {
      var line, rest := body[0], body[1..];
      var e := EffectOf(line);
      var v := BlobOf(r.o, b) + line + "\n";
      var o2 := Apply(r.o, e);
      var r2 := r.(o := WithBlob(o2, b, v));
      CaptureStep(r, b, line);
      assert Run(r, body) == Run(r2, rest);
      assert PlainBody(b, rest) by {
        forall i | 0 <= i < |rest| ensures rest[i] == body[i + 1] {}
      }
      WithBlobTwice(o2, b, v, v);
      CaptureBody(r2, b, rest);
      DispatchedWithBlob(o2, b, v, rest);
      assert Dispatched(r.o, body) == Dispatched(o2, rest);
      WithBlobTwice(Dispatched(o2, rest).value, b, v, v + Unlines(rest));
      assert v + Unlines(rest) == BlobOf(r.o, b) + Unlines(body);
    }
  }

  /**
   * Outside any block, an opening tag, a plain body and the exact closing
   * tag append the body, one line feed per line, to the blob; the lines of
   * the body are dispatched as well, and the reader ends outside any block.
   */
  lemma CaptureBlock(r: Reader, b: Blob, open: string, body: seq<string>)
    requires ActiveBlob(r) == None
    requires EffectOf(open) == OpenBlock(b)
    requires PlainBody(b, body)
    ensures Dispatched(r.o, body).Ok?
    ensures Run(r, [open] + body + [ClosingTag(b)])
            == Ok(r.(o := WithBlob(Dispatched(r.o, body).value, b, BlobOf(r.o, b) + Unlines(body))))
  {
    var r1 := WithBlockFlag(r, b, true);
    assert Step(r, open) == Ok(r1);
    RunOne(r, open);
    assert ActiveBlob(r1) == Some(b);
    CaptureBody(r1, b, body);
    var x := WithBlob(Dispatched(r.o, body).value, b, BlobOf(r.o, b) + Unlines(body));
    RunOne(r1.(o := x), ClosingTag(b));
    assert Step(r1.(o := x), ClosingTag(b)) == Ok(r.(o := x));
    RunAppend(r, [open], body);
    RunAppend(r, [open] + body, [ClosingTag(b)]);
  }

  /** Running from a line whose step succeeds continues from the next reader. */
  lemma RunCons(r: Reader, line: string, rest: seq<string>, next: Reader)
    requires Step(r, line) == Ok(next)
    ensures Run(r, [line] + rest) == Run(next, rest)
  {
    assert ([line] + rest)[1..] == rest;
  }

  /** A line of one lower-case token is its own keyword. */
  lemma BareWord(line: string)
    requires line != [] && forall i :: 0 <= i < |line| ==> line[i] != ' ' && !('A' <= line[i] <= 'Z')
    ensures Tokens(line) == [line] && Keyword(line) == line
  {
    SplitWithoutSeparator(line, ' ');
    assert Lower(line) == line;
  }
}
