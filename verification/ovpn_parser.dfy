/**
 * The imperative parser of `Import`, written as the source writes it: a
 * loop over the sanitized lines with four block flags and a record updated
 * in place, the if/else capture chain, and the switch on the lower-cased
 * first token with each case's arity and value checks. Every method is
 * proved to compute the functional definition of the import.
 */
module OvpnParser {
  import opened Wrappers
  import opened Strings
  import opened Decimal
  import opened OvpnTypes
  import opened OvpnImport

  /**
   * The parser. The local record `o` is updated in place line by line,
   * with the four flags and the if/else capture chain of the source.
   */
  method Import(data: string, filter: LineFilter) returns (result: Outcome<Ovpn>)
    ensures result == ImportSpec(data, filter)
  {
    var o := Empty;
    var inCa, inTls, inCert, inKey := false, false, false, false;
    var raw := Split(StripCarriageReturns(data), '\n');
    ghost var lines := Lines(data, filter);
    var i := 0;
    while i < |raw|
      invariant i <= |raw| == |lines|
      invariant Run(Start, lines) == Run(Reader(o, inCa, inTls, inCert, inKey), lines[i..])
    {
      var line := filter(raw[i], MaxLineLength);
      assert lines[i..][0] == line && lines[i..][1..] == lines[i + 1..];
      i := i + 1;
      var closed, captured := CaptureLine(Reader(o, inCa, inTls, inCert, inKey), line);
      o, inCa, inTls, inCert, inKey := captured.o, captured.inCa, captured.inTls, captured.inCert, captured.inKey;
      if closed {
        continue;
      }
      var next := DispatchLine(captured, line);
      match next {
        case IndexOutOfRange(bad) =>
          return IndexOutOfRange(bad);
        case Ok(r) =>
          o, inCa, inTls, inCert, inKey := r.o, r.inCa, r.inTls, r.inCert, r.inKey;
      }
    }
    assert lines[i..] == [];
    if o.dev == "" {
      o := o.(dev := "tun");
    }
    if o.devType == "" {
      o := o.(devType := "tun");
    }
    result := Ok(o);
  }

  /**
   * The capture chain of the loop: inside a block the exact closing tag
   * lowers the flag and ends the iteration (`closed`); any other line is
   * appended to the blob with a line feed and goes on to the switch.
   */
  method CaptureLine(r: Reader, line: string) returns (closed: bool, next: Reader)
    ensures closed ==> Step(r, line) == Ok(next)
    ensures !closed ==> Step(r, line) == Dispatch(next, line)
  {
    var o := r.o;
    next := r;
    closed := false;
    if r.inCa {
      if line == "</ca>" {
        return true, r.(inCa := false);
      }
      o := o.(caCert := o.caCert + line + "\n");
    } else if r.inTls {
      if line == "</tls-auth>" {
        return true, r.(inTls := false);
      }
      o := o.(tlsAuth := o.tlsAuth + line + "\n");
    } else if r.inCert {
      if line == "</cert>" {
        return true, r.(inCert := false);
      }
      o := o.(cert := o.cert + line + "\n");
    } else if r.inKey {
      if line == "</key>" {
        return true, r.(inKey := false);
      }
      o := o.(key := o.key + line + "\n");
    }
    next := r.(o := o);
  }

  /**
   * The switch on one line, as the source writes it: split on single
   * spaces, lower-case the first token, then walk the cases in source
   * order. The chain is cut into four consecutive segments; a line whose
   * keyword no segment matches changes nothing.
   */
  method DispatchLine(r: Reader, line: string) returns (next: Outcome<Reader>)
    ensures next == Dispatch(r, line)
  {
    var tokens := Split(line, ' ');
    var key := Lower(tokens[0]);
    var matched: bool;
    matched, next := SwitchTagsToRemote(r, line, tokens, key);
    if matched {
      return;
    }
    matched, next := SwitchRemoteRandomToPushPeerInfo(r, line, tokens, key);
    if matched {
      return;
    }
    matched, next := SwitchPingToRcvBuf(r, line, tokens, key);
    if matched {
      return;
    }
    matched, next := SwitchRemoteCertTlsToKeyDirection(r, line, tokens, key);
    if matched {
      return;
    }
    UnknownKeyword(key);
    next := Ok(r);
  }

  /** The cases from the opening tags to `remote`; `continue` in the source leaves the reader as it was. */
  method SwitchTagsToRemote(r: Reader, line: string, tokens: seq<string>, key: string)
    returns (matched: bool, next: Outcome<Reader>)
    requires tokens == Tokens(line) && key == Keyword(line)
    ensures matched ==> next == Dispatch(r, line)
    ensures !matched ==> key !in TagsToRemote
  {
    if key == "<ca>" {
      CaCase(r, line);
      return true, Ok(r.(inCa := true));
    }
    if key == "<tls-auth>" {
      TlsAuthCase(r, line);
      return true, Ok(r.(inTls := true));
    }
    if key == "<cert>" {
      CertCase(r, line);
      return true, Ok(r.(inCert := true));
    }
    if key == "<key>" {
      KeyCase(r, line);
      return true, Ok(r.(inKey := true));
    }
    if key == "setenv" {
      SetenvCase(r, line);
      if |tokens| != 3 {
        return true, Ok(r);
      }
      var name := Lower(tokens[1]);
      if name == "uv_id" {
        return true, Ok(r.(o := r.o.(envId := tokens[2])));
      }
      if name == "uv_name" {
        return true, Ok(r.(o := r.o.(envName := tokens[2])));
      }
      return true, Ok(r);
    }
    if key == "dev" {
      DevCase(r, line);
      if |tokens| < 2 {
        return true, IndexOutOfRange(line);
      }
      var device := Lower(tokens[1]);
      if device == "tun" {
        return true, Ok(r.(o := r.o.(dev := "tun")));
      }
      if device == "tap" {
        return true, Ok(r.(o := r.o.(dev := "tap")));
      }
      return true, Ok(r);
    }
    if key == "dev-type" {
      DevTypeCase(r, line);
      if |tokens| < 2 {
        return true, IndexOutOfRange(line);
      }
      var device := Lower(tokens[1]);
      if device == "tun" {
        return true, Ok(r.(o := r.o.(dev := "tun")));
      }
      if device == "tap" {
        return true, Ok(r.(o := r.o.(dev := "tap")));
      }
      return true, Ok(r);
    }
    if key == "remote" {
      RemoteCase(r, line);
      if |tokens| != 4 {
        return true, Ok(r);
      }
      var port := ParseInt(tokens[2]);
      if port.None? {
        return true, Ok(r);
      }
      var proto := Lower(tokens[3]);
      if proto !in Protocols {
        return true, Ok(r);
      }
      return true, Ok(r.(o := r.o.(remotes := r.o.remotes + [Remote(tokens[1], port.value, proto)])));
    }
    return false, Ok(r);
  }

  /** The cases from `remote-random` to `push-peer-info`; `continue` in the source leaves the reader as it was. */
  method SwitchRemoteRandomToPushPeerInfo(r: Reader, line: string, tokens: seq<string>, key: string)
    returns (matched: bool, next: Outcome<Reader>)
    requires tokens == Tokens(line) && key == Keyword(line)
    ensures matched ==> next == Dispatch(r, line)
    ensures !matched ==> key !in RemoteRandomToPushPeerInfo
  {
    if key == "remote-random" {
      RemoteRandomCase(r, line);
      return true, Ok(r.(o := r.o.(remoteRandom := true)));
    }
    if key == "nobind" {
      NoBindCase(r, line);
      return true, Ok(r.(o := r.o.(noBind := true)));
    }
    if key == "persist-tun" {
      PersistTunCase(r, line);
      return true, Ok(r.(o := r.o.(persistTun := true)));
    }
    if key == "cipher" {
      CipherCase(r, line);
      if |tokens| != 2 {
        return true, Ok(r);
      }
      return true, Ok(r.(o := r.o.(cipher := tokens[1])));
    }
    if key == "auth" {
      AuthCase(r, line);
      if |tokens| != 2 {
        return true, Ok(r);
      }
      return true, Ok(r.(o := r.o.(auth := tokens[1])));
    }
    if key == "verb" {
      VerbCase(r, line);
      if |tokens| != 2 {
        return true, Ok(r);
      }
      var verb := ParseInt(tokens[1]);
      if verb.None? {
        return true, Ok(r);
      }
      return true, Ok(r.(o := r.o.(verb := verb.value)));
    }
    if key == "mute" {
      MuteCase(r, line);
      if |tokens| != 2 {
        return true, Ok(r);
      }
      var mute := ParseInt(tokens[1]);
      if mute.None? {
        return true, Ok(r);
      }
      return true, Ok(r.(o := r.o.(mute := mute.value)));
    }
    if key == "push-peer-info" {
      PushPeerInfoCase(r, line);
      return true, Ok(r.(o := r.o.(pushPeerInfo := true)));
    }
    return false, Ok(r);
  }

  /** The cases from `ping` to `rcvbuf`; `ping-restart` writes `pingExit`; `continue` in the source leaves the reader as it was. */
  method SwitchPingToRcvBuf(r: Reader, line: string, tokens: seq<string>, key: string)
    returns (matched: bool, next: Outcome<Reader>)
    requires tokens == Tokens(line) && key == Keyword(line)
    ensures matched ==> next == Dispatch(r, line)
    ensures !matched ==> key !in PingToRcvBuf
  {
    if key == "ping" {
      PingCase(r, line);
      if |tokens| != 2 {
        return true, Ok(r);
      }
      var ping := ParseInt(tokens[1]);
      if ping.None? {
        return true, Ok(r);
      }
      return true, Ok(r.(o := r.o.(ping := ping.value)));
    }
    if key == "ping-restart" {
      PingRestartCase(r, line);
      if |tokens| != 2 {
        return true, Ok(r);
      }
      var pingRestart := ParseInt(tokens[1]);
      if pingRestart.None? {
        return true, Ok(r);
      }
      return true, Ok(r.(o := r.o.(pingExit := pingRestart.value)));
    }
    if key == "ping-exit" {
      PingExitCase(r, line);
      if |tokens| != 2 {
        return true, Ok(r);
      }
      var pingExit := ParseInt(tokens[1]);
      if pingExit.None? {
        return true, Ok(r);
      }
      return true, Ok(r.(o := r.o.(pingExit := pingExit.value)));
    }
    if key == "hand-window" {
      HandWindowCase(r, line);
      if |tokens| != 2 {
        return true, Ok(r);
      }
      var handWindow := ParseInt(tokens[1]);
      if handWindow.None? {
        return true, Ok(r);
      }
      return true, Ok(r.(o := r.o.(handWindow := handWindow.value)));
    }
    if key == "server-poll-timeout" {
      ServerPollTimeoutCase(r, line);
      if |tokens| != 2 {
        return true, Ok(r);
      }
      var serverPollTimeout := ParseInt(tokens[1]);
      if serverPollTimeout.None? {
        return true, Ok(r);
      }
      return true, Ok(r.(o := r.o.(serverPollTimeout := serverPollTimeout.value)));
    }
    if key == "reneg-sec" {
      RenegSecCase(r, line);
      if |tokens| != 2 {
        return true, Ok(r);
      }
      var renegSec := ParseInt(tokens[1]);
      if renegSec.None? {
        return true, Ok(r);
      }
      return true, Ok(r.(o := r.o.(renegSec := renegSec.value)));
    }
    if key == "sndbuf" {
      SndBufCase(r, line);
      if |tokens| != 2 {
        return true, Ok(r);
      }
      var sndbuf := ParseInt(tokens[1]);
      if sndbuf.None? {
        return true, Ok(r);
      }
      return true, Ok(r.(o := r.o.(sndBuf := sndbuf.value)));
    }
    if key == "rcvbuf" {
      RcvBufCase(r, line);
      if |tokens| != 2 {
        return true, Ok(r);
      }
      var rcvbuf := ParseInt(tokens[1]);
      if rcvbuf.None? {
        return true, Ok(r);
      }
      return true, Ok(r.(o := r.o.(rcvBuf := rcvbuf.value)));
    }
    return false, Ok(r);
  }

  /** The cases from `remote-cert-tls` to `key-direction`; `continue` in the source leaves the reader as it was. */
  method SwitchRemoteCertTlsToKeyDirection(r: Reader, line: string, tokens: seq<string>, key: string)
    returns (matched: bool, next: Outcome<Reader>)
    requires tokens == Tokens(line) && key == Keyword(line)
    ensures matched ==> next == Dispatch(r, line)
    ensures !matched ==> key !in RemoteCertTlsToKeyDirection
  {
    if key == "remote-cert-tls" {
      RemoteCertTlsCase(r, line);
      if |tokens| != 2 {
        return true, Ok(r);
      }
      if Lower(tokens[1]) == "server" {
        return true, Ok(r.(o := r.o.(remoteCertTls := "server")));
      }
      return true, Ok(r);
    }
    if key == "comp-lzo" {
      CompLzoCase(r, line);
      if |tokens| != 2 {
        return true, Ok(r);
      }
      if Lower(tokens[1]) == "on" {
        return true, Ok(r.(o := r.o.(compress := "lzo")));
      }
      return true, Ok(r);
    }
    if key == "compress" {
      CompressCase(r, line);
      if |tokens| != 2 {
        return true, Ok(r);
      }
      var algorithm := Lower(tokens[1]);
      if algorithm == "lzo" {
        return true, Ok(r.(o := r.o.(compress := "lzo")));
      }
      if algorithm == "lz4" {
        return true, Ok(r.(o := r.o.(compress := "lz4")));
      }
      return true, Ok(r);
    }
    if key == "auth-user-pass" {
      AuthUserPassCase(r, line);
      return true, Ok(r.(o := r.o.(authUserPass := true)));
    }
    if key == "key-direction" {
      KeyDirectionCase(r, line);
      if |tokens| != 2 {
        return true, Ok(r);
      }
      var keyDirection := ParseInt(tokens[1]);
      if keyDirection.None? {
        return true, Ok(r);
      }
      return true, Ok(r.(o := r.o.(keyDirection := keyDirection.value)));
    }
    return false, Ok(r);
  }

  /** The keywords of the four segments of the switch, in source order. */
  const TagsToRemote: set<string> := {"<ca>", "<tls-auth>", "<cert>", "<key>", "setenv", "dev", "dev-type", "remote"}
  const RemoteRandomToPushPeerInfo: set<string> := {"remote-random", "nobind", "persist-tun", "cipher", "auth", "verb", "mute", "push-peer-info"}
  const PingToRcvBuf: set<string> := {"ping", "ping-restart", "ping-exit", "hand-window", "server-poll-timeout", "reneg-sec", "sndbuf", "rcvbuf"}
  const RemoteCertTlsToKeyDirection: set<string> := {"remote-cert-tls", "comp-lzo", "compress", "auth-user-pass", "key-direction"}

  /** A keyword that no case of the switch names is not in the directive table. */
  lemma UnknownKeyword(key: string)
    requires key !in TagsToRemote && key !in RemoteRandomToPushPeerInfo
    requires key !in PingToRcvBuf && key !in RemoteCertTlsToKeyDirection
    ensures key !in Directives
  {
  }

  /** A keyword's table entry decides the line's effect. */
  lemma Selects(line: string, kind: Kind)
    requires Keyword(line) in Directives && Directives[Keyword(line)] == kind
    ensures EffectOf(line) == KindEffect(kind, Tokens(line))
  {
  }

  /** An opening tag raises the flag of its block. */
  lemma TagDispatch(r: Reader, line: string, b: Blob)
    requires Keyword(line) in Directives && Directives[Keyword(line)] == OpenTag(b)
    ensures Dispatch(r, line) == Ok(WithBlockFlag(r, b, true))
  {
  }

  /** A presence keyword sets its flag whatever follows it. */
  lemma PresenceDispatch(r: Reader, line: string, f: FlagField)
    requires Keyword(line) in Directives && Directives[Keyword(line)] == Presence(f)
    ensures Dispatch(r, line) == Ok(r.(o := WithFlag(r.o, f, true)))
  {
  }

  /** A verbatim keyword copies its one argument. */
  lemma VerbatimDispatch(r: Reader, line: string, f: StrField)
    requires Keyword(line) in Directives && Directives[Keyword(line)] == Verbatim(f)
    ensures var t := Tokens(line);
            Dispatch(r, line) == Ok(if |t| != 2 then r else r.(o := WithStr(r.o, f, t[1])))
  {
  }

  /** An integer keyword stores its one argument when it parses. */
  lemma IntegerDispatch(r: Reader, line: string, f: IntField)
    requires Keyword(line) in Directives && Directives[Keyword(line)] == Integer(f)
    ensures var t := Tokens(line);
            Dispatch(r, line)
            == Ok(if |t| != 2 || ParseInt(t[1]).None? then r else r.(o := WithInt(r.o, f, ParseInt(t[1]).value)))
  {
  }

  /** A choice keyword stores what its lower-cased argument maps to, if anything. */
  lemma ChoiceDispatch(r: Reader, line: string, f: StrField, accepted: map<string, string>)
    requires Keyword(line) in Directives && Directives[Keyword(line)] == Choice(f, accepted)
    ensures var t := Tokens(line);
            Dispatch(r, line)
            == Ok(if |t| != 2 || Lower(t[1]) !in accepted then r else r.(o := WithStr(r.o, f, accepted[Lower(t[1])])))
  {
  }

  // ---------------------------------------------------------------------
  // Each case of the switch, as the directive table defines it.
  // ---------------------------------------------------------------------

  lemma CaCase(r: Reader, line: string)
    requires Keyword(line) == "<ca>"
    ensures Dispatch(r, line) == Ok(r.(inCa := true))
  {
    var k := "<ca>";
    assert k in Directives && Directives[k] == OpenTag(Ca);
    TagDispatch(r, line, Ca);
  }

  lemma TlsAuthCase(r: Reader, line: string)
    requires Keyword(line) == "<tls-auth>"
    ensures Dispatch(r, line) == Ok(r.(inTls := true))
  {
    var k := "<tls-auth>";
    assert k in Directives && Directives[k] == OpenTag(TlsAuth);
    TagDispatch(r, line, TlsAuth);
  }

  lemma CertCase(r: Reader, line: string)
    requires Keyword(line) == "<cert>"
    ensures Dispatch(r, line) == Ok(r.(inCert := true))
  {
    var k := "<cert>";
    assert k in Directives && Directives[k] == OpenTag(Cert);
    TagDispatch(r, line, Cert);
  }

  lemma KeyCase(r: Reader, line: string)
    requires Keyword(line) == "<key>"
    ensures Dispatch(r, line) == Ok(r.(inKey := true))
  {
    var k := "<key>";
    assert k in Directives && Directives[k] == OpenTag(Key);
    TagDispatch(r, line, Key);
  }

  lemma SetenvCase(r: Reader, line: string)
    requires Keyword(line) == "setenv"
    ensures var t := Tokens(line);
            Dispatch(r, line)
            == Ok(if |t| != 3 then r
                  else if Lower(t[1]) == "uv_id" then r.(o := r.o.(envId := t[2]))
                  else if Lower(t[1]) == "uv_name" then r.(o := r.o.(envName := t[2]))
                  else r)
  {
    var k := "setenv";
    assert k in Directives && Directives[k] == Setenv;
    Selects(line, Setenv);
  }

  lemma DevCase(r: Reader, line: string)
    requires Keyword(line) == "dev"
    ensures var t := Tokens(line);
            Dispatch(r, line)
            == if |t| < 2 then IndexOutOfRange(line)
               else if Lower(t[1]) == "tun" then Ok(r.(o := r.o.(dev := "tun")))
               else if Lower(t[1]) == "tap" then Ok(r.(o := r.o.(dev := "tap")))
               else Ok(r)
  {
    var k := "dev";
    assert k in Directives && Directives[k] == Device;
    Selects(line, Device);
  }

  lemma DevTypeCase(r: Reader, line: string)
    requires Keyword(line) == "dev-type"
    ensures var t := Tokens(line);
            Dispatch(r, line)
            == if |t| < 2 then IndexOutOfRange(line)
               else if Lower(t[1]) == "tun" then Ok(r.(o := r.o.(dev := "tun")))
               else if Lower(t[1]) == "tap" then Ok(r.(o := r.o.(dev := "tap")))
               else Ok(r)
  {
    var k := "dev-type";
    assert k in Directives && Directives[k] == Device;
    Selects(line, Device);
  }

  lemma RemoteCase(r: Reader, line: string)
    requires Keyword(line) == "remote"
    ensures var t := Tokens(line);
            Dispatch(r, line)
            == Ok(if |t| != 4 || ParseInt(t[2]).None? || Lower(t[3]) !in Protocols then r
                  else r.(o := r.o.(remotes := r.o.remotes + [Remote(t[1], ParseInt(t[2]).value, Lower(t[3]))])))
  {
    var k := "remote";
    assert k in Directives && Directives[k] == RemoteEntry;
    Selects(line, RemoteEntry);
  }

  lemma RemoteRandomCase(r: Reader, line: string)
    requires Keyword(line) == "remote-random"
    ensures Dispatch(r, line) == Ok(r.(o := r.o.(remoteRandom := true)))
  {
    var k := "remote-random";
    assert k in Directives && Directives[k] == Presence(RemoteRandom);
    PresenceDispatch(r, line, RemoteRandom);
  }

  lemma NoBindCase(r: Reader, line: string)
    requires Keyword(line) == "nobind"
    ensures Dispatch(r, line) == Ok(r.(o := r.o.(noBind := true)))
  {
    var k := "nobind";
    assert k in Directives && Directives[k] == Presence(NoBind);
    PresenceDispatch(r, line, NoBind);
  }

  lemma PersistTunCase(r: Reader, line: string)
    requires Keyword(line) == "persist-tun"
    ensures Dispatch(r, line) == Ok(r.(o := r.o.(persistTun := true)))
  {
    var k := "persist-tun";
    assert k in Directives && Directives[k] == Presence(PersistTun);
    PresenceDispatch(r, line, PersistTun);
  }

  lemma CipherCase(r: Reader, line: string)
    requires Keyword(line) == "cipher"
    ensures var t := Tokens(line);
            Dispatch(r, line) == Ok(if |t| != 2 then r else r.(o := r.o.(cipher := t[1])))
  {
    var k := "cipher";
    assert k in Directives && Directives[k] == Verbatim(Cipher);
    VerbatimDispatch(r, line, Cipher);
  }

  lemma AuthCase(r: Reader, line: string)
    requires Keyword(line) == "auth"
    ensures var t := Tokens(line);
            Dispatch(r, line) == Ok(if |t| != 2 then r else r.(o := r.o.(auth := t[1])))
  {
    var k := "auth";
    assert k in Directives && Directives[k] == Verbatim(Auth);
    VerbatimDispatch(r, line, Auth);
  }

  lemma VerbCase(r: Reader, line: string)
    requires Keyword(line) == "verb"
    ensures var t := Tokens(line);
            Dispatch(r, line)
            == Ok(if |t| != 2 || ParseInt(t[1]).None? then r
                  else r.(o := r.o.(verb := ParseInt(t[1]).value)))
  {
    var k := "verb";
    assert k in Directives && Directives[k] == Integer(Verb);
    IntegerDispatch(r, line, Verb);
  }

  lemma MuteCase(r: Reader, line: string)
    requires Keyword(line) == "mute"
    ensures var t := Tokens(line);
            Dispatch(r, line)
            == Ok(if |t| != 2 || ParseInt(t[1]).None? then r
                  else r.(o := r.o.(mute := ParseInt(t[1]).value)))
  {
    var k := "mute";
    assert k in Directives && Directives[k] == Integer(Mute);
    IntegerDispatch(r, line, Mute);
  }

  lemma PushPeerInfoCase(r: Reader, line: string)
    requires Keyword(line) == "push-peer-info"
    ensures Dispatch(r, line) == Ok(r.(o := r.o.(pushPeerInfo := true)))
  {
    var k := "push-peer-info";
    assert k in Directives && Directives[k] == Presence(PushPeerInfo);
    PresenceDispatch(r, line, PushPeerInfo);
  }

  lemma PingCase(r: Reader, line: string)
    requires Keyword(line) == "ping"
    ensures var t := Tokens(line);
            Dispatch(r, line)
            == Ok(if |t| != 2 || ParseInt(t[1]).None? then r
                  else r.(o := r.o.(ping := ParseInt(t[1]).value)))
  {
    var k := "ping";
    assert k in Directives && Directives[k] == Integer(Ping);
    IntegerDispatch(r, line, Ping);
  }

  lemma PingRestartCase(r: Reader, line: string)
    requires Keyword(line) == "ping-restart"
    ensures var t := Tokens(line);
            Dispatch(r, line)
            == Ok(if |t| != 2 || ParseInt(t[1]).None? then r
                  else r.(o := r.o.(pingExit := ParseInt(t[1]).value)))
  {
    var k := "ping-restart";
    assert k in Directives && Directives[k] == Integer(PingExit);
    IntegerDispatch(r, line, PingExit);
  }

  lemma PingExitCase(r: Reader, line: string)
    requires Keyword(line) == "ping-exit"
    ensures var t := Tokens(line);
            Dispatch(r, line)
            == Ok(if |t| != 2 || ParseInt(t[1]).None? then r
                  else r.(o := r.o.(pingExit := ParseInt(t[1]).value)))
  {
    var k := "ping-exit";
    assert k in Directives && Directives[k] == Integer(PingExit);
    IntegerDispatch(r, line, PingExit);
  }

  lemma HandWindowCase(r: Reader, line: string)
    requires Keyword(line) == "hand-window"
    ensures var t := Tokens(line);
            Dispatch(r, line)
            == Ok(if |t| != 2 || ParseInt(t[1]).None? then r
                  else r.(o := r.o.(handWindow := ParseInt(t[1]).value)))
  {
    var k := "hand-window";
    assert k in Directives && Directives[k] == Integer(HandWindow);
    IntegerDispatch(r, line, HandWindow);
  }

  lemma ServerPollTimeoutCase(r: Reader, line: string)
    requires Keyword(line) == "server-poll-timeout"
    ensures var t := Tokens(line);
            Dispatch(r, line)
            == Ok(if |t| != 2 || ParseInt(t[1]).None? then r
                  else r.(o := r.o.(serverPollTimeout := ParseInt(t[1]).value)))
  {
    var k := "server-poll-timeout";
    assert k in Directives && Directives[k] == Integer(ServerPollTimeout);
    IntegerDispatch(r, line, ServerPollTimeout);
  }

  lemma RenegSecCase(r: Reader, line: string)
    requires Keyword(line) == "reneg-sec"
    ensures var t := Tokens(line);
            Dispatch(r, line)
            == Ok(if |t| != 2 || ParseInt(t[1]).None? then r
                  else r.(o := r.o.(renegSec := ParseInt(t[1]).value)))
  {
    var k := "reneg-sec";
    assert k in Directives && Directives[k] == Integer(RenegSec);
    IntegerDispatch(r, line, RenegSec);
  }

  lemma SndBufCase(r: Reader, line: string)
    requires Keyword(line) == "sndbuf"
    ensures var t := Tokens(line);
            Dispatch(r, line)
            == Ok(if |t| != 2 || ParseInt(t[1]).None? then r
                  else r.(o := r.o.(sndBuf := ParseInt(t[1]).value)))
  {
    var k := "sndbuf";
    assert k in Directives && Directives[k] == Integer(SndBuf);
    IntegerDispatch(r, line, SndBuf);
  }

  lemma RcvBufCase(r: Reader, line: string)
    requires Keyword(line) == "rcvbuf"
    ensures var t := Tokens(line);
            Dispatch(r, line)
            == Ok(if |t| != 2 || ParseInt(t[1]).None? then r
                  else r.(o := r.o.(rcvBuf := ParseInt(t[1]).value)))
  {
    var k := "rcvbuf";
    assert k in Directives && Directives[k] == Integer(RcvBuf);
    IntegerDispatch(r, line, RcvBuf);
  }

  lemma RemoteCertTlsCase(r: Reader, line: string)
    requires Keyword(line) == "remote-cert-tls"
    ensures var t := Tokens(line);
            Dispatch(r, line)
            == Ok(if |t| == 2 && Lower(t[1]) == "server" then r.(o := r.o.(remoteCertTls := "server")) else r)
  {
    var k := "remote-cert-tls";
    assert k in Directives && Directives[k] == Choice(RemoteCertTls, map["server" := "server"]);
    ChoiceDispatch(r, line, RemoteCertTls, map["server" := "server"]);
  }

  lemma CompLzoCase(r: Reader, line: string)
    requires Keyword(line) == "comp-lzo"
    ensures var t := Tokens(line);
            Dispatch(r, line)
            == Ok(if |t| == 2 && Lower(t[1]) == "on" then r.(o := r.o.(compress := "lzo")) else r)
  {
    var k := "comp-lzo";
    assert k in Directives && Directives[k] == Choice(Compress, map["on" := "lzo"]);
    ChoiceDispatch(r, line, Compress, map["on" := "lzo"]);
  }

  lemma CompressCase(r: Reader, line: string)
    requires Keyword(line) == "compress"
    ensures var t := Tokens(line);
            Dispatch(r, line)
            == Ok(if |t| != 2 then r
                  else if Lower(t[1]) == "lzo" then r.(o := r.o.(compress := "lzo"))
                  else if Lower(t[1]) == "lz4" then r.(o := r.o.(compress := "lz4"))
                  else r)
  {
    var k := "compress";
    assert k in Directives && Directives[k] == Choice(Compress, map["lzo" := "lzo", "lz4" := "lz4"]);
    ChoiceDispatch(r, line, Compress, map["lzo" := "lzo", "lz4" := "lz4"]);
  }

  lemma AuthUserPassCase(r: Reader, line: string)
    requires Keyword(line) == "auth-user-pass"
    ensures Dispatch(r, line) == Ok(r.(o := r.o.(authUserPass := true)))
  {
    var k := "auth-user-pass";
    assert k in Directives && Directives[k] == Presence(AuthUserPass);
    PresenceDispatch(r, line, AuthUserPass);
  }

  lemma KeyDirectionCase(r: Reader, line: string)
    requires Keyword(line) == "key-direction"
    ensures var t := Tokens(line);
            Dispatch(r, line)
            == Ok(if |t| != 2 || ParseInt(t[1]).None? then r
                  else r.(o := r.o.(keyDirection := ParseInt(t[1]).value)))
  {
    var k := "key-direction";
    assert k in Directives && Directives[k] == Integer(KeyDirection);
    IntegerDispatch(r, line, KeyDirection);
  }
}
