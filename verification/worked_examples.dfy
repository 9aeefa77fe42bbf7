/**
 * Concrete inputs and outputs of the codec: the export of a small
 * profile, and imports of short texts showing the defaulting, the lines
 * the switch drops, and the panic on a bare `dev` line. Every import is
 * stated for any line filter that leaves the lines of the text unchanged.
 */
module WorkedExamples {
  import opened Wrappers
  import opened Strings
  import opened Decimal
  import opened OvpnTypes
  import opened OvpnExport
  import opened OvpnImport
  import opened ImportProperties
  import opened RoundTrip

  // ---------------------------------------------------------------------
  // Reading a text of whole lines.
  // ---------------------------------------------------------------------

  /** A filter that keeps every line of `lines`, and the empty last piece. */
  predicate Keeps(filter: LineFilter, lines: seq<string>) {
    filter("", MaxLineLength) == "" && forall l <- lines :: filter(l, MaxLineLength) == l
  }

  /** Text made of whole lines is read back as those lines and a final empty piece. */
  lemma ReadText(lines: seq<string>, filter: LineFilter)
    requires forall l <- lines :: OneLine(l)
    requires Keeps(filter, lines)
    ensures Lines(Unlines(lines), filter) == lines + [""]
  {
    UnlinesWithoutCarriageReturn(lines);
    SplitUnlines(lines, "");
    assert Unlines(lines) + "" == Unlines(lines);
    var raw := Split(Unlines(lines), '\n');
    assert raw == lines + [""];
    var read := Lines(Unlines(lines), filter);
    forall i | 0 <= i < |raw|
      ensures read[i] == raw[i]
    {
      if i < |lines| {
        assert raw[i] in lines;
      }
    }
  }

  /** The import of a text whose lines run, outside any block, to reader `r`. */
  lemma ImportText(lines: seq<string>, filter: LineFilter, r: Reader)
    requires forall l <- lines :: OneLine(l)
    requires Keeps(filter, lines)
    requires Run(Start, lines) == Ok(r) && ActiveBlob(r) == None
    ensures ImportSpec(Unlines(lines), filter) == Ok(Defaults(r.o))
  {
    ReadText(lines, filter);
    RunAppend(Start, lines, [""]);
    EmptyLineInert();
    assert Step(r, "") == Ok(r);
    RunOne(r, "");
  }

  /** The import of a text that panics on one of its lines. */
  lemma ImportTextPanics(lines: seq<string>, filter: LineFilter, bad: string)
    requires forall l <- lines :: OneLine(l)
    requires Keeps(filter, lines)
    requires Run(Start, lines) == IndexOutOfRange(bad)
    ensures ImportSpec(Unlines(lines), filter) == IndexOutOfRange(bad)
  {
    ReadText(lines, filter);
    RunAppend(Start, lines, [""]);
  }

  // ---------------------------------------------------------------------
  // Single lines.
  // ---------------------------------------------------------------------

  /** A line of two space-free words, the first in lower case. */
  lemma TwoWords(a: string, b: string)
    requires a != [] && ' ' !in a && ' ' !in b && LowerCase(a)
    ensures Tokens(a + " " + b) == [a, b] && Keyword(a + " " + b) == a
  {
    TokensJoin(a, b);
    SplitWithoutSeparator(b, ' ');
    LowerCaseWord(a);
  }

  /** A line that has no effect leaves a reader outside any block unchanged. */
  lemma InertStep(r: Reader, line: string)
    requires ActiveBlob(r) == None && EffectOf(line) == Inert
    ensures Step(r, line) == Ok(r)
  {
  }

  lemma FooBarTokens()
    ensures Keyword("foo bar") == "foo"
  {
    assert "foo bar" == "foo" + " " + "bar";
    TwoWords("foo", "bar");
  }

  lemma FooNotDirective()
    ensures "foo" !in Directives
  {
    var k := "foo";
    assert k !in Directives;
  }

  /** `foo` is no directive, so the line is dropped. */
  lemma FooUnknown()
    ensures EffectOf("foo bar") == Inert
  {
    FooBarTokens();
    FooNotDirective();
  }

  /** A two-token line of an integer directive whose value does not parse is dropped. */
  lemma IntegerDropped(line: string, f: IntField)
    requires Keyword(line) in Directives && Directives[Keyword(line)] == Integer(f)
    requires |Tokens(line)| == 2 && ParseInt(Tokens(line)[1]) == None
    ensures EffectOf(line) == Inert
  {
  }

  lemma PingAbcTokens()
    ensures Tokens("ping abc") == ["ping", "abc"] && Keyword("ping abc") == "ping"
  {
    assert "ping abc" == "ping" + " " + "abc";
    TwoWords("ping", "abc");
  }

  lemma AbcNotInteger()
    ensures ParseInt("abc") == None
  {
    var v := "abc";
    assert !IsDigit(v[0]);
  }

  lemma PingKeyword()
    ensures "ping" in Directives && Directives["ping"] == Integer(Ping)
  {
    var k := "ping";
    assert k in Directives && Directives[k] == Integer(Ping);
  }

  /** `abc` is not an integer, so the `ping` line is dropped. */
  lemma PingAbcInert()
    ensures EffectOf("ping abc") == Inert
  {
    PingAbcTokens();
    AbcNotInteger();
    PingKeyword();
    IntegerDropped("ping abc", Ping);
  }

  /** A `remote` line needs four tokens; one with three is dropped. */
  lemma ShortRemoteInert(host: string, port: string)
    requires ' ' !in host && ' ' !in port
    ensures EffectOf("remote" + " " + (host + " " + port)) == Inert
  {
    TokensJoin(host, port);
    SplitWithoutSeparator(port, ' ');
    TokensJoin("remote", host + " " + port);
    LowerCaseWord("remote");
    var k := "remote";
    assert k in Directives && Directives[k] == RemoteEntry;
  }

  /** A bare `dev` line reads a second token that is not there. */
  lemma BareDevPanics()
    ensures EffectOf("dev") == IndexPanic
  {
    BareWord("dev");
    var k := "dev";
    assert k in Directives && Directives[k] == Device;
  }

  /** Opening tags are matched on the lower-cased first token: `<CA>` opens the CA block. */
  lemma UpperCaseTagOpens()
    ensures EffectOf("<CA>") == OpenBlock(Ca)
  {
    var line := "<CA>";
    SplitWithoutSeparator(line, ' ');
    assert Lower(line) == "<ca>";
    OpensBlock(line, Ca);
  }

  /** Whatever follows an opening tag on its line is ignored: `<ca> x` opens the CA block. */
  lemma TagWithArgumentOpens()
    ensures EffectOf("<ca> x") == OpenBlock(Ca)
  {
    assert "<ca> x" == "<ca>" + " " + "x";
    TwoWords("<ca>", "x");
    OpensBlock("<ca> x", Ca);
  }

  // ---------------------------------------------------------------------
  // Whole texts.
  // ---------------------------------------------------------------------

  /** The record every text below that is read without error defaults to. */
  const Defaulted := Empty.(dev := "tun", devType := "tun")

  lemma DefaultsOfEmpty()
    ensures Defaults(Start.o) == Defaulted
  {
  }

  /** A lone `client` line leaves the reader at the start. */
  lemma ClientAlone()
    ensures Run(Start, ["client"]) == Ok(Start)
  {
    ClientLineEffect();
    InertStep(Start, "client");
    RunOne(Start, "client");
  }

  /** A lone `client` line yields the empty profile with both devices defaulted to "tun". */
  lemma DefaultFill(filter: LineFilter)
    requires Keeps(filter, ["client"])
    ensures ImportSpec(Unlines(["client"]), filter) == Ok(Defaulted)
  {
    DefaultsOfEmpty();
    ClientAlone();
    ImportText(["client"], filter, Start);
  }

  /** `client` followed by a line without effect leaves the reader at the start. */
  lemma ClientThenInert(second: string)
    requires EffectOf(second) == Inert
    ensures Run(Start, ["client", second]) == Ok(Start)
  {
    ClientLineEffect();
    InertStep(Start, "client");
    InertStep(Start, second);
    RunCons(Start, "client", [second], Start);
    RunCons(Start, second, [], Start);
  }

  lemma ClientPairOneLine(second: string)
    requires OneLine(second)
    ensures forall l <- ["client", second] :: OneLine(l)
  {
  }

  /** `client` followed by a line without effect reads as `client` alone. */
  lemma AfterClient(second: string, filter: LineFilter)
    requires OneLine(second) && Keeps(filter, ["client", second])
    requires EffectOf(second) == Inert
    ensures ImportSpec(Unlines(["client", second]), filter) == Ok(Defaulted)
  {
    DefaultsOfEmpty();
    ClientThenInert(second);
    ClientPairOneLine(second);
    ImportText(["client", second], filter, Start);
  }

  /** An unknown directive is skipped. */
  lemma UnknownDirectiveIgnored(filter: LineFilter)
    requires Keeps(filter, ["client", "foo bar"])
    ensures ImportSpec(Unlines(["client", "foo bar"]), filter) == Ok(Defaulted)
  {
    FooUnknown();
    AfterClient("foo bar", filter);
  }

  /** A `ping` with a non-integer value leaves `ping` at 0. */
  lemma MalformedIntegerIgnored(filter: LineFilter)
    requires Keeps(filter, ["client", "ping abc"])
    ensures ImportSpec(Unlines(["client", "ping abc"]), filter) == Ok(Defaulted)
  {
    PingAbcInert();
    AfterClient("ping abc", filter);
  }

  /** A `remote` with a host and a port but no protocol adds no entry. */
  lemma MalformedRemoteIgnored(host: string, port: string, filter: LineFilter)
    requires ' ' !in host && ' ' !in port && OneLine(host) && OneLine(port)
    requires Keeps(filter, ["client", "remote " + host + " " + port])
    ensures ImportSpec(Unlines(["client", "remote " + host + " " + port]), filter) == Ok(Defaulted)
  {
    var line := "remote " + host + " " + port;
    assert line == "remote" + " " + (host + " " + port);
    ShortRemoteInert(host, port);
    assert OneLine(line);
    AfterClient(line, filter);
  }

  /** After `client`, a line that panics ends the run with that line. */
  lemma ClientThenPanic(second: string)
    requires EffectOf(second) == IndexPanic
    ensures Run(Start, ["client", second]) == IndexOutOfRange(second)
  {
    ClientLineEffect();
    InertStep(Start, "client");
    RunCons(Start, "client", [second], Start);
    RunOne(Start, second);
  }

  /** `client` followed by a line that panics: the import panics on that line. */
  lemma PanicAfterClient(second: string, filter: LineFilter)
    requires OneLine(second) && Keeps(filter, ["client", second])
    requires EffectOf(second) == IndexPanic
    ensures ImportSpec(Unlines(["client", second]), filter) == IndexOutOfRange(second)
  {
    ClientThenPanic(second);
    ClientPairOneLine(second);
    ImportTextPanics(["client", second], filter, second);
  }

  /** A bare `dev` line ends the import with the index panic. */
  lemma BareDevImport(filter: LineFilter)
    requires Keeps(filter, ["client", "dev"])
    ensures ImportSpec(Unlines(["client", "dev"]), filter) == IndexOutOfRange("dev")
  {
    BareDevPanics();
    PanicAfterClient("dev", filter);
  }

  // ---------------------------------------------------------------------
  // An export.
  // ---------------------------------------------------------------------

  const Server := Remote("vpn.example.com", 1194, "udp")

  /** A `tun` profile with one remote and nothing optional set. */
  const Plain := Empty.(dev := "tun", devType := "tun", remotes := [Server])

  /** The same profile with `auth-user-pass` switched on. */
  const Sample := Plain.(authUserPass := true)

  lemma PlainUnset()
    ensures NothingOptional(Plain)
  {
    assert forall f :: f != Dev ==> StrOf(Plain, f) == StrOf(Empty, f);
    assert forall f :: FlagOf(Plain, f) == FlagOf(Empty, f);
    assert forall f :: IntOf(Plain, f) == IntOf(Empty, f);
    assert forall b :: BlobOf(Plain, b) == BlobOf(Empty, b);
  }

  lemma SampleRemoteLine()
    ensures RemoteLines(Sample.remotes) == ["remote vpn.example.com 1194 udp"]
  {
    assert FormatInt(1194) == "1194";
    assert RemoteLine(Server) == "remote vpn.example.com 1194 udp";
    assert Sample.remotes[1..] == [];
  }

  /** Of the guarded directives, only `auth-user-pass` is printed for the sample. */
  lemma SampleOptionLines()
    ensures OptionLines(Sample) == ["auth-user-pass"]
  {
    var head, tail := Settings[..17], Settings[17..];
    assert Settings == head + tail;
    SettingsLinesAppend(Sample, head, tail);
    AuthUserPassIndex();
    PlainUnset();
    UnsetSettingsSilent(Plain);
    SilentSettings(Plain, Settings);
    forall s <- head
      ensures !Printed(Sample, s)
    {
      assert s in Settings;
      SamplePrinted(s);
    }
    SilentSettings(Sample, head);
    SampleTail();
  }

  /** Only the `auth-user-pass` switch tells the sample from the plain profile. */
  lemma SamplePrinted(s: Setting)
    ensures Printed(Sample, s) <==> Printed(Plain, s) || (s.Switch? && s.flag == AuthUserPass)
  {
  }

  /** `auth-user-pass` is the eighteenth guarded directive, followed only by `key-direction`. */
  lemma AuthUserPassIndex()
    ensures forall s <- Settings[..17] :: !(s.Switch? && s.flag == AuthUserPass)
    ensures Settings[17..] == [Switch("auth-user-pass", AuthUserPass), Number("key-direction", KeyDirection)]
  {
  }

  lemma SampleTail()
    ensures SettingsLines(Sample, [Switch("auth-user-pass", AuthUserPass), Number("key-direction", KeyDirection)])
            == ["auth-user-pass"]
  {
    var tail := [Switch("auth-user-pass", AuthUserPass), Number("key-direction", KeyDirection)];
    assert tail[1..][1..] == [];
    assert FlagOf(Sample, AuthUserPass) && IntOf(Sample, KeyDirection) == 0;
    assert SettingsLines(Sample, tail[1..]) == [];
  }

  /**
   * The export of the sample: the three fixed lines, its remote, then the
   * guarded `auth-user-pass`, and no blocks.
   */
  lemma ExportExample()
    ensures Export(Sample)
            == Unlines(["client", "dev tun", "dev-type tun", "remote vpn.example.com 1194 udp", "auth-user-pass"])
  {
    SampleDirectiveLines();
    SampleNoBlocks();
  }

  lemma SampleDirectiveLines()
    ensures DirectiveLines(Sample)
            == ["client", "dev tun", "dev-type tun", "remote vpn.example.com 1194 udp", "auth-user-pass"]
  {
    SampleRemoteLine();
    SampleOptionLines();
    assert EnvLines(Sample) == [];
    assert "dev " + "tun" == "dev tun" && "dev-type " + "tun" == "dev-type tun";
  }

  /** The sample has no blob, so no block follows the directives. */
  lemma SampleNoBlocks()
    ensures Export(Sample) == Unlines(DirectiveLines(Sample))
  {
    assert Sample.caCert == "" && Sample.tlsAuth == "" && Sample.cert == "" && Sample.key == "";
  }
}
