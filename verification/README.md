# OpenVPN profile codec

A Dafny model of the OpenVPN client-configuration codec in
`service/parser/ovpn.go`. The codec has two halves:

- `(*Ovpn).Export` renders an `Ovpn` record as directive text. It writes the
  optional `setenv UV_ID`/`UV_NAME` lines, then `client`, `dev` and
  `dev-type`. One `remote` line follows per entry. The guarded directives
  come next in a fixed order, each printed only when its string is non-empty,
  its flag is true or its number is positive. Last come the `<ca>`,
  `<tls-auth>`, `<cert>` and `<key>` inline blocks.
- `Import` parses such text line by line. It removes carriage returns, splits
  on line feeds and passes each line through a sanitizer.
  - Four independent booleans capture inline blocks.
  - Every line except a consumed closing tag is split on single spaces. Its
    lower-cased first token is dispatched through a switch. Each case checks
    its own arity and value, and silently drops a line that fails.
  - At the end an empty `Dev` or `DevType` becomes `"tun"`.

## Modules

- `Wrappers`: `Option`.
- `Strings`: ASCII lower-casing, Go's `strings.Split`, and joining lines with
  line feeds (`Unlines`), with the lemmas relating them.
- `Decimal`: `strconv.Atoi` as `ParseInt` (optional sign, at least one
  digit). `fmt.Sprintf("%d")` is `FormatInt`, proved to parse back.
- `OvpnTypes`: the `Remote` and `Ovpn` records, and field selectors by
  kind (string, integer, flag, blob) with their frame lemmas.
- `OvpnExport`: `Export` as a pure function over the settings table, which
  lists the guarded directives in source order.
- `OvpnImport`: the parser as functions.
  - The switch is a keyword table (`Directives`) with `EffectOf`.
  - `Step` is one iteration of the loop, including the capture chain.
  - `Run` folds `Step` over the lines, and `ImportSpec` is the whole
    function.
- `OvpnParser`: the parser as the source writes it.
  - `Import` is the loop, with four flags and a local record updated in
    place.
  - `CaptureLine` is the if/else capture chain.
  - `DispatchLine` splits the line, lower-cases its first token and walks
    the switch cases in source order, each with its own arity and value
    checks.
  - Each method is proved equal to its function in `OvpnImport`.
- `ImportProperties`: what the switch does, case by case, and what `Import`
  returns, field by field. It also covers how blocks are captured.
- `ImportExamples`: the nested-tag behaviour on a concrete input.
- `RoundTrip`: importing an export gives back the profile, up to the
  `dev`/`dev-type` quirk.
- `WorkedExamples`: concrete inputs and outputs.

Block lines are also dispatched. Inside a block, the exact closing tag lowers
the flag and ends the iteration (the source's `continue`), so it is not
dispatched. Every other line is appended to the blob with a line feed. It is
then tokenized and dispatched like any other line, so a `<key>` line inside
`<ca>` raises the key flag while the CA flag keeps priority. Opening tags are
recognized by the lower-cased first token. Closing tags must match exactly.

Some behaviours of the code are easy to misread:

- One might expect `dev-type` to set `DevType`. The code sets `Dev`, and no
  directive writes `DevType` or `BlockOutsideDns`.
  - An imported profile therefore always has `DevType == "tun"` and
    `BlockOutsideDns == false`.
  - The exported `dev-type` line overrides the `dev` line.
  - So the round trip returns `dev := devType`. It is the identity exactly
    when both are `"tun"` and `BlockOutsideDns` is false.
- A bare `dev` or `dev-type` line indexes a token that is not there. In Go
  this is an index-out-of-range panic. The model returns
  `IndexOutOfRange(line)` for it, and proves that this is the only way the
  import fails.
- A block is written as `<tag>\n` + blob + `</tag>\n` with no line feed added
  before the closing tag. Only a blob that ends in a line feed reads back
  unchanged.

## Model

| member | source | states |
|---|---|---|
| OvpnParser.Import | service/parser/ovpn.go:141-484 | the imperative loop, with its four flags and in-place record, returns exactly the fold of the per-line step followed by the defaulting |
| OvpnParser.CaptureLine | service/parser/ovpn.go:156-180 | the if/else capture chain either consumes a closing tag as a whole step, or appends the line to the active blob and leaves it to the switch |
| OvpnParser.DispatchLine | service/parser/ovpn.go:182-473 | splitting on spaces, lower-casing the first token and walking the switch cases in order gives exactly the table-driven dispatch: an opening tag raises its flag, a bare dev/dev-type panics, anything else applies its effect, and an unknown keyword changes nothing |
| OvpnParser.SwitchTagsToRemote | service/parser/ovpn.go:186-266 | the cases from the opening tags to remote, with setenv's three tokens, dev's missing argument and remote's four tokens, parsed port and protocol, agree with the table; any other keyword is passed on |
| OvpnParser.SwitchRemoteRandomToPushPeerInfo | service/parser/ovpn.go:267-316 | the flag cases set their flag whatever follows, cipher and auth need two tokens, verb and mute a parsed integer; any other keyword is passed on |
| OvpnParser.SwitchPingToRcvBuf | service/parser/ovpn.go:317-412 | each timer and buffer case stores its parsed two-token value, ping-restart into PingExit; any other keyword is passed on |
| OvpnParser.SwitchRemoteCertTlsToKeyDirection | service/parser/ovpn.go:413-473 | remote-cert-tls accepts server, comp-lzo on stores lzo, compress accepts lzo or lz4, auth-user-pass sets its flag, key-direction stores a parsed integer; any other keyword is passed on |
| OvpnImport.Defaults | service/parser/ovpn.go:476-481 | an empty Dev or DevType becomes "tun", values already set are kept, and no other field changes |
| Decimal.FormatInt | service/parser/ovpn.go:82-84 | the decimal text of a number parses back to that number; it is the digits of the magnitude with no leading zero (except for 0 itself), with a minus sign exactly for a negative number and never a plus sign |
| Strings.StripCarriageReturns | service/parser/ovpn.go:151 | the result holds no carriage return, never grows, and leaves text without one unchanged |
| Strings.StripAppend | service/parser/ovpn.go:151 | removal distributes over concatenation, so the result is the input with each carriage return deleted and all else kept in order |
| Strings.StripOne | service/parser/ovpn.go:151 | a single character is dropped exactly when it is a carriage return |
| Strings.Split | service/parser/ovpn.go:153 | a split always has at least one piece, so the first token read at line 184 exists |
| Strings.SplitAtFirst | service/parser/ovpn.go:182 | a separator-free prefix followed by the separator is the first piece, and the rest is split on its own |
| Strings.SplitPieces | service/parser/ovpn.go:182 | no piece of a split holds the separator, and every character of a piece comes from the text |
| Strings.Lower | service/parser/ovpn.go:184 | lower-casing keeps the length and maps each character through ASCII lower-casing |
| Decimal.ParseInt | service/parser/ovpn.go:237 | Atoi accepts only a digit string, or a sign followed by at least one digit (so a lone `+` or `-` is rejected); a plain digit string reads as its value, a signed one as its digits' value negated for `-` and unchanged for `+`, and only a leading minus gives a negative number |
| Decimal.CanonicalNumeral | service/parser/ovpn.go:237 | a digit string without a leading zero parses to a value whose decimal text is that string again |
| Strings.SplitUnlines | service/parser/ovpn.go:153 | splitting text made of whole lines gives back those lines, followed by the split of what comes after |
| Strings.UnlinesSplit | service/parser/ovpn.go:153 | joining the pieces of a split with line feeds gives the text with one more line feed: the two are inverse |
| OvpnExport.ExportOfUnsetFields | service/parser/ovpn.go:47-139 | with nothing optional set, the export is client, dev, dev-type and one remote line per entry, and nothing else |
| OvpnExport.RemoteLinesInOrder | service/parser/ovpn.go:59-66 | the export has one remote line per entry, in list order |
| OvpnExport.UnsetSettingsSilent | service/parser/ovpn.go:67-123 | a profile with every optional field unset prints no guarded directive |
| OvpnExport.SettingSilent | service/parser/ovpn.go:67-123 | a guarded directive prints nothing exactly when its string is empty, its flag false or its number at most 0, and otherwise one line headed by its keyword |
| OvpnExport.SilentSettings | service/parser/ovpn.go:67-123 | a run of guarded directives prints nothing exactly when every guard in it fails |
| RoundTrip.ExportAsLines | service/parser/ovpn.go:47-139 | the export is the directive lines followed by, for each non-empty blob, its opening tag, its body lines and its closing tag, each line ended by a line feed |
| ImportProperties.IntEffect | service/parser/ovpn.go:290-472 | a line sets an integer field iff its keyword names the field (ping-restart names PingExit), it has two tokens and the value parses; the value stored is the parsed one |
| ImportProperties.StrEffect | service/parser/ovpn.go:199-457 | a line sets a string field iff its case accepts its arity and value; setenv, cipher and auth store the token as written, dev and dev-type store tun or tap whatever follows, comp-lzo on stores lzo, and remote-cert-tls and compress store the lower-cased accepted value |
| ImportProperties.FlagEffect | service/parser/ovpn.go:267-460 | a line raises a flag iff its lower-cased first token is the flag's keyword, whatever follows |
| ImportProperties.RemoteEffect | service/parser/ovpn.go:232-266 | a line appends a remote iff it has four tokens, the port parses and the protocol lower-cases to udp/udp6/tcp/tcp6; the entry holds the parsed port and lower-case protocol |
| ImportProperties.PanicEffect | service/parser/ovpn.go:212-231 | a line panics iff it is dev or dev-type with no argument |
| ImportProperties.DroppedLines | service/parser/ovpn.go:186-473 | unknown keywords, setenv without three tokens or another variable, and remote-cert-tls, comp-lzo or compress with an unaccepted value leave reader and record unchanged |
| ImportProperties.DispatchedPanics | service/parser/ovpn.go:153-231 | dispatching fails iff some line is a bare dev/dev-type, and the failure names such a line |
| ImportProperties.DispatchedWithBlob | service/parser/ovpn.go:186-473 | setting a blob before or after dispatching gives the same outcome: no directive reads or writes a blob |
| ImportProperties.RunMatchesDispatched | service/parser/ovpn.go:153-473 | from any capture state, the loop and plain dispatch of every line agree on success, on the failing line, and on every field except the blobs |
| ImportProperties.ImportMatchesDispatched | service/parser/ovpn.go:141-484 | the import without its blobs is the defaulted dispatch of its lines, and both fail on the same line |
| ImportProperties.ImportFails | service/parser/ovpn.go:141-484 | the import fails iff some sanitized line is a bare dev/dev-type, and then it names such a line |
| ImportProperties.ImportedRemotes | service/parser/ovpn.go:232-266 | the imported remotes are those of the accepted remote lines, in input order |
| ImportProperties.ImportedInteger | service/parser/ovpn.go:290-472 | an integer field holds the value of its last well-formed line, or 0 |
| ImportProperties.ImportedString | service/parser/ovpn.go:199-457 | a string field other than Dev holds the value of its last accepted line, or "" |
| ImportProperties.ImportedFlag | service/parser/ovpn.go:267-460 | a flag is set iff its keyword starts some line |
| ImportProperties.ImportedDevice | service/parser/ovpn.go:212-481 | Dev is the last tun/tap of a dev or dev-type line, else "tun"; DevType is always "tun" and BlockOutsideDns false |
| ImportProperties.LastDevice | service/parser/ovpn.go:212-231 | dev and dev-type lines only ever store "tun" or "tap" |
| ImportProperties.DefaultsKeeps | service/parser/ovpn.go:476-481 | the defaulting writes only Dev and DevType |
| ImportProperties.CaptureStep | service/parser/ovpn.go:156-198 | a line inside a block, other than its closing tag, is appended with a line feed to that blob and then dispatched: an opening tag raises its own flag too, a bare dev/dev-type panics, and any other line applies its effect |
| ImportProperties.CaptureBody | service/parser/ovpn.go:156-182 | while a block is open, a body without its closing tag, opening tags or bare dev lines accumulates in the blob line by line, and each body line is also dispatched |
| ImportProperties.CaptureBlock | service/parser/ovpn.go:156-198 | an opening tag, a plain body and the exact closing tag append the body to the blob and leave the reader outside any block |
| OvpnImport.RunAppend | service/parser/ovpn.go:153-473 | the loop over two runs of lines is the loop over the first followed by the loop over the second, unless the first panics |
| ImportProperties.ClosingTagIsInert | service/parser/ovpn.go:186-198 | a closing tag that is not consumed matches no case of the switch |
| ImportExamples.OpenKeyInsideCa | service/parser/ovpn.go:156-198 | a `<key>` line inside the CA block is captured into the CA blob and also raises the key flag |
| ImportExamples.NestedTagsExample | service/parser/ovpn.go:156-198 | with `<ca>`, `<key>`, x, `</ca>`, y, `</key>`, the CA blob captures `<key>` and x, and the key blob captures y |
| RoundTrip.ImportExport | service/parser/ovpn.go:47-484 | importing the export of a representable profile returns it with dev taken from devType, devType "tun" and BlockOutsideDns false |
| RoundTrip.ImportExportIdentity | service/parser/ovpn.go:47-484 | the round trip is the identity iff Dev and DevType are both "tun" and BlockOutsideDns is false |
| RoundTrip.ExportSplit | service/parser/ovpn.go:47-139 | the export holds no carriage return and splits into its directive and block lines plus an empty last piece |
| RoundTrip.ExportRead | service/parser/ovpn.go:151-154 | with a sanitizer that keeps the exported lines, the parser reads exactly those lines and a final empty one |
| RoundTrip.DirectiveLinesExported | service/parser/ovpn.go:47-123 | every directive line of a representable profile is one the export writes, and holds no line break |
| RoundTrip.DirectivesImport | service/parser/ovpn.go:47-473 | dispatching the exported directives rebuilds the profile without blobs, dev taken from devType |
| RoundTrip.ReadDirectives | service/parser/ovpn.go:153-473 | the parser reads the exported directives outside any block and rebuilds the profile without blobs |
| RoundTrip.RunBlocks | service/parser/ovpn.go:125-198 | the four exported blocks, read into empty blobs, store the four bodies and close every block |
| RoundTrip.ReadBlocks | service/parser/ovpn.go:125-198 | after the directives, the blocks and the final empty line complete the profile |
| RoundTrip.KeyedSettings | service/parser/ovpn.go:67-123 | every guarded directive the export writes is a keyword the switch reads back into the same field |
| RoundTrip.DevTypeLast | service/parser/ovpn.go:56-58 | of the exported lines, dev-type is the last to write Dev, so Dev reads back as DevType |
| RoundTrip.OpensBlock | service/parser/ovpn.go:184-197 | a line opens a block exactly when its lower-cased first token is that block's opening tag, whatever follows |
| RoundTrip.OpenTagEffect | service/parser/ovpn.go:186-197 | each opening tag, alone on its line, opens its block |
| WorkedExamples.ReadText | service/parser/ovpn.go:151-154 | text made of whole lines reads back as those lines and an empty last piece |
| WorkedExamples.UpperCaseTagOpens | service/parser/ovpn.go:184-188 | `<CA>` opens the CA block, since the first token is lower-cased |
| WorkedExamples.TagWithArgumentOpens | service/parser/ovpn.go:182-188 | `<ca> x` opens the CA block; the rest of the line is ignored |
| WorkedExamples.DefaultFill | service/parser/ovpn.go:141-484 | a lone client line imports to the empty profile with Dev and DevType "tun" |
| WorkedExamples.UnknownDirectiveIgnored | service/parser/ovpn.go:186-473 | an unknown directive after client changes nothing |
| WorkedExamples.MalformedIntegerIgnored | service/parser/ovpn.go:317-328 | `ping abc` is dropped and Ping stays 0 |
| WorkedExamples.MalformedRemoteIgnored | service/parser/ovpn.go:232-235 | a remote line with a host and a port but no protocol adds no entry |
| WorkedExamples.BareDevImport | service/parser/ovpn.go:212-213 | client followed by a bare dev line ends in the index panic on that line |
| WorkedExamples.ExportExample | service/parser/ovpn.go:47-139 | a tun profile with one remote and `auth-user-pass` set exports as exactly five lines: client, dev tun, dev-type tun, its remote line, then auth-user-pass, with no blocks and no other optional directive |

## Left out

- `service/main.go` and the other files of the repository are not part of
  this model. They hold startup, supervision, HTTP handlers and UI.
- The sanitizer `FilterStr` is defined elsewhere and is not part of this
  model. It is a function parameter with no assumed behaviour. The round trip
  assumes it keeps every exported line.
- `strconv.Atoi` overflow and the 64-bit width of Go's `int` are not
  modelled. Integers are unbounded.
- `strings.ToLower` is modelled on ASCII letters only.
- A Go panic other than the bare `dev`/`dev-type` index cannot arise in
  this code, so no other failure is modelled.
- `Import` returns `*Ovpn` in Go. The model returns the record as a
  value, so aliasing of the result is not captured.
- `Representable` requires `Dev` in {tun, tap}, although any one-line `Dev`
  would export and read back the same way (the `dev-type` line overrides
  it). `Import` itself only ever produces tun or tap there.
- `Export` is a function. The model does not represent the step-by-step
  `output +=` accumulation, only its result.
- OvpnImport.Lines: its contract gives only the number of lines. What each
  line holds is stated by `RoundTrip.ExportRead` and
  `WorkedExamples.ReadText` for text whose lines the sanitizer keeps.
- RoundTrip.ImportExport: stated only for representable profiles and a
  sanitizer that keeps the exported lines. Outside those conditions there is
  no round trip; the field-by-field lemmas of `ImportProperties` still hold.
