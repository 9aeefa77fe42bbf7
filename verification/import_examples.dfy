/**
 * A worked run of the capture chain on overlapping blocks. The chain
 * checks the flags in priority order (CA, TLS-auth, certificate, key) and
 * dispatches every captured line, so a `<key>` inside a `<ca>` block is
 * stored in the CA blob and also opens the key block, which then takes
 * the lines after `</ca>`.
 */
module ImportExamples {
  import opened OvpnTypes
  import opened OvpnImport
  import opened ImportProperties
  import opened RoundTrip

  const CaText := "<key>\nx\n"
  const KeyText := "y\n"

  const AfterCaOpen := Reader(Empty, true, false, false, false)
  const AfterKeyOpen := Reader(Empty.(caCert := "<key>\n"), true, false, false, true)
  const AfterX := Reader(Empty.(caCert := CaText), true, false, false, true)
  const AfterCaClose := Reader(Empty.(caCert := CaText), false, false, false, true)
  const AfterY := Reader(Empty.(caCert := CaText, key := KeyText), false, false, false, true)
  const AfterKeyClose := Reader(Empty.(caCert := CaText, key := KeyText), false, false, false, false)

  lemma OpenCa()
    ensures Step(Start, "<ca>") == Ok(AfterCaOpen)
  {
    BareWord("<ca>");
  }

  /** `<key>` inside the CA block: captured into the CA blob, and it raises the key flag. */
  lemma OpenKeyInsideCa()
    ensures Step(AfterCaOpen, "<key>") == Ok(AfterKeyOpen)
  {
    var tag := "<key>";
    OpenTagEffect(Key);
    var captured := AfterCaOpen.(o := WithBlob(Empty, Ca, Empty.caCert + tag + "\n"));
    assert Step(AfterCaOpen, tag) == Dispatch(captured, tag);
    assert captured.o == Empty.(caCert := "<key>\n");
    assert Dispatch(captured, tag) == Ok(captured.(inKey := true));
  }


  /** With both flags raised the CA block has priority. */
  lemma CaptureIntoCa()
    ensures Step(AfterKeyOpen, "x") == Ok(AfterX)
  {
    BareWord("x");
    assert "<key>\n" + "x" + "\n" == CaText;
  }

  lemma CloseCa()
    ensures Step(AfterX, "</ca>") == Ok(AfterCaClose)
  {
  }

  /** After `</ca>` the still-raised key flag captures the following line. */
  lemma CaptureIntoKey()
    ensures Step(AfterCaClose, "y") == Ok(AfterY)
  {
    BareWord("y");
    assert Empty.key + "y" + "\n" == KeyText;
  }

  lemma CloseKey()
    ensures Step(AfterY, "</key>") == Ok(AfterKeyClose)
  {
  }

  lemma NestedTagsExample()
    ensures Run(Start, ["<ca>", "<key>", "x", "</ca>", "y", "</key>"])
            == Ok(Reader(Empty.(caCert := "<key>\nx\n", key := "y\n"), false, false, false, false))
  {
    OpenCa();
    OpenKeyInsideCa();
    CaptureIntoCa();
    CloseCa();
    CaptureIntoKey();
    CloseKey();
    RunCons(AfterY, "</key>", [], AfterKeyClose);
    RunCons(AfterCaClose, "y", ["</key>"], AfterY);
    RunCons(AfterX, "</ca>", ["y", "</key>"], AfterCaClose);
    RunCons(AfterKeyOpen, "x", ["</ca>", "y", "</key>"], AfterX);
    RunCons(AfterCaOpen, "<key>", ["x", "</ca>", "y", "</key>"], AfterKeyOpen);
    RunCons(Start, "<ca>", ["<key>", "x", "</ca>", "y", "</key>"], AfterCaOpen);
  }
}
