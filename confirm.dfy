/** The Telegram message `process_update` sends once the contact page
    exists: a header with the contact's name and title, then optional lines
    for the company, the enriched e-mail and LinkedIn profile, the dossier
    status, the follow-up, and finally the link to the new page. */
module ConfirmationMessage {
  import opened Wrappers
  import opened Text
  import opened NotionPage

  /** A member of the decoded JSON object as `dict.get` sees it. */
  datatype Field = Missing | Null | Str(s: string)

  /** How the rest of the model reads a member: absent and `null` alike. */
  function FieldValue(f: Field): (r: Option<string>)
    ensures r.None? <==> !f.Str?
  {
    if f.Str? then Some(f.s) else None
  }

  /** The name shown in the header as the code computes it:
      `parsed.get("name", "Unknown")` falls back only when the key is
      missing, and an f-string prints a `null` name as `None`. */
  function ShownNameAsWritten(name: Field): string {
    match name
    case Missing => "Unknown"
    case Null => "None"
    case Str(s) => s
  }

  /** The name shown in the header: the parsed name, or `Unknown` when
      there is none, the same fallback the page title uses. */
  function ShownName(name: Option<string>): (r: string)
    ensures r != ""
    ensures Truthy(name) ==> r == name.value
  {
    Or(name, "Unknown")
  }

  /** The header differs from the intended one exactly when the language
      model answers `"name": null` (shown as `None`) or `"name": ""` (shown
      as nothing), the very cases where the prompt asks for `null`. */
  lemma ShownNameDiscrepancy(f: Field)
    ensures ShownNameAsWritten(f) != ShownName(FieldValue(f)) <==> f == Null || f == Str("")
  {
    if f == Null {
      assert ShownNameAsWritten(f)[1] == 'o' != ShownName(None)[1];
    }
  }

  const Dash: string := " \U{2014} "
  const DossierReady: string := "\nDossier ready in Notion"
  const NoMatch: string := "(" + "no Apollo match \U{2014} manual lookup may be needed)"

  function OpenLink(url: string): string {
    "\n[Open in Notion](" + url + ")"
  }

  /** The first line: the name in bold, then the title when there is one,
      taken from the enrichment first as on the page. */
  function Header(parsed: Contact, enriched: Option<Enrichment>): string {
    var title := ContactTitle(parsed, enriched);
    "*" + ShownName(parsed.name) + "*" + (if title != "" then Dash + title else "")
  }

  /** The dossier status line: ready when there is a dossier, otherwise a
      warning only when nothing was enriched either. */
  function StatusLines(enriched: Option<Enrichment>, dossier: Option<string>): seq<string> {
    if Truthy(dossier) then [DossierReady]
    else if enriched.None? then [NoMatch]
    else []
  }

  /** The lines between the header and the status line. */
  function DetailLines(parsed: Contact, enriched: Option<Enrichment>): seq<string> {
    var e := EnrichedOrEmpty(enriched);
    (if Truthy(parsed.company) then ["_" + parsed.company.value + "_"] else [])
    + (if enriched.Some? && Truthy(e.email) then ["Email: " + e.email.value] else [])
    + (if enriched.Some? && Truthy(e.linkedinUrl) then ["[LinkedIn](" + e.linkedinUrl.value + ")"] else [])
  }

  /** The message's lines, in order. */
  function ConfirmationLines(parsed: Contact, enriched: Option<Enrichment>, dossier: Option<string>,
                             url: string): seq<string>
  {
    [Header(parsed, enriched)] + DetailLines(parsed, enriched) + StatusLines(enriched, dossier)
    + (if Truthy(parsed.followUp) then ["\n_" + parsed.followUp.value + "_"] else [])
    + [OpenLink(url)]
  }

  /** The message sent: the lines joined by newlines. */
  function ConfirmationText(parsed: Contact, enriched: Option<Enrichment>, dossier: Option<string>,
                            url: string): string
  {
    Join(ConfirmationLines(parsed, enriched, dossier, url), "\n")
  }

  /** A string cannot start with a prefix whose first character it lacks. */
  lemma FirstDiffers(s: string, prefix: string)
    requires prefix != [] && s != [] && s[0] != prefix[0]
    ensures !StartsWith(s, prefix)
  {
  }

  /** The detail lines start with `_` (company), `E` (e-mail) or `[`
      (LinkedIn). */
  lemma DetailMarks(parsed: Contact, enriched: Option<Enrichment>)
    ensures forall k :: 0 <= k < |DetailLines(parsed, enriched)| ==>
      |DetailLines(parsed, enriched)[k]| >= 2 && DetailLines(parsed, enriched)[k][0] in "_E["
  {
  }

  /** The message opens with the header and closes with the link to the
      page, and holds at most seven lines. */
  lemma ConfirmationShape(parsed: Contact, enriched: Option<Enrichment>, dossier: Option<string>,
                          url: string)
    ensures 2 <= |ConfirmationLines(parsed, enriched, dossier, url)| <= 7
    ensures ConfirmationLines(parsed, enriched, dossier, url)[0] == Header(parsed, enriched)
    ensures StartsWith(Header(parsed, enriched), "*" + ShownName(parsed.name) + "*")
    ensures ConfirmationLines(parsed, enriched, dossier, url)[|ConfirmationLines(parsed, enriched, dossier, url)| - 1]
      == OpenLink(url)
  {
    var h := Header(parsed, enriched);
    var p := "*" + ShownName(parsed.name) + "*";
    assert h[..|p|] == p;
  }

  /** The lines other than the status line are neither status line: the
      header starts with `*`, the details with `_`, `E` or `[`, the
      follow-up and the link with a newline then `_` or `[`. */
  lemma OtherLines(parsed: Contact, enriched: Option<Enrichment>, url: string)
    ensures DossierReady != Header(parsed, enriched) && NoMatch != Header(parsed, enriched)
    ensures DossierReady !in DetailLines(parsed, enriched) && NoMatch !in DetailLines(parsed, enriched)
    ensures DossierReady != OpenLink(url) && NoMatch != OpenLink(url)
    ensures Truthy(parsed.followUp) ==>
      DossierReady != "\n_" + parsed.followUp.value + "_" && NoMatch != "\n_" + parsed.followUp.value + "_"
  {
    assert DossierReady[0] == '\n' && DossierReady[1] == 'D';
    assert NoMatch[0] == '(';
    assert Header(parsed, enriched)[0] == '*';
    DetailMarks(parsed, enriched);
    assert OpenLink(url)[1] == '[';
  }

  /** `Dossier ready in Notion` is shown exactly when there is a dossier;
      the no-match warning exactly when there is neither a dossier nor an
      enrichment; never both. */
  lemma ConfirmationStatus(parsed: Contact, enriched: Option<Enrichment>, dossier: Option<string>,
                           url: string)
    ensures DossierReady in ConfirmationLines(parsed, enriched, dossier, url) <==> Truthy(dossier)
    ensures NoMatch in ConfirmationLines(parsed, enriched, dossier, url) <==> !Truthy(dossier) && enriched.None?
  {
    var follow := if Truthy(parsed.followUp) then ["\n_" + parsed.followUp.value + "_"] else [];
    var status := StatusLines(enriched, dossier);
    assert ConfirmationLines(parsed, enriched, dossier, url)
      == [Header(parsed, enriched)] + DetailLines(parsed, enriched) + status + follow + [OpenLink(url)];
    OtherLines(parsed, enriched, url);
    assert DossierReady != NoMatch by {
      assert NoMatch[0] == '(';
    }
    assert DossierReady in status <==> Truthy(dossier);
    assert NoMatch in status <==> !Truthy(dossier) && enriched.None?;
  }

  /** For an enriched contact the message shows the enriched e-mail and
      LinkedIn profile, when present. */
  lemma ConfirmationContacts(parsed: Contact, e: Enrichment, dossier: Option<string>, url: string)
    ensures Truthy(e.email) ==> "Email: " + e.email.value in ConfirmationLines(parsed, Some(e), dossier, url)
    ensures Truthy(e.linkedinUrl) ==>
      "[LinkedIn](" + e.linkedinUrl.value + ")" in ConfirmationLines(parsed, Some(e), dossier, url)
  {
    var details := DetailLines(parsed, Some(e));
    assert ConfirmationLines(parsed, Some(e), dossier, url)
      == [Header(parsed, Some(e))] + details + StatusLines(Some(e), dossier)
         + (if Truthy(parsed.followUp) then ["\n_" + parsed.followUp.value + "_"] else [])
         + [OpenLink(url)];
    assert Truthy(e.email) ==> "Email: " + e.email.value in details;
    assert Truthy(e.linkedinUrl) ==> "[LinkedIn](" + e.linkedinUrl.value + ")" in details;
  }

  /** Without an enrichment no line after the header is an e-mail or a
      LinkedIn line, whatever the parsed note says. */
  lemma UnenrichedContacts(parsed: Contact, dossier: Option<string>, url: string)
    ensures forall line :: line in ConfirmationLines(parsed, None, dossier, url)[1..] ==>
      !StartsWith(line, "Email: ") && !StartsWith(line, "[LinkedIn](")
  {
    var details := DetailLines(parsed, None);
    var status := StatusLines(None, dossier);
    var follow := if Truthy(parsed.followUp) then ["\n_" + parsed.followUp.value + "_"] else [];
    var rest := details + status + follow + [OpenLink(url)];
    assert ConfirmationLines(parsed, None, dossier, url)[1..] == rest;
    forall line | line in rest
      ensures !StartsWith(line, "Email: ") && !StartsWith(line, "[LinkedIn](")
    {
      if line in details {
        assert line[0] == '_';
      } else if line in status {
        assert line == NoMatch || line == DossierReady;
        assert NoMatch[0] == '(';
        assert line[0] in "(\n";
      } else if line in follow {
        assert line[0] == '\n';
      } else {
        assert line == OpenLink(url) && line[0] == '\n';
      }
      FirstDiffers(line, "Email: ");
      FirstDiffers(line, "[LinkedIn](");
    }
  }
}
