/** The payload of `create_notion_contact`: the database properties of the
    new contact page and the ordered list of its child blocks. */
module NotionPage {
  import opened Wrappers
  import opened Text
  import opened NotionBlocks

  /** The fields the language model extracted from the note; `None` is a
      key that is absent or `null`. */
  datatype Contact = Contact(
    name: Option<string>, company: Option<string>, title: Option<string>,
    email: Option<string>, phone: Option<string>, event: Option<string>,
    context: Option<string>, followUp: Option<string>, companyDomain: Option<string>)

  /** The record `enrich_with_apollo` returns for a match. */
  datatype Enrichment = Enrichment(
    name: Option<string>, title: Option<string>, email: Option<string>,
    linkedinUrl: Option<string>, company: Option<string>, companyWebsite: Option<string>,
    city: Option<string>, state: Option<string>, country: Option<string>)

  /** How the note arrived. */
  datatype Source = TextMessage | VoiceNote | BusinessCard

  /** A page property value, by Notion property type. */
  datatype Property =
    | TitleProp(text: string)
    | RichTextProp(text: string)
    | DateProp(start: string)
    | SelectProp(option: string)
    | CheckboxProp(checked: bool)
    | EmailProp(address: string)
    | UrlProp(link: string)

  datatype Page = Page(properties: map<string, Property>, children: seq<Block>)

  function SourceName(s: Source): string {
    match s
    case TextMessage => "Text"
    case VoiceNote => "Voice Note"
    case BusinessCard => "Business Card"
  }

  /** Python truthiness of an optional string. */
  predicate Truthy(v: Option<string>) {
    v.Some? && v.value != ""
  }

  /** Python's `v or fallback`. */
  function Or(v: Option<string>, fallback: string): string
  {
    if Truthy(v) then v.value else fallback
  }

  /** `enriched or {}`: an enrichment with every field absent. */
  const NoEnrichment := Enrichment(None, None, None, None, None, None, None, None, None)

  function EnrichedOrEmpty(enriched: Option<Enrichment>): Enrichment {
    enriched.GetOr(NoEnrichment)
  }

  function ContactName(parsed: Contact): string {
    Or(parsed.name, "Unknown Contact")
  }

  function ContactTitle(parsed: Contact, enriched: Option<Enrichment>): string {
    Or(EnrichedOrEmpty(enriched).title, Or(parsed.title, ""))
  }

  function ContactCompany(parsed: Contact, enriched: Option<Enrichment>): string {
    Or(EnrichedOrEmpty(enriched).company, Or(parsed.company, ""))
  }

  function ContactEmail(parsed: Contact, enriched: Option<Enrichment>): string {
    Or(EnrichedOrEmpty(enriched).email, Or(parsed.email, ""))
  }

  function ContactLinkedIn(enriched: Option<Enrichment>): string {
    Or(EnrichedOrEmpty(enriched).linkedinUrl, "")
  }

  /** The page properties, before the optional `Email` and `LinkedIn`. */
  function BaseProperties(parsed: Contact, enriched: Option<Enrichment>, source: Source,
                          today: string): map<string, Property>
  {
    map[
      "Name" := TitleProp(ContactName(parsed)),
      "Company" := RichTextProp(ContactCompany(parsed, enriched)),
      "Title" := RichTextProp(ContactTitle(parsed, enriched)),
      "Date Met" := DateProp(today),
      "Source" := SelectProp(SourceName(source)),
      "Status" := SelectProp("New"),
      "Apollo Enriched" := CheckboxProp(enriched.Some?)
    ]
  }

  /** The page properties; `Email` and `LinkedIn` only when non-empty. */
  function Properties(parsed: Contact, enriched: Option<Enrichment>, source: Source,
                      today: string): map<string, Property>
  {
    var base := BaseProperties(parsed, enriched, source, today);
    var email := ContactEmail(parsed, enriched);
    var linkedin := ContactLinkedIn(enriched);
    var withEmail := if email != "" then base["Email" := EmailProp(email)] else base;
    if linkedin != "" then withEmail["LinkedIn" := UrlProp(linkedin)] else withEmail
  }

  const DividerBlock := Block(Divider, [])

  /** A titled section: its heading, then its text as paragraphs. */
  function Section(title: string, text: string): seq<Block> {
    [NotionHeading(title)] + ParagraphBlocks(text)
  }

  /** A section shown only when its field has a value. */
  function OptionalSection(title: string, field: Option<string>): seq<Block> {
    if Truthy(field) then Section(title, field.value) else []
  }

  /** The dossier, when there is one: heading, rendered blocks, divider. */
  function DossierPart(dossier: Option<string>): seq<Block> {
    if Truthy(dossier) then [NotionHeading("Dossier")] + MarkdownBlocks(dossier.value) + [DividerBlock]
    else []
  }

  /** The joined non-empty city, state and country. */
  function LocationParts(e: Enrichment): seq<string> {
    (if Truthy(e.city) then [e.city.value] else [])
    + (if Truthy(e.state) then [e.state.value] else [])
    + (if Truthy(e.country) then [e.country.value] else [])
  }

  /** The lines of the enrichment summary, in the fixed order title, email,
      LinkedIn, company site, location; each only when it has a value. */
  function ApolloLines(e: Enrichment): seq<string> {
    (if Truthy(e.title) then ["Title: " + e.title.value] else [])
    + (if Truthy(e.email) then ["Email: " + e.email.value] else [])
    + (if Truthy(e.linkedinUrl) then ["LinkedIn: " + e.linkedinUrl.value] else [])
    + (if Truthy(e.companyWebsite) then ["Company site: " + e.companyWebsite.value] else [])
    + (if LocationParts(e) != [] then ["Location: " + Join(LocationParts(e), ", ")] else [])
  }

  /** The enrichment section: its heading, then the summary lines joined
      by newlines as paragraphs, omitted when there are no lines. */
  function ApolloPart(enriched: Option<Enrichment>): seq<Block> {
    if enriched.None? then []
    else
      var lines := ApolloLines(enriched.value);
      [NotionHeading("Apollo Data")] + (if lines != [] then ParagraphBlocks(Join(lines, "\n")) else [])
  }

  /** The children after the dossier part. */
  function NoteSections(parsed: Contact, enriched: Option<Enrichment>, rawText: string,
                        dossier: Option<string>): seq<Block>
  {
    OptionalSection("Meeting Notes", parsed.context)
    + OptionalSection("Met At", parsed.event)
    + (if Truthy(dossier) then [] else OptionalSection("Suggested Follow-Up", parsed.followUp))
    + Section("Raw Note", rawText)
    + ApolloPart(enriched)
  }

  /** The page's child blocks, in order. */
  function ContactChildren(parsed: Contact, enriched: Option<Enrichment>, rawText: string,
                           dossier: Option<string>): seq<Block>
  {
    DossierPart(dossier) + NoteSections(parsed, enriched, rawText, dossier)
  }

  /** The page `create_notion_contact` posts to the contacts database. */
  function ContactPage(parsed: Contact, enriched: Option<Enrichment>, rawText: string,
                       source: Source, dossier: Option<string>, today: string): Page
  {
    Page(Properties(parsed, enriched, source, today), ContactChildren(parsed, enriched, rawText, dossier))
  }

  // ---------------------------------------------------------------------
  // Properties

  /** The properties a page carries: the seven fixed ones, `Email` only
      when some email is known, `LinkedIn` only when the enrichment has one. */
  lemma PropertyKeys(parsed: Contact, enriched: Option<Enrichment>, source: Source, today: string)
    ensures Properties(parsed, enriched, source, today).Keys
      == {"Name", "Company", "Title", "Date Met", "Source", "Status", "Apollo Enriched"}
         + (if ContactEmail(parsed, enriched) != "" then {"Email"} else {})
         + (if enriched.Some? && Truthy(enriched.value.linkedinUrl) then {"LinkedIn"} else {})
  {
  }

  /** Every fixed property keeps its base value; the optional ones hold
      the email and the LinkedIn URL. */
  lemma PropertyLookup(parsed: Contact, enriched: Option<Enrichment>, source: Source, today: string)
    ensures forall k :: k in BaseProperties(parsed, enriched, source, today) ==>
      k in Properties(parsed, enriched, source, today)
      && Properties(parsed, enriched, source, today)[k] == BaseProperties(parsed, enriched, source, today)[k]
    ensures "Email" in Properties(parsed, enriched, source, today) ==>
      Properties(parsed, enriched, source, today)["Email"] == EmailProp(ContactEmail(parsed, enriched))
    ensures "LinkedIn" in Properties(parsed, enriched, source, today) ==>
      Properties(parsed, enriched, source, today)["LinkedIn"] == UrlProp(enriched.value.linkedinUrl.value)
  {
    assert "Email" !in BaseProperties(parsed, enriched, source, today);
    assert "LinkedIn" !in BaseProperties(parsed, enriched, source, today);
  }

  /** The fallback chains: the name comes from the parsed note only; title,
      company and email prefer the enrichment, then the parsed note, then
      empty. */
  lemma PropertyFallbacks(parsed: Contact, enriched: Option<Enrichment>, source: Source, today: string)
    ensures BaseProperties(parsed, enriched, source, today)["Name"]
      == TitleProp(if Truthy(parsed.name) then parsed.name.value else "Unknown Contact")
    ensures BaseProperties(parsed, enriched, source, today)["Title"]
      == RichTextProp(if enriched.Some? && Truthy(enriched.value.title) then enriched.value.title.value
                      else if Truthy(parsed.title) then parsed.title.value else "")
    ensures BaseProperties(parsed, enriched, source, today)["Company"]
      == RichTextProp(if enriched.Some? && Truthy(enriched.value.company) then enriched.value.company.value
                      else if Truthy(parsed.company) then parsed.company.value else "")
    ensures ContactEmail(parsed, enriched)
      == (if enriched.Some? && Truthy(enriched.value.email) then enriched.value.email.value
          else if Truthy(parsed.email) then parsed.email.value else "")
  {
  }

  /** The flags: `Apollo Enriched` is set exactly when an enrichment came
      back, the status is always `New`, and source and date are as given. */
  lemma PropertyFlags(parsed: Contact, enriched: Option<Enrichment>, source: Source, today: string)
    ensures BaseProperties(parsed, enriched, source, today)["Apollo Enriched"] == CheckboxProp(enriched.Some?)
    ensures BaseProperties(parsed, enriched, source, today)["Status"] == SelectProp("New")
    ensures BaseProperties(parsed, enriched, source, today)["Source"] == SelectProp(SourceName(source))
    ensures BaseProperties(parsed, enriched, source, today)["Date Met"] == DateProp(today)
  {
  }

  // ---------------------------------------------------------------------
  // Children

  /** The texts of the heading_3 blocks, in order. */
  function Titles(blocks: seq<Block>): seq<string>
    decreases |blocks|
  {
    if blocks == [] then []
    else (if blocks[0].kind == Heading3 then [RunsText(blocks[0].richText)] else [])
         + Titles(blocks[1..])
  }

  predicate NoDivider(blocks: seq<Block>) {
    forall k :: 0 <= k < |blocks| ==> blocks[k].kind != Divider
  }

  lemma {:induction false} TitlesAppend(a: seq<Block>, b: seq<Block>)
    ensures Titles(a + b) == Titles(a) + Titles(b)
    decreases |a|
  {
    if a == [] {
      assert a + b == b;
    } else {
      assert (a + b)[0] == a[0];
      assert (a + b)[1..] == a[1..] + b;
      TitlesAppend(a[1..], b);
    }
  }

  lemma {:induction false} TitlesOfParagraphs(text: string)
    ensures Titles(ParagraphBlocks(text)) == []
    decreases |text|
  {
    if text != [] {
      var r := ParagraphBlocks(text);
      assert r[1..] == ParagraphBlocks(Drop(text, MaxText));
      TitlesOfParagraphs(Drop(text, MaxText));
    }
  }

  lemma SectionTitles(title: string, text: string)
    ensures Titles(Section(title, text)) == [title]
    ensures NoDivider(Section(title, text))
  {
    TitlesAppend([NotionHeading(title)], ParagraphBlocks(text));
    TitlesOfParagraphs(text);
    assert [NotionHeading(title)][1..] == [];
  }

  /** The headings a page shows after the dossier, in order. */
  function ExpectedTitles(parsed: Contact, enriched: Option<Enrichment>, dossier: Option<string>): seq<string> {
    (if Truthy(parsed.context) then ["Meeting Notes"] else [])
    + (if Truthy(parsed.event) then ["Met At"] else [])
    + (if Truthy(parsed.followUp) && !Truthy(dossier) then ["Suggested Follow-Up"] else [])
    + ["Raw Note"]
    + (if enriched.Some? then ["Apollo Data"] else [])
  }

  lemma ApolloPartTitles(enriched: Option<Enrichment>)
    ensures Titles(ApolloPart(enriched)) == (if enriched.Some? then ["Apollo Data"] else [])
    ensures NoDivider(ApolloPart(enriched))
  {
    if enriched.Some? {
      var lines := ApolloLines(enriched.value);
      var body := if lines != [] then ParagraphBlocks(Join(lines, "\n")) else [];
      TitlesAppend([NotionHeading("Apollo Data")], body);
      assert [NotionHeading("Apollo Data")][1..] == [];
      TitlesOfParagraphs(Join(lines, "\n"));
    }
  }

  lemma NoDividerAppend(a: seq<Block>, b: seq<Block>)
    requires NoDivider(a) && NoDivider(b)
    ensures NoDivider(a + b)
  {
    assert forall k :: |a| <= k < |a + b| ==> (a + b)[k] == b[k - |a|];
  }

  /** After the dossier part the page holds exactly the sections the note
      calls for, in the fixed order, and no divider. */
  lemma NoteSectionsLayout(parsed: Contact, enriched: Option<Enrichment>, rawText: string,
                           dossier: Option<string>)
    ensures Titles(NoteSections(parsed, enriched, rawText, dossier)) == ExpectedTitles(parsed, enriched, dossier)
    ensures NoDivider(NoteSections(parsed, enriched, rawText, dossier))
  {
    var ctx := OptionalSection("Meeting Notes", parsed.context);
    var ev := OptionalSection("Met At", parsed.event);
    var fu := if Truthy(dossier) then [] else OptionalSection("Suggested Follow-Up", parsed.followUp);
    var raw := Section("Raw Note", rawText);
    var ap := ApolloPart(enriched);
    if Truthy(parsed.context) { SectionTitles("Meeting Notes", parsed.context.value); }
    if Truthy(parsed.event) { SectionTitles("Met At", parsed.event.value); }
    if Truthy(parsed.followUp) && !Truthy(dossier) { SectionTitles("Suggested Follow-Up", parsed.followUp.value); }
    SectionTitles("Raw Note", rawText);
    ApolloPartTitles(enriched);
    TitlesAppend(ctx, ev);
    TitlesAppend(ctx + ev, fu);
    TitlesAppend(ctx + ev + fu, raw);
    TitlesAppend(ctx + ev + fu + raw, ap);
    NoDividerAppend(ctx, ev);
    NoDividerAppend(ctx + ev, fu);
    NoDividerAppend(ctx + ev + fu, raw);
    NoDividerAppend(ctx + ev + fu + raw, ap);
  }

  /** The shape of a page that opens with a dossier, for any dossier
      blocks `m` and any divider-free sections `rest` after them. */
  lemma {:induction false} OpeningShape(m: seq<Block>, rest: seq<Block>)
    requires NoDivider(m) && NoDivider(rest)
    ensures |[NotionHeading("Dossier")] + m + [DividerBlock] + rest| > |m| + 1
    ensures ([NotionHeading("Dossier")] + m + [DividerBlock] + rest)[0] == NotionHeading("Dossier")
    ensures ([NotionHeading("Dossier")] + m + [DividerBlock] + rest)[1..|m| + 1] == m
    ensures ([NotionHeading("Dossier")] + m + [DividerBlock] + rest)[|m| + 1] == DividerBlock
    ensures forall k :: 0 <= k < |[NotionHeading("Dossier")] + m + [DividerBlock] + rest| ==>
      (([NotionHeading("Dossier")] + m + [DividerBlock] + rest)[k].kind == Divider <==> k == |m| + 1)
  {
    var c := [NotionHeading("Dossier")] + m + [DividerBlock] + rest;
    assert forall k :: 1 <= k <= |m| ==> c[k] == m[k - 1];
    assert forall k :: |m| + 2 <= k < |c| ==> c[k] == rest[k - |m| - 2];
    assert c[1..|m| + 1] == m;
  }

  /** With a dossier the page opens with the `Dossier` heading, the
      dossier's blocks and a divider. */
  lemma DossierOpening(parsed: Contact, enriched: Option<Enrichment>, rawText: string,
                       dossier: Option<string>)
    requires Truthy(dossier)
    ensures |ContactChildren(parsed, enriched, rawText, dossier)| > |MarkdownBlocks(dossier.value)| + 1
    ensures ContactChildren(parsed, enriched, rawText, dossier)[0] == NotionHeading("Dossier")
    ensures ContactChildren(parsed, enriched, rawText, dossier)[1..|MarkdownBlocks(dossier.value)| + 1]
      == MarkdownBlocks(dossier.value)
    ensures ContactChildren(parsed, enriched, rawText, dossier)[|MarkdownBlocks(dossier.value)| + 1]
      == DividerBlock
  {
    NoteSectionsLayout(parsed, enriched, rawText, dossier);
    MarkdownNoDivider(dossier.value);
    OpeningShape(MarkdownBlocks(dossier.value), NoteSections(parsed, enriched, rawText, dossier));
  }

  /** A divider appears on the page exactly when there is a dossier, and
      only right after the dossier's blocks. */
  lemma DividerOnlyAfterDossier(parsed: Contact, enriched: Option<Enrichment>, rawText: string,
                                dossier: Option<string>)
    ensures forall k :: 0 <= k < |ContactChildren(parsed, enriched, rawText, dossier)| ==>
      (ContactChildren(parsed, enriched, rawText, dossier)[k].kind == Divider <==>
        Truthy(dossier) && k == |MarkdownBlocks(dossier.value)| + 1)
  {
    if Truthy(dossier) {
      DividerWithDossier(parsed, enriched, rawText, dossier);
    } else {
      NoDividerWithoutDossier(parsed, enriched, rawText, dossier);
    }
  }

  lemma DividerWithDossier(parsed: Contact, enriched: Option<Enrichment>, rawText: string,
                           dossier: Option<string>)
    requires Truthy(dossier)
    ensures forall k :: 0 <= k < |ContactChildren(parsed, enriched, rawText, dossier)| ==>
      (ContactChildren(parsed, enriched, rawText, dossier)[k].kind == Divider <==>
        k == |MarkdownBlocks(dossier.value)| + 1)
  {
    NoteSectionsLayout(parsed, enriched, rawText, dossier);
    MarkdownNoDivider(dossier.value);
    DividerPositions(MarkdownBlocks(dossier.value), NoteSections(parsed, enriched, rawText, dossier));
  }

  lemma NoDividerWithoutDossier(parsed: Contact, enriched: Option<Enrichment>, rawText: string,
                                dossier: Option<string>)
    requires !Truthy(dossier)
    ensures NoDivider(ContactChildren(parsed, enriched, rawText, dossier))
  {
    NoteSectionsLayout(parsed, enriched, rawText, dossier);
    assert ContactChildren(parsed, enriched, rawText, dossier) == NoteSections(parsed, enriched, rawText, dossier);
  }

  /** Where the dividers are in a page that opens with a dossier, for any
      dossier blocks `m` and sections `rest` without one. */
  lemma DividerPositions(m: seq<Block>, rest: seq<Block>)
    requires NoDivider(m) && NoDivider(rest)
    ensures forall k :: 0 <= k < |[NotionHeading("Dossier")] + m + [DividerBlock] + rest| ==>
      (([NotionHeading("Dossier")] + m + [DividerBlock] + rest)[k].kind == Divider <==> k == |m| + 1)
  {
    OpeningShape(m, rest);
  }

  /** After the dossier part, the page's headings are exactly the expected
      section titles, in order. */
  lemma TitlesAfterDossier(parsed: Contact, enriched: Option<Enrichment>, rawText: string,
                           dossier: Option<string>)
    ensures Titles(ContactChildren(parsed, enriched, rawText, dossier)[|DossierPart(dossier)|..])
      == ExpectedTitles(parsed, enriched, dossier)
  {
    var d := DossierPart(dossier);
    var rest := NoteSections(parsed, enriched, rawText, dossier);
    NoteSectionsLayout(parsed, enriched, rawText, dossier);
    assert (d + rest)[|d|..] == rest;
  }

  /** `Suggested Follow-Up` appears exactly when there is a follow-up and
      no dossier. */
  lemma FollowUpShown(parsed: Contact, enriched: Option<Enrichment>, dossier: Option<string>)
    ensures "Suggested Follow-Up" in ExpectedTitles(parsed, enriched, dossier)
      <==> Truthy(parsed.followUp) && !Truthy(dossier)
  {
  }

  /** `Apollo Data` appears exactly when there is an enrichment. */
  lemma ApolloShown(parsed: Contact, enriched: Option<Enrichment>, dossier: Option<string>)
    ensures "Apollo Data" in ExpectedTitles(parsed, enriched, dossier) <==> enriched.Some?
  {
  }

  /** `Raw Note` appears always, and once. */
  lemma RawNoteOnce(parsed: Contact, enriched: Option<Enrichment>, dossier: Option<string>)
    ensures multiset(ExpectedTitles(parsed, enriched, dossier))["Raw Note"] == 1
  {
  }

  /** The enrichment summary is empty exactly when the enrichment has no
      title, email, LinkedIn, company site or location; its lines carry
      their labels in the fixed order. */
  lemma ApolloLinesSpec(e: Enrichment)
    ensures ApolloLines(e) == [] <==>
      !Truthy(e.title) && !Truthy(e.email) && !Truthy(e.linkedinUrl) && !Truthy(e.companyWebsite)
      && !Truthy(e.city) && !Truthy(e.state) && !Truthy(e.country)
    ensures |ApolloLines(e)| <= 5
    ensures Truthy(e.title) ==> ApolloLines(e)[0] == "Title: " + e.title.value
    ensures LocationParts(e) != [] ==>
      ApolloLines(e)[|ApolloLines(e)| - 1] == "Location: " + Join(LocationParts(e), ", ")
  {
  }

  /** The Apollo Data paragraphs hold the summary lines joined by newlines. */
  lemma ApolloText(e: Enrichment)
    ensures FlatText(ApolloPart(Some(e))[1..]) == Join(ApolloLines(e), "\n")
  {
    var lines := ApolloLines(e);
    var body := if lines != [] then ParagraphBlocks(Join(lines, "\n")) else [];
    assert ApolloPart(Some(e))[1..] == body;
  }

  // ---------------------------------------------------------------------
  // The function itself

  /** The property dictionary of `create_notion_contact`: the fixed
      entries, then `Email` and `LinkedIn` when non-empty. */
  method BuildProperties(parsed: Contact, enriched: Option<Enrichment>, source: Source, today: string)
      returns (properties: map<string, Property>)
    ensures properties == Properties(parsed, enriched, source, today)
  {
    var name := Or(parsed.name, "Unknown Contact");
    var e := if enriched.Some? then enriched.value else NoEnrichment;
    var title := Or(e.title, Or(parsed.title, ""));
    var company := Or(e.company, Or(parsed.company, ""));
    var email := Or(e.email, Or(parsed.email, ""));
    var linkedin := Or(e.linkedinUrl, "");
    properties := map[
      "Name" := TitleProp(name),
      "Company" := RichTextProp(company),
      "Title" := RichTextProp(title),
      "Date Met" := DateProp(today),
      "Source" := SelectProp(SourceName(source)),
      "Status" := SelectProp("New"),
      "Apollo Enriched" := CheckboxProp(enriched.Some?)
    ];
    assert name == ContactName(parsed) && title == ContactTitle(parsed, enriched);
    assert company == ContactCompany(parsed, enriched);
    assert email == ContactEmail(parsed, enriched) && linkedin == ContactLinkedIn(enriched);
    assert properties == BaseProperties(parsed, enriched, source, today);
    if email != "" {
      properties := properties["Email" := EmailProp(email)];
    }
    if linkedin != "" {
      properties := properties["LinkedIn" := UrlProp(linkedin)];
    }
  }

  /** Appends a heading and the text's paragraphs. */
  method AppendSection(children: seq<Block>, title: string, text: string) returns (r: seq<Block>)
    ensures r == children + Section(title, text)
  {
    var paragraphs := NotionParagraph(text);
    r := children + [NotionHeading(title)];
    AppendAssoc(children, [NotionHeading(title)], paragraphs);
    r := r + paragraphs;
  }

  /** The `Apollo Data` part: the heading, then the summary lines built one
      by one and joined by newlines, as paragraphs when there is any line. */
  method AppendApolloData(children: seq<Block>, e: Enrichment) returns (r: seq<Block>)
    ensures r == children + ApolloPart(Some(e))
  {
    var lines := CollectApolloLines(e);
    r := children + [NotionHeading("Apollo Data")];
    var paragraphs: seq<Block> := [];
    if lines != [] {
      paragraphs := NotionParagraph(Join(lines, "\n"));
    }
    AppendAssoc(children, [NotionHeading("Apollo Data")], paragraphs);
    r := r + paragraphs;
  }

  /** The `apollo_lines` list, built one field at a time. */
  method CollectApolloLines(e: Enrichment) returns (lines: seq<string>)
    ensures lines == ApolloLines(e)
  {
    lines := [];
    if Truthy(e.title) { lines := lines + ["Title: " + e.title.value]; }
    if Truthy(e.email) { lines := lines + ["Email: " + e.email.value]; }
    if Truthy(e.linkedinUrl) { lines := lines + ["LinkedIn: " + e.linkedinUrl.value]; }
    if Truthy(e.companyWebsite) { lines := lines + ["Company site: " + e.companyWebsite.value]; }
    var location := LocationParts(e);
    if location != [] { lines := lines + ["Location: " + Join(location, ", ")]; }
  }

  /** The sections after the dossier, appended in their fixed order. */
  method AppendNoteSections(children: seq<Block>, parsed: Contact, enriched: Option<Enrichment>,
                            rawText: string, dossier: Option<string>) returns (r: seq<Block>)
    ensures r == children + NoteSections(parsed, enriched, rawText, dossier)
  {
    ghost var ctx := OptionalSection("Meeting Notes", parsed.context);
    ghost var ev := OptionalSection("Met At", parsed.event);
    ghost var fu := if Truthy(dossier) then [] else OptionalSection("Suggested Follow-Up", parsed.followUp);
    ghost var raw := Section("Raw Note", rawText);
    r := children;
    if Truthy(parsed.context) {
      r := AppendSection(r, "Meeting Notes", parsed.context.value);
    }
    assert r == children + ctx;
    if Truthy(parsed.event) {
      r := AppendSection(r, "Met At", parsed.event.value);
    }
    assert r == children + (ctx + ev) by { AppendAssoc(children, ctx, ev); }
    if Truthy(parsed.followUp) && !Truthy(dossier) {
      r := AppendSection(r, "Suggested Follow-Up", parsed.followUp.value);
    }
    assert r == children + (ctx + ev + fu) by { AppendAssoc(children, ctx + ev, fu); }
    r := AppendSection(r, "Raw Note", rawText);
    assert r == children + (ctx + ev + fu + raw) by { AppendAssoc(children, ctx + ev + fu, raw); }
    ghost var before := r;
    if enriched.Some? {
      r := AppendApolloData(r, enriched.value);
    }
    assert r == before + ApolloPart(enriched);
    AppendAssoc(children, ctx + ev + fu + raw, ApolloPart(enriched));
  }

  /** `create_notion_contact` up to the HTTP request: grows the property
      dictionary and the list of children step by step. */
  method CreateNotionContact(parsed: Contact, enriched: Option<Enrichment>, rawText: string,
                             source: Source, dossier: Option<string>, today: string)
      returns (page: Page)
    ensures page == ContactPage(parsed, enriched, rawText, source, dossier, today)
  {
    var properties := BuildProperties(parsed, enriched, source, today);
    var children: seq<Block> := [];
    if Truthy(dossier) {
      var rendered := MarkdownToBlocks(dossier.value);
      children := [NotionHeading("Dossier")] + rendered + [DividerBlock];
    }
    assert children == DossierPart(dossier);
    children := AppendNoteSections(children, parsed, enriched, rawText, dossier);
    assert children == ContactChildren(parsed, enriched, rawText, dossier);
    page := Page(properties, children);
  }
}
