# contact-capture, modelled in Dafny

contact-capture is a Telegram bot run as a batch job. It fetches the
pending updates. Each message is handled as follows:

- A business-card photo, a voice note or a text message becomes a raw note.
- A language model parses the note into a contact.
- The contact is enriched through Apollo and researched on the web through Exa.
- A language model writes a dossier from what was found.
- A page is created in a Notion contacts database.
- A confirmation is sent back to the chat.

Finally the job acknowledges the batch.

This project models the deterministic core of `capture.py`, one module per part:

- `Text` (`text.dfy`) holds the Python string operations the core relies on:
  - `str.strip()` with Python's whitespace set;
  - `split('\n')` and `'\n'.join`;
  - slicing with `[:n]`;
  - `str(int)`.
- `NotionBlocks` (`blocks.dfy`) covers the page body:
  - `_notion_paragraph` (chunks of at most 2000 characters);
  - `_notion_heading`;
  - `_parse_rich_text`, where the `re.split(r'(\*\*.*?\*\*)')` call is written out as a leftmost, lazy scanner;
  - `_markdown_to_notion_blocks`, where the whole-line bold pattern is written out by hand.
- `ReplyCleanup` (`cleanup.dfy`) covers the code-fence clean-up of the parsing reply in `parse_contact`, including its error case.
- `ExaResearch` (`research.dfy`) covers query building and URL de-duplication in `exa_research`.
- `NotionPage` (`page.dfy`) covers the payload of `create_notion_contact`:
  - the properties with their fallback chains;
  - the ordered, conditional child blocks.
- `ConfirmationMessage` (`confirm.dfy`) covers the confirmation sent after the page is written.
- `Pipeline` (`pipeline.dfy`) covers `process_update` and the batch loop of `main`:
  - the authorisation filter;
  - dispatch by message kind;
  - commands;
  - the preview;
  - stage gating, and which failures are answered and which raise;
  - the processed count and the acknowledgement offset.

Every outside call is a field of `Pipeline.Services`, a function from its inputs to an outcome that may be an exception:

- downloading and reading a card;
- downloading and transcribing audio;
- the parsing model and `json.loads`;
- Apollo, Exa and the synthesis model;
- the Notion POST.

The configuration (`TELEGRAM_CHAT_ID` and which API keys are set) is a `Config` value. Today's date is a parameter.

The loops of the source are methods proved against the functions above:

- `NotionParagraph`, `ParseRichText`, `MarkdownToBlocks`;
- `MergeHits` and `RunResearch`;
- `CreateNotionContact` and its `Append…` steps;
- `RunBatch`.

`process_update` has no loop. Its early returns are nested conditionals, so it is a function (`Pipeline.ProcessUpdate`) that returns a `Report` of what the call did.

## Model

| member | source | states |
|---|---|---|
| Text.Strip | capture.py:374 | the result has no Python whitespace at either end, and it is empty exactly when the line is all whitespace |
| Text.StripIsSlice | capture.py:374 | what `strip()` keeps is the slice of the line that starts after its leading whitespace; everything before and after that slice is whitespace, so with the ends `Strip` guarantees the result is exactly Python's |
| Text.Split | capture.py:373 | `split('\n')` gives at least one piece, no piece holds a newline, and joining the pieces with newlines gives the text back |
| Text.Take | capture.py:334 | `text[:n]` is the first `min(n, len)` characters of the text |
| Text.DecimalInjective | capture.py:511 | two chat ids with the same `str()` are the same id |
| NotionBlocks.ParagraphBlocks | capture.py:330-340 | empty text gives no block; each block is one plain paragraph run of 1 to 2000 characters; every chunk but the last is exactly 2000 long; the chunks concatenate back to the text |
| NotionBlocks.NotionParagraph | capture.py:330-340 | the `while text:` loop that cuts 2000-character chunks off the front returns exactly `ParagraphBlocks` of the text |
| NotionBlocks.NotionHeading | capture.py:343-348 | a heading_3 block with one non-bold run holding the text, untruncated |
| NotionBlocks.FindSpan | capture.py:354 | the leftmost match at or after the scan position: a found span is `**`, text with no newline and no `**` in it, then `**`, and no match starts between the scan position and it; `None` only when no match starts anywhere after the scan position |
| NotionBlocks.FindClose | capture.py:354 | the lazy `.*?\*\*` tail: a found close is the first `**` with no newline before it; none only when a newline comes before every later `**` |
| NotionBlocks.BoldSpanUnique | capture.py:354 | a match is fixed by where it starts: two matches from the same position end at the same place, since the lazy `.*?` stops at the first closing `**` |
| NotionBlocks.BoldSplit | capture.py:354 | the split has odd length, loses nothing (the parts concatenate to the input), and every odd-indexed part is a matched bold span |
| NotionBlocks.BoldSplitLeftmost | capture.py:354 | no match starts inside any even-indexed part, read against what is left of the text from that part on; with the odd parts being matches, this is the one split a left-to-right scan gives |
| NotionBlocks.PartRunsCases | capture.py:356-366 | an empty part gives nothing; an unmarked part gives one plain run of `part[:2000]`; a marked part gives one bold run of `part[2:-2][:2000]`, or nothing when that is empty |
| NotionBlocks.MarkedPartRuns | capture.py:358-364 | a part starting and ending with `**` gives nothing when it is at most 4 long (`**`, `***`, `****`), else one bold run of `part[2:-2]` cut to 2000 |
| NotionBlocks.RichText | capture.py:351-367 | the result is never empty, every run holds at most 2000 characters, and it is either the single empty run or has only non-empty runs |
| NotionBlocks.RichTextContent | capture.py:351-367 | for text of at most 2000 characters the runs hold exactly the text with the `**` markers of every part that starts and ends with `**` removed, matched spans included |
| NotionBlocks.ParseRichText | capture.py:351-367 | the loop over the split parts returns exactly `RichText` of the text |
| NotionBlocks.RichTextPlain | capture.py:365-367 | text of 1 to 2000 characters without `*` becomes one plain run of itself |
| NotionBlocks.RichTextBold | capture.py:358-364 | `**c**` with `c` non-empty, with no `*` or newline and at most 2000 long, becomes one bold run of `c` |
| NotionBlocks.RichTextLoneMarker | capture.py:358-367 | a lone `**` is dropped, and the result falls back to the single empty run |
| NotionBlocks.RichTextEmptySpan | capture.py:358-367 | `****` is dropped, and the result falls back to the single empty run |
| NotionBlocks.EmptySpanParts | capture.py:354-360 | `****` splits into an empty prefix, the span itself and an empty suffix, and the span yields no run |
| NotionBlocks.ClassifyLine | capture.py:378-413 | the block one stripped, non-blank dossier line becomes; its precedence is stated by ClassifyLineKinds and its run lengths by ClassifyLineRuns, and the `if`/`elif` method LineToBlock is proved equal to it |
| NotionBlocks.ClassifyLineKinds | capture.py:379-413 | precedence of the line classifier: heading_2 exactly for `# `; heading_3 exactly for `## ` or a whole-line bold span; bullet exactly for `- ` or `* `; never a divider |
| NotionBlocks.ClassifyLineRuns | capture.py:379-413 | headings carry one non-bold run of at most 2000 characters (truncated, not split); bullets and paragraphs carry at least one run |
| NotionBlocks.WholeBoldShape | capture.py:393 | a stripped line matching `^\*\*[^*]+\*\*\s*$` is `**`, at least one non-`*` character, `**`, with no `*` inside |
| NotionBlocks.BoldInnerNoStar | capture.py:394 | trimming `*` and spaces from both ends of such a line leaves no `*` |
| NotionBlocks.BoldHeadingTextClean | capture.py:394 | the heading text of a whole-line bold span has no `*` and does not end in `:` |
| NotionBlocks.BoldHeadingClean | capture.py:392-398 | a whole-line bold span becomes a heading_3 of its cleaned text, cut to 2000, with no `*` |
| NotionBlocks.NonBlankInRange | capture.py:374-376 | every index kept by the blank-line filter is in range and points at a non-blank line |
| NotionBlocks.NonBlankIncreasing | capture.py:373-376 | the kept indices are strictly increasing, so line order is kept |
| NotionBlocks.NonBlankComplete | capture.py:373-376 | every non-blank line is kept |
| NotionBlocks.LineBlocksOnePerLine | capture.py:372-415 | one block per kept index, the k-th block classifying the k-th non-blank line |
| NotionBlocks.BlocksFollowLines | capture.py:372-415 | for any stripped lines: one block per non-blank line, in line order, and no non-blank line skipped |
| NotionBlocks.MarkdownBlocks | capture.py:370-415 | `_markdown_to_notion_blocks` as a value: MarkdownBlocksPerLine states that its blocks are the classified non-blank stripped lines in order, MarkdownNoDivider that it holds no divider, and the loop MarkdownToBlocks is proved equal to it |
| NotionBlocks.MarkdownBlocksPerLine | capture.py:370-415 | the dossier's blocks are exactly its non-blank lines, in order, each classified |
| NotionBlocks.MarkdownNoDivider | capture.py:370-415 | a rendered dossier holds no divider block |
| NotionBlocks.LineToBlock | capture.py:378-413 | the `if`/`elif` chain for one stripped line gives `ClassifyLine` of it |
| NotionBlocks.MarkdownToBlocks | capture.py:370-415 | the loop that skips blank lines and appends one block per other line returns exactly `MarkdownBlocks` of the text |
| ReplyCleanup.IndexOf | capture.py:172 | a found newline is at or after the start and is the first one there |
| ReplyCleanup.LastFence | capture.py:172 | a found fence is the last fence starting before the bound |
| ReplyCleanup.BeforeLastFence | capture.py:172 | `rsplit("```", 1)[0]`: the whole text when it holds no fence; otherwise the prefix that ends where a fence starts, with no fence starting after it |
| ReplyCleanup.CleanReply | capture.py:170-172 | the clean-up fails exactly when the stripped reply opens with a fence and holds no newline (`split("\n", 1)[1]` raises) |
| ReplyCleanup.CleanUnfenced | capture.py:170-171 | a reply without an opening fence is only stripped |
| ReplyCleanup.FenceLineEnd | capture.py:172 | the first newline of a fenced reply ends its opening fence line |
| ReplyCleanup.ClosingFence | capture.py:172 | cutting at the last fence removes exactly the closing fence |
| ReplyCleanup.CleanFenced | capture.py:170-172 | a fenced reply, whatever its language tag and body, fences in the body included, cleans to the stripped body |
| ExaResearch.Queries | capture.py:228-233 | two queries when a company is known (`name company`, then the same with the interview/keynote suffix), otherwise the bare name; each starts with the name |
| ExaResearch.FirstOccurrences | capture.py:256-264 | the merged web results, one per URL in order of first appearance: stated by FirstOccurrencesUrls, FirstOccurrencesUnique and FirstOccurrencesAreFirst; the loop MergeHits is proved equal to it |
| ExaResearch.FirstOccurrencesUrls | capture.py:256-264 | the merged list names exactly the URLs of all returned hits |
| ExaResearch.FirstOccurrencesUnique | capture.py:256-264 | no two merged items share a url |
| ExaResearch.FirstIndices | capture.py:256-264 | the positions of the first hit with each URL: every such position and no other, in strictly increasing order |
| ExaResearch.FirstOccurrencesAreFirst | capture.py:256-264 | the merged list has one item per first-occurrence position, and its `i`-th item is the record of the hit at the `i`-th such position, so the hits' order is kept |
| ExaResearch.Research | capture.py:222-271 | `exa_research` as a value: nothing without the Exa key, otherwise the merged hits of the queries that answered 200; stated by FailuresContributeNothing and the FirstOccurrences lemmas; the loop RunResearch is proved equal to it |
| ExaResearch.FailuresContributeNothing | capture.py:238-268 | a non-200 or raising query contributes nothing: services that agree on successful replies gather the same hits |
| ExaResearch.MergeHits | capture.py:256-264 | the inner loop over one reply's hits extends the merged list and the seen set exactly as `FirstOccurrences` and `HitUrls` of the longer hit list |
| ExaResearch.RunResearch | capture.py:222-271 | the loop over the queries returns exactly `Research`: nothing without a key, else the first occurrences among all hits in query-then-rank order |
| NotionPage.Properties | capture.py:420-441 | the `properties` dictionary: its keys by PropertyKeys, its values by PropertyLookup, PropertyFallbacks and PropertyFlags; the method BuildProperties is proved equal to it |
| NotionPage.PropertyKeys | capture.py:428-441 | the seven fixed properties always, `Email` exactly when the chosen e-mail is non-empty, `LinkedIn` exactly when the enriched URL is non-empty |
| NotionPage.PropertyLookup | capture.py:428-441 | adding `Email` and `LinkedIn` leaves the fixed entries unchanged, and they hold the chosen e-mail and URL |
| NotionPage.PropertyFallbacks | capture.py:420-426 | Name from the parse only, else `Unknown Contact`; Title, Company and e-mail enriched, else parsed, else `""` |
| NotionPage.PropertyFlags | capture.py:432-435 | `Apollo Enriched` is set exactly when there is an enrichment; Status is `New`; Source and Date Met as given |
| NotionPage.SectionTitles | capture.py:453-454 | a section contributes its one heading and no divider |
| NotionPage.ApolloPartTitles | capture.py:467-482 | the Apollo part contributes the `Apollo Data` heading exactly when there is an enrichment |
| NotionPage.NoteSectionsLayout | capture.py:452-482 | after the dossier part the headings are Meeting Notes, Met At, Suggested Follow-Up, Raw Note, Apollo Data, each under its condition and in that order, with no divider |
| NotionPage.ContactChildren | capture.py:443-482 | the `children` list: its opening by DossierOpening, its dividers by DividerOnlyAfterDossier, its headings by TitlesAfterDossier, FollowUpShown, ApolloShown and RawNoteOnce |
| NotionPage.DossierOpening | capture.py:445-450 | with a dossier the page opens with the `Dossier` heading, the dossier's own blocks, then a divider |
| NotionPage.DividerOnlyAfterDossier | capture.py:443-482 | a divider appears on the page exactly when there is a dossier, and only right after its blocks |
| NotionPage.TitlesAfterDossier | capture.py:452-482 | the headings after the dossier part are exactly the expected ones |
| NotionPage.FollowUpShown | capture.py:460-462 | among the section headings after the dossier, `Suggested Follow-Up` appears exactly with a follow-up and no dossier |
| NotionPage.ApolloShown | capture.py:467-468 | among the section headings after the dossier, `Apollo Data` appears exactly with an enrichment |
| NotionPage.RawNoteOnce | capture.py:464-465 | among the section headings after the dossier, `Raw Note` appears on every page, exactly once |
| NotionPage.ApolloLines | capture.py:469-480 | the `apollo_lines` list: stated by ApolloLinesSpec; the method CollectApolloLines is proved equal to it |
| NotionPage.ApolloLinesSpec | capture.py:469-480 | the summary is empty exactly when none of title, e-mail, LinkedIn, company site, city, state or country is set; it has at most five lines; the title line comes first when there is a title, and the location line, joining the non-empty city, state and country with `, `, comes last |
| NotionPage.ApolloText | capture.py:481-482 | the Apollo paragraphs hold the summary lines joined by newlines |
| NotionPage.ContactPage | capture.py:418-499 | the payload posted to Notion, the properties and the children above; CreateNotionContact is proved to build it |
| NotionPage.BuildProperties | capture.py:420-441 | the property dictionary, built entry by entry, is `Properties` |
| NotionPage.AppendSection | capture.py:453-454 | appending a section adds its heading and its paragraphs |
| NotionPage.CollectApolloLines | capture.py:469-480 | the `apollo_lines` list, built field by field, is `ApolloLines` |
| NotionPage.AppendApolloData | capture.py:467-482 | appends exactly the Apollo part for an enrichment |
| NotionPage.AppendNoteSections | capture.py:452-482 | appends exactly the sections after the dossier, in their fixed order |
| NotionPage.CreateNotionContact | capture.py:418-483 | the payload, grown step by step, is `ContactPage` of the arguments |
| ConfirmationMessage.ShownNameAsWritten | capture.py:642 | the name as the code prints it, the as-written half of the Findings row; ShownNameDiscrepancy states where it differs from ShownName |
| ConfirmationMessage.ShownName | capture.py:642 | the header name is never empty: the parsed name when truthy, else `Unknown` |
| ConfirmationMessage.ShownNameDiscrepancy | capture.py:642 | the name as the code prints it differs from the intended one exactly for a `null` or empty name |
| ConfirmationMessage.Header | capture.py:642-649 | the first line, name in bold then the title; ConfirmationShape states its opening (it uses the corrected fallback, see Left out) |
| ConfirmationMessage.ConfirmationText | capture.py:642-664 | the confirmation sent, its lines joined by newlines; the lines are stated by ConfirmationShape, ConfirmationStatus, ConfirmationContacts and UnenrichedContacts |
| ConfirmationMessage.ConfirmationShape | capture.py:647-664 | the message opens with `*name*` and the optional title, ends with the link to the page, and has 2 to 7 lines |
| ConfirmationMessage.ConfirmationStatus | capture.py:656-659 | `Dossier ready in Notion` exactly with a dossier; the no-match warning exactly with neither a dossier nor an enrichment |
| ConfirmationMessage.ConfirmationContacts | capture.py:652-655 | an enriched e-mail and LinkedIn URL are shown |
| ConfirmationMessage.UnenrichedContacts | capture.py:652-655 | without an enrichment no e-mail or LinkedIn line is shown, whatever the parse says |
| Pipeline.Preview | capture.py:580 | the note itself up to 80 characters; otherwise its first 80 characters and `...` |
| Pipeline.Excerpts | capture.py:288-293 | web results numbered from 1, with title and url kept and text cut to its first 1000 characters |
| Pipeline.Admit | capture.py:503-577 | the intake of `process_update`: which chat is served and what note is captured; stated by ForeignChatIgnored, OneChatServed, TextAdmitted and CommandsShortCircuit |
| Pipeline.ReadMessage | capture.py:521-577 | the photo, voice or audio, and text branches; stated by DispatchOrder and TextNoteCaptured |
| Pipeline.ParseNote | capture.py:138-175 | `parse_contact` and the `.get` after it: the parse fails when the request raises, the clean-up fails or the JSON does not decode; a decoded value that is not an object is kept apart, and RaisesExactlyWhen states that it makes `process_update` raise |
| Pipeline.ForeignChatIgnored | capture.py:511-513 | an update from a chat other than the configured one has no effect at all |
| Pipeline.OneChatServed | capture.py:511-513 | with a chat configured, every update that has an effect comes from that same chat |
| Pipeline.RunPipeline | capture.py:579-664 | the numbered stages of `process_update` for a captured note; stated by PipelineOpens, NamelessSkipsLookups, NamedConsultsLookups, KeyGate, SynthesisGate, SubmissionGate, NotionOutcome and WithoutKeys |
| Pipeline.PipelineOpens | capture.py:579-581 | a captured note is announced first, with its preview |
| Pipeline.NamelessSkipsLookups | capture.py:593-619 | without a contact parsed with a truthy name, Apollo and Exa are never consulted: replacing those two services leaves the whole outcome unchanged |
| Pipeline.NamedConsultsLookups | capture.py:593-619 | for a contact parsed with a truthy name, the enrichment is Apollo's answer when the key is set and the call did not raise (none otherwise), and the web results are those of the searches on that name |
| Pipeline.KeyGate | capture.py:178-226 | an enrichment or web results exist only for a contact parsed with a truthy name, and only when their key is set |
| Pipeline.SynthesisGate | capture.py:621-629 | synthesis is requested exactly when there are web results or an enrichment; a dossier exists only when requested |
| Pipeline.SubmissionGate | capture.py:631-634 | the Notion write happens exactly for a parsed contact, with the note and what the stages produced |
| Pipeline.NotionOutcome | capture.py:631-664 | after the Notion write exactly one more reply follows: the confirmation with the new page's URL, or the failure notice; nothing is raised |
| Pipeline.StageGating | capture.py:593-634 | all the gates above, for any update |
| Pipeline.WithoutKeys | capture.py:622-634 | without the Apollo and Exa keys there is never a synthesis or a dossier, and every page says it was not enriched |
| Pipeline.DispatchOrder | capture.py:521-577 | a photo wins over a voice note, which wins over text |
| Pipeline.TextAdmitted | capture.py:503-562 | a plain text message from an admitted chat is captured unchanged as a text note |
| Pipeline.TextNoteCaptured | capture.py:558-581 | a plain text message becomes the raw note unchanged, and the first reply previews it |
| Pipeline.CommandsShortCircuit | capture.py:562-575 | a text starting with `/` is answered with help exactly for `/start` or `/help` (surrounding blanks allowed), and otherwise ignored; no note is captured |
| Pipeline.ProcessUpdate | capture.py:503-664 | `process_update` as a value: the intake, then the pipeline; stated by RaisesExactlyWhen and StageGating |
| Pipeline.RaisesExactlyWhen | capture.py:503-591 | `process_update` raises exactly when a download, card reading or transcription raised, or when the parsed JSON is not an object |
| Pipeline.Processed | capture.py:677-685 | the processed count never exceeds the number of updates |
| Pipeline.AllProcessed | capture.py:677-689 | every update counts as processed exactly when none of them raised |
| Pipeline.RunBatch | capture.py:667-689 | the loop counts the updates that did not raise; it acknowledges `last update_id + 1` when there were updates and the last one has an `update_id`, whatever happened to the updates; otherwise it acknowledges nothing, and it raises exactly when the last update has no `update_id` (an earlier one without an id is handled as usual) |

## Left out

- HTTP traffic is not modelled; each call is an outcome supplied by `Services`. This covers:
  - the Telegram get, confirm, send and getFile endpoints;
  - Whisper;
  - the Anthropic vision, parsing and synthesis requests;
  - the Apollo and Exa POSTs;
  - the Notion POST.
  `send_message` is assumed not to fail.
- File downloads, temporary files and base64 encoding of images are part of the `readCard` and `transcribe` services.
- The Apollo response normalisation (capture.py:197-217) is part of the `apollo` service. Its result is either a match or `None`.
- `json.loads` and `json.dumps` are not modelled. The decoded reply is an object, another JSON value, or an error.
- JSON `null` and an absent key are not told apart in `Contact`. Non-string JSON values in a contact are not modelled.
- JSON `null` and an absent key are not told apart in an Exa hit either. In the code a `null` url is kept as an entry of its own, apart from a missing one (`""`). A `null` text makes the synthesis prompt raise inside its `try`, which leaves no dossier. The model reads both as missing.
- ConfirmationMessage.Header: uses the corrected name fallback (see Findings). For a parsed name that is `null` or `""` the modelled header shows `*Unknown*`, where capture.py:642 prints `*None*` or `**`.
- NotionBlocks.RichTextContent: stated only for text of at most 2000 characters. A longer part is cut to 2000 characters, as `PartRunsCases` states.
- `datetime.now` is not modelled; today's date is a parameter.
- Environment variables and module globals become `Config`.
- Logging, `print` and `traceback` are not modelled.
- The wording of the prompts is not modelled, nor the text of the help, voice-key, transcription, parse-failure and Notion-failure messages. These replies are kinds of `Reply`; the text of the Notion exception is dropped.
- The `Processing: _..._` message keeps only its preview.
- Exceptions in `exa_research` are modelled per query, as the source catches them. An exception in the middle of a reply's result list (a malformed hit) is modelled as the whole query raising, so its earlier hits are not kept.
- An update whose `message` is JSON `null` is not modelled.
- A photo or voice object without `file_id` is part of the download service raising.
- `setup_notion.py` is not part of this model. It posts a fixed database schema.

## Findings

| source | as written | input that shows it | evidently intended | confidence | as-written member | corrected member |
|---|---|---|---|---|---|---|
| capture.py:642 | `parsed.get("name", "Unknown")` falls back only when the key is missing. A `null` name is printed by the f-string as `None`, and an empty one as nothing. | The parsing reply `{"name": null, ...}`, which the parsing prompt asks for when no name is mentioned, gives the header `*None*`. | The header shows `Unknown` whenever there is no name, matching the page title's `Unknown Contact` fallback (capture.py:420). | medium; not executed | ConfirmationMessage.ShownNameAsWritten, exhibited by ConfirmationMessage.ShownNameDiscrepancy | ConfirmationMessage.ShownName, used by ConfirmationMessage.Header |
