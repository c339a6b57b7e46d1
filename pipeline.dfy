/** `process_update` and `main`: what the bot does with one Telegram update
    and with a batch of them. Every outside call (downloads, transcription,
    the language model, JSON decoding, enrichment, web search, the Notion
    API) is a field of `Services`; every message sent back is recorded, in
    order, as a `Reply`. */
module Pipeline {
  import opened Wrappers
  import opened Text
  import opened NotionBlocks
  import opened ReplyCleanup
  import opened ExaResearch
  import opened NotionPage
  import opened ConfirmationMessage

  /** The outcome of a call that may raise. */
  datatype Call<T> = Done(value: T) | Threw

  /** The environment: the one chat allowed to use the bot (empty or
      absent means any chat), and which optional API keys are set. */
  datatype Config = Config(allowedChat: Option<string>, openAiKey: bool, exaKey: bool, apolloKey: bool)

  /** What `json.loads` makes of the cleaned reply: an object, some other
      JSON value (a list, a number, `null`, ...), or a decoding error. */
  datatype Json = JObject(contact: Contact) | JOther | JInvalid

  /** One web result as the synthesis prompt lists it: numbered from 1,
      its text cut to 1000 characters. */
  datatype Excerpt = Excerpt(number: nat, title: string, url: string, text: string)

  /** Everything `synthesize_dossier` is given. */
  datatype SynthesisRequest = SynthesisRequest(
    rawText: string, contact: Contact, enriched: Option<Enrichment>, excerpts: seq<Excerpt>)

  /** The arguments of `create_notion_contact`, the date included; the
      page it posts is `ContactPage` of them. */
  datatype Submission = Submission(
    contact: Contact, enriched: Option<Enrichment>, rawText: string, source: Source,
    dossier: Option<string>, today: string)

  function SubmittedPage(s: Submission): Page {
    ContactPage(s.contact, s.enriched, s.rawText, s.source, s.dossier, s.today)
  }

  datatype Services = Services(
    readCard: string -> Call<string>,                 // download the photo, read the card
    transcribe: string -> Call<Option<string>>,       // download the audio, transcribe it
    complete: string -> Call<string>,                 // the model's reply to the parsing prompt
    decode: string -> Json,                           // json.loads
    apollo: (string, Option<string>) -> Call<Option<Enrichment>>,
    search: string -> SearchReply,
    synthesize: SynthesisRequest -> Call<string>,
    notion: Submission -> Call<string>)               // post SubmittedPage; the new page's URL

  /** A message (`chat.id`, `photo`, `voice`, `audio`, `text`, `caption`);
      a photo or a voice note is identified by its file id. */
  datatype Message = Message(
    chatId: Option<int>, photo: seq<string>, voice: Option<string>, audio: Option<string>,
    text: Option<string>, caption: Option<string>)

  /** An update; `update_id` may be missing from the decoded JSON. */
  datatype Update = Update(updateId: Option<int>, message: Option<Message>)

  /** The messages the bot sends back, by kind. */
  datatype Reply =
    | Help
    | VoiceNeedsKey
    | NotTranscribed
    | Processing(preview: string)
    | ParseFailed
    | NotionFailed
    | Confirmation(text: string)

  /** The raw note and where it came from. */
  datatype Note = Note(text: string, source: Source)

  /** What handling one update did: the replies sent, the note captured,
      the contact parsed, what the stages produced, what was handed to
      `create_notion_contact`, and whether `process_update` raised. */
  datatype Report = Report(
    replies: seq<Reply>,
    note: Option<Note>,
    contact: Option<Contact>,
    enriched: Option<Enrichment>,
    evidence: seq<Evidence>,
    synthesis: Option<SynthesisRequest>,
    dossier: Option<string>,
    submitted: Option<Submission>,
    raised: bool)

  const Quiet := Report([], None, None, None, [], None, None, None, false)

  /** The note's first 80 characters, with `...` when it was longer. */
  function Preview(raw: string): (p: string)
    ensures |raw| <= 80 ==> p == raw
    ensures |raw| > 80 ==> |p| == 83 && p[..80] == raw[..80] && p[80..] == "..."
  {
    Take(raw, 80) + (if |raw| > 80 then "..." else "")
  }

  /** `str(chat_id) != str(TELEGRAM_CHAT_ID)` when a chat is configured. */
  predicate Authorized(cfg: Config, chat: int) {
    !Truthy(cfg.allowedChat) || Decimal(chat) == cfg.allowedChat.value
  }

  /** How reading the message ended. */
  datatype Intake = Drop | Answer(reply: Reply) | Crash | Captured(note: Note)

  /** The three message kinds, tested in order: photo, then voice or audio,
      then text; anything else is dropped. */
  function ReadMessage(cfg: Config, svc: Services, m: Message): Intake {
    if m.photo != [] then
      match svc.readCard(m.photo[|m.photo| - 1])
      case Threw => Crash
      case Done(card) =>
        var raw := if Truthy(m.caption) then card + "\nAdditional context: " + m.caption.value else card;
        Captured(Note(raw, BusinessCard))
    else if m.voice.Some? || m.audio.Some? then
      if !cfg.openAiKey then Answer(VoiceNeedsKey)
      else
        match svc.transcribe(if m.voice.Some? then m.voice.value else m.audio.value)
        case Threw => Crash
        case Done(t) => if Truthy(t) then Captured(Note(t.value, VoiceNote)) else Answer(NotTranscribed)
    else if Truthy(m.text) then
      var raw := m.text.value;
      if StartsWith(raw, "/") then
        if Strip(raw) == "/start" || Strip(raw) == "/help" then Answer(Help) else Drop
      else Captured(Note(raw, TextMessage))
    else Drop
  }

  /** `parse_contact` and the `.get` that follows it. */
  datatype Parse = Unparsed | NotAnObject | Parsed(contact: Contact)

  function ParseNote(svc: Services, raw: string): Parse {
    match svc.complete(raw)
    case Threw => Unparsed
    case Done(reply) =>
      match CleanReply(reply)
      case Err(_) => Unparsed
      case Ok(cleaned) =>
        match svc.decode(cleaned)
        case JInvalid => Unparsed
        case JOther => NotAnObject
        case JObject(c) => Parsed(c)
  }

  /** `enrich_with_apollo` inside its `try`: nothing without a key, and an
      exception reads as no match. */
  function Enrich(cfg: Config, svc: Services, name: string, domain: Option<string>): Option<Enrichment> {
    if !cfg.apolloKey then None
    else match svc.apollo(name, domain)
      case Threw => None
      case Done(e) => e
  }

  /** The numbered, cut-down web results handed to the synthesis prompt. */
  function Excerpts(evidence: seq<Evidence>): (r: seq<Excerpt>)
    ensures |r| == |evidence|
    ensures forall i :: 0 <= i < |r| ==>
      r[i].number == i + 1 && r[i].title == evidence[i].title && r[i].url == evidence[i].url
      && r[i].text <= evidence[i].text
      && |r[i].text| == (if |evidence[i].text| <= 1000 then |evidence[i].text| else 1000)
  {
    seq(|evidence|, i requires 0 <= i < |evidence| =>
      Excerpt(i + 1, evidence[i].title, evidence[i].url, Take(evidence[i].text, 1000)))
  }

  /** Step 2: enrichment, attempted only for a contact with a name. */
  function EnrichStage(cfg: Config, svc: Services, c: Contact): Option<Enrichment> {
    if Truthy(c.name) then Enrich(cfg, svc, c.name.value, c.companyDomain) else None
  }

  /** Step 3: web research, attempted only for a contact with a name. */
  function ResearchStage(cfg: Config, svc: Services, c: Contact): seq<Evidence> {
    if Truthy(c.name) then Research(c.name.value, c.company, cfg.exaKey, svc.search) else []
  }

  /** Step 4: synthesis is asked for only when there is something to
      synthesize. */
  function SynthesisStage(raw: string, c: Contact, enriched: Option<Enrichment>,
                          evidence: seq<Evidence>): Option<SynthesisRequest> {
    if evidence != [] || enriched.Some? then Some(SynthesisRequest(raw, c, enriched, Excerpts(evidence)))
    else None
  }

  /** `synthesize_dossier` inside its `try`: an exception leaves no dossier. */
  function Dossier(svc: Services, request: Option<SynthesisRequest>): Option<string> {
    if request.None? then None
    else match svc.synthesize(request.value)
      case Threw => None
      case Done(d) => Some(d)
  }

  /** Steps 5 and 6: the reply to the Notion write, a summary linking to
      the new page when it succeeded. */
  function NotionReply(s: Submission, call: Call<string>): Reply {
    match call
    case Threw => NotionFailed
    case Done(url) => Confirmation(ConfirmationText(s.contact, s.enriched, s.dossier, url))
  }

  /** Steps 2 to 6, for a parsed contact. */
  function Reached(cfg: Config, svc: Services, today: string, note: Note, c: Contact): Report {
    var enriched := EnrichStage(cfg, svc, c);
    var evidence := ResearchStage(cfg, svc, c);
    var request := SynthesisStage(note.text, c, enriched, evidence);
    var dossier := Dossier(svc, request);
    var submission := Submission(c, enriched, note.text, note.source, dossier, today);
    Report([Processing(Preview(note.text)), NotionReply(submission, svc.notion(submission))], Some(note), Some(c),
           enriched, evidence, request, dossier, Some(submission), false)
  }

  /** Steps 1 to 6 of `process_update`, once a note has been captured:
      announce it, parse it, and go on only with a parsed contact. */
  function RunPipeline(cfg: Config, svc: Services, today: string, note: Note): Report {
    var start := Quiet.(replies := [Processing(Preview(note.text))], note := Some(note));
    match ParseNote(svc, note.text)
    case Unparsed => start.(replies := start.replies + [ParseFailed])
    case NotAnObject => start.(raised := true)
    case Parsed(c) => Reached(cfg, svc, today, note, c)
  }

  /** How far the checks at the top of `process_update` let an update
      through: no message or no chat id (a missing id or `0`), or a chat
      other than the configured one, drops it; otherwise the message is read. */
  function Admit(cfg: Config, svc: Services, u: Update): Intake {
    if u.message.None? then Drop
    else
      var m := u.message.value;
      if m.chatId.None? || m.chatId.value == 0 || !Authorized(cfg, m.chatId.value) then Drop
      else ReadMessage(cfg, svc, m)
  }

  /** `process_update`: admit the update, then run the pipeline on the
      captured note. */
  function ProcessUpdate(cfg: Config, svc: Services, today: string, u: Update): Report {
    match Admit(cfg, svc, u)
    case Drop => Quiet
    case Answer(reply) => Quiet.(replies := [reply])
    case Crash => Quiet.(raised := true)
    case Captured(note) => RunPipeline(cfg, svc, today, note)
  }

  // ---------------------------------------------------------------------
  // Properties of one update

  /** An update from a chat other than the configured one has no effect at
      all: nothing is sent, called or written, and nothing is raised. */
  lemma ForeignChatIgnored(cfg: Config, svc: Services, today: string, u: Update)
    requires u.message.Some? && u.message.value.chatId.Some?
    requires Truthy(cfg.allowedChat) && Decimal(u.message.value.chatId.value) != cfg.allowedChat.value
    ensures ProcessUpdate(cfg, svc, today, u) == Quiet
  {
  }

  /** With a chat configured, every update that has any effect comes from
      that one chat. */
  lemma OneChatServed(cfg: Config, svc: Services, today: string, u: Update, v: Update)
    requires Truthy(cfg.allowedChat)
    requires ProcessUpdate(cfg, svc, today, u) != Quiet && ProcessUpdate(cfg, svc, today, v) != Quiet
    ensures u.message.Some? && v.message.Some?
    ensures u.message.value.chatId.Some? && u.message.value.chatId == v.message.value.chatId
  {
    var a, b := u.message.value.chatId.value, v.message.value.chatId.value;
    assert Decimal(a) == Decimal(b);
    DecimalInjective(a, b);
  }

  /** Every captured note is announced first with its preview, and is
      recorded as the report's note. */
  lemma PipelineOpens(cfg: Config, svc: Services, today: string, note: Note)
    ensures RunPipeline(cfg, svc, today, note).note == Some(note)
    ensures |RunPipeline(cfg, svc, today, note).replies| >= 1
    ensures RunPipeline(cfg, svc, today, note).replies[0] == Processing(Preview(note.text))
  {
  }

  /** Without a parsed contact with a non-empty name, the enrichment and
      search services are never consulted: replacing them changes nothing. */
  lemma NamelessSkipsLookups(cfg: Config, svc: Services, today: string, note: Note,
                             apollo: (string, Option<string>) -> Call<Option<Enrichment>>,
                             search: string -> SearchReply)
    requires !(ParseNote(svc, note.text).Parsed? && Truthy(ParseNote(svc, note.text).contact.name))
    ensures RunPipeline(cfg, svc, today, note)
      == RunPipeline(cfg, svc.(apollo := apollo, search := search), today, note)
  {
  }

  /** For a parsed contact with a name, the enrichment is what the
      enrichment service answered (when its key is set and it did not
      raise), and the web results are those of the searches on that name. */
  lemma NamedConsultsLookups(cfg: Config, svc: Services, today: string, note: Note)
    requires ParseNote(svc, note.text).Parsed? && Truthy(ParseNote(svc, note.text).contact.name)
    ensures var c := ParseNote(svc, note.text).contact;
      var r := RunPipeline(cfg, svc, today, note);
      r.contact == Some(c)
      && (cfg.apolloKey && svc.apollo(c.name.value, c.companyDomain).Done? ==>
            r.enriched == svc.apollo(c.name.value, c.companyDomain).value)
      && (!cfg.apolloKey || svc.apollo(c.name.value, c.companyDomain).Threw? ==> r.enriched.None?)
      && r.evidence == Research(c.name.value, c.company, cfg.exaKey, svc.search)
  {
  }

  /** An enrichment or web results exist only when their stage ran with
      its key set. */
  lemma KeyGate(cfg: Config, svc: Services, today: string, note: Note)
    ensures var r := RunPipeline(cfg, svc, today, note);
      (r.enriched.Some? ==> r.contact.Some? && Truthy(r.contact.value.name) && cfg.apolloKey)
      && (r.evidence != [] ==> r.contact.Some? && Truthy(r.contact.value.name) && cfg.exaKey)
  {
    var r := RunPipeline(cfg, svc, today, note);
    if r.evidence != [] {
      var c := r.contact.value;
      assert ResearchStage(cfg, svc, c) != [];
    }
  }

  /** Synthesis is requested exactly when there are web results or an
      enrichment, and a dossier exists only when it was requested. */
  lemma SynthesisGate(cfg: Config, svc: Services, today: string, note: Note)
    ensures var r := RunPipeline(cfg, svc, today, note);
      (r.synthesis.Some? <==> r.contact.Some? && (r.evidence != [] || r.enriched.Some?))
      && (r.dossier.Some? ==> r.synthesis.Some?)
  {
  }

  /** `create_notion_contact` is reached exactly for a parsed contact, and
      is handed the note and what the stages produced. */
  lemma SubmissionGate(cfg: Config, svc: Services, today: string, note: Note)
    ensures var r := RunPipeline(cfg, svc, today, note);
      (r.submitted.Some? <==> r.contact.Some?)
      && (r.submitted.Some? ==> (r.submitted.value
            == Submission(r.contact.value, r.enriched, note.text, note.source, r.dossier, today)))
  {
  }

  /** A contact that reached `create_notion_contact` gets exactly one more
      reply: the confirmation built from what was submitted, with the new
      page's URL, or the failure notice; nothing is raised. */
  lemma NotionOutcome(cfg: Config, svc: Services, today: string, note: Note)
    requires RunPipeline(cfg, svc, today, note).submitted.Some?
    ensures var r := RunPipeline(cfg, svc, today, note);
      var s := r.submitted.value;
      |r.replies| == 2 && !r.raised
      && (svc.notion(s).Done? ==>
            r.replies[1] == Confirmation(ConfirmationText(s.contact, s.enriched, s.dossier, svc.notion(s).value)))
      && (svc.notion(s).Threw? ==> r.replies[1] == NotionFailed)
  {
  }

  /** An enrichment or web results exist only for a contact parsed with a
      non-empty name and only when their key is set; synthesis runs exactly when there are
      web results or an enrichment; `create_notion_contact` is reached
      exactly for a parsed contact, and is handed what the stages produced. */
  lemma StageGating(cfg: Config, svc: Services, today: string, u: Update)
    ensures var r := ProcessUpdate(cfg, svc, today, u);
      (r.enriched.Some? ==> r.contact.Some? && Truthy(r.contact.value.name) && cfg.apolloKey)
      && (r.evidence != [] ==> r.contact.Some? && Truthy(r.contact.value.name) && cfg.exaKey)
      && (r.synthesis.Some? <==> r.contact.Some? && (r.evidence != [] || r.enriched.Some?))
      && (r.dossier.Some? ==> r.synthesis.Some?)
      && (r.submitted.Some? <==> r.contact.Some?)
      && (r.submitted.Some? ==> (r.note.Some? && r.submitted.value
            == Submission(r.contact.value, r.enriched, r.note.value.text, r.note.value.source, r.dossier, today)))
  {
    var intake := Admit(cfg, svc, u);
    if intake.Captured? {
      PipelineOpens(cfg, svc, today, intake.note);
      KeyGate(cfg, svc, today, intake.note);
      SynthesisGate(cfg, svc, today, intake.note);
      SubmissionGate(cfg, svc, today, intake.note);
    }
  }

  /** Without the enrichment and search keys there is never a dossier, and
      every page written says it was not enriched. */
  lemma WithoutKeys(cfg: Config, svc: Services, today: string, u: Update)
    requires !cfg.apolloKey && !cfg.exaKey
    ensures ProcessUpdate(cfg, svc, today, u).synthesis.None?
    ensures ProcessUpdate(cfg, svc, today, u).dossier.None?
    ensures ProcessUpdate(cfg, svc, today, u).submitted.Some? ==>
      SubmittedPage(ProcessUpdate(cfg, svc, today, u).submitted.value).properties["Apollo Enriched"]
      == CheckboxProp(false)
  {
    var intake := Admit(cfg, svc, u);
    if intake.Captured? {
      KeyGate(cfg, svc, today, intake.note);
      SynthesisGate(cfg, svc, today, intake.note);
      SubmissionGate(cfg, svc, today, intake.note);
    }
    var r := ProcessUpdate(cfg, svc, today, u);
    if r.submitted.Some? {
      var s := r.submitted.value;
      PropertyLookup(s.contact, s.enriched, s.source, s.today);
      PropertyFlags(s.contact, s.enriched, s.source, s.today);
    }
  }

  /** The message kinds are tried in order: a photo wins over a voice
      note, which wins over text. */
  lemma DispatchOrder(cfg: Config, svc: Services, m: Message)
    ensures ReadMessage(cfg, svc, m).Captured? && m.photo != [] ==>
      ReadMessage(cfg, svc, m).note.source == BusinessCard
    ensures ReadMessage(cfg, svc, m).Captured? && m.photo == [] && (m.voice.Some? || m.audio.Some?) ==>
      ReadMessage(cfg, svc, m).note.source == VoiceNote
    ensures ReadMessage(cfg, svc, m).Captured? && ReadMessage(cfg, svc, m).note.source == TextMessage ==>
      m.photo == [] && m.voice.None? && m.audio.None? && m.text == Some(ReadMessage(cfg, svc, m).note.text)
  {
  }

  /** A plain text message from an admitted chat is captured unchanged. */
  lemma TextAdmitted(cfg: Config, svc: Services, u: Update, t: string)
    requires u.message.Some?
    requires u.message.value.chatId.Some? && u.message.value.chatId.value != 0
    requires Authorized(cfg, u.message.value.chatId.value)
    requires u.message.value.photo == [] && u.message.value.voice.None? && u.message.value.audio.None?
    requires u.message.value.text == Some(t) && t != "" && t[0] != '/'
    ensures Admit(cfg, svc, u) == Captured(Note(t, TextMessage))
  {
    assert !StartsWith(t, "/");
  }

  /** A plain text message becomes the raw note unchanged, and the first
      reply previews it. */
  lemma TextNoteCaptured(cfg: Config, svc: Services, today: string, u: Update, t: string)
    requires u.message.Some?
    requires u.message.value.chatId.Some? && u.message.value.chatId.value != 0
    requires Authorized(cfg, u.message.value.chatId.value)
    requires u.message.value.photo == [] && u.message.value.voice.None? && u.message.value.audio.None?
    requires u.message.value.text == Some(t) && t != "" && t[0] != '/'
    ensures ProcessUpdate(cfg, svc, today, u).note == Some(Note(t, TextMessage))
    ensures ProcessUpdate(cfg, svc, today, u).replies[0] == Processing(Preview(t))
  {
    TextAdmitted(cfg, svc, u, t);
    PipelineOpens(cfg, svc, today, Note(t, TextMessage));
  }

  /** A text starting with `/` is a command: `/start` and `/help` (blanks
      around them allowed) get the help text, any other command nothing;
      either way no note is captured and nothing else happens. */
  lemma CommandsShortCircuit(cfg: Config, svc: Services, m: Message)
    requires m.photo == [] && m.voice.None? && m.audio.None?
    requires m.text.Some? && StartsWith(m.text.value, "/")
    ensures ReadMessage(cfg, svc, m)
      == (if Strip(m.text.value) in {"/start", "/help"} then Answer(Help) else Drop)
  {
  }

  /** `process_update` raises exactly when a download, the card reading or
      the transcription raised, or when the parsed JSON is not an object; a
      failed parse or a failed Notion write is answered, not raised. */
  lemma RaisesExactlyWhen(cfg: Config, svc: Services, today: string, u: Update)
    ensures ProcessUpdate(cfg, svc, today, u).raised <==>
      (Admit(cfg, svc, u).Crash?
       || (Admit(cfg, svc, u).Captured? && ParseNote(svc, Admit(cfg, svc, u).note.text).NotAnObject?))
  {
  }

  // ---------------------------------------------------------------------
  // main

  /** Whether `process_update` raises on an update. */
  function Raises(cfg: Config, svc: Services, today: string): Update -> bool {
    u => ProcessUpdate(cfg, svc, today, u).raised
  }

  /** The number of updates on which `raises` is false: with `Raises`, the
      updates whose handling did not raise. */
  function Processed(raises: Update -> bool, updates: seq<Update>): (n: nat)
    ensures n <= |updates|
  {
    if updates == [] then 0
    else Processed(raises, updates[..|updates| - 1]) + (if raises(updates[|updates| - 1]) then 0 else 1)
  }

  /** Every update counts as processed exactly when none of them raised. */
  lemma {:induction false} AllProcessed(raises: Update -> bool, updates: seq<Update>)
    ensures Processed(raises, updates) == |updates| <==> forall k :: 0 <= k < |updates| ==> !raises(updates[k])
  {
    if updates != [] {
      var init := updates[..|updates| - 1];
      AllProcessed(raises, init);
      assert forall k :: 0 <= k < |init| ==> init[k] == updates[k];
    }
  }

  /** `main` after fetching the updates: handle each one, counting those
      that did not raise, then acknowledge up to the last update's id
      plus one, whatever happened to the updates in between. Only the last
      update's id is read outside a `try`: when it is missing `main` raises
      and acknowledges nothing. */
  method RunBatch(cfg: Config, svc: Services, today: string, updates: seq<Update>)
      returns (processed: nat, ack: Option<int>, crashed: bool)
    ensures processed == Processed(Raises(cfg, svc, today), updates)
    ensures crashed <==> updates != [] && updates[|updates| - 1].updateId.None?
    ensures ack.Some? <==> updates != [] && updates[|updates| - 1].updateId.Some?
    ensures ack.Some? ==> ack.value == updates[|updates| - 1].updateId.value + 1
  {
    if updates == [] {
      return 0, None, false;
    }
    processed := 0;
    for i := 0 to |updates|
      invariant processed == Processed(Raises(cfg, svc, today), updates[..i])
    {
      var report := ProcessUpdate(cfg, svc, today, updates[i]);
      assert updates[..i + 1][..i] == updates[..i];
      assert Raises(cfg, svc, today)(updates[i]) == report.raised;
      if !report.raised {
        processed := processed + 1;
      }
    }
    assert updates[..|updates|] == updates;
    match updates[|updates| - 1].updateId
    case None =>
      ack, crashed := None, true;
    case Some(lastId) =>
      ack, crashed := Some(lastId + 1), false;
  }
}
