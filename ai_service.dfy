/** The pure parts of `src/services/aiService.js`: the voice-note file
    extension, the text of a chat completion, the call reply, and the
    fallback strings and prompt assembly around the language-model calls.
    The model calls themselves are oracles: a function from the prompt to
    `None` when the call throws, or to the text it returned. */
module AiService {
  import opened Wrappers
  import opened JsText
  import ContactService

  // ---------------------------------------------------------------------
  // guessExtension

  /** The six extensions `guessExtension` can return. */
  predicate KnownExtension(e: string) {
    e == "ogg" || e == "mp3" || e == "mp4" || e == "wav" || e == "webm" || e == "tmp"
  }

  /** `mimetype.split(';')[0].toLowerCase()`. */
  function CleanType(mimetype: string): string {
    ToLower(BeforeFirst(mimetype, ';'))
  }

  /** The first rule that matches a cleaned type, in the order
      ogg/opus, mpeg, mp4, wav, webm. */
  function ExtensionOf(cleanType: string): (r: string)
    ensures KnownExtension(r)
    ensures r == "ogg" <==> EndsWith(cleanType, "ogg") || Includes(cleanType, "opus")
    ensures r == "tmp" <==> (!EndsWith(cleanType, "ogg") &&
      forall w :: w in ["opus", "mpeg", "mp4", "wav", "webm"] ==> !Includes(cleanType, w))
  {
    if EndsWith(cleanType, "ogg") || Includes(cleanType, "opus") then "ogg"
    else if Includes(cleanType, "mpeg") then "mp3"
    else if Includes(cleanType, "mp4") then "mp4"
    else if Includes(cleanType, "wav") then "wav"
    else if Includes(cleanType, "webm") then "webm"
    else "tmp"
  }

  /** `guessExtension(mimetype)`; a missing mimetype is the default ''. */
  function GuessExtension(mimetype: string): string {
    ExtensionOf(CleanType(mimetype))
  }

  /** Parameters after the first `;` never change the extension. */
  lemma MimeParametersIgnored(mimetype: string, parameters: string)
    requires ';' !in mimetype
    ensures GuessExtension(mimetype + ";" + parameters) == GuessExtension(mimetype)
  {
    BeforeFirstAppend(mimetype, parameters);
    assert CleanType(mimetype + ";" + parameters) == CleanType(mimetype);
  }

  lemma {:induction false} BeforeFirstAppend(a: string, b: string)
    requires ';' !in a
    ensures BeforeFirst(a + ";" + b, ';') == a
  {
    if a == [] {
      assert (a + ";" + b)[0] == ';';
    } else {
      assert (a + ";" + b)[0] == a[0];
      assert (a + ";" + b)[1..] == a[1..] + ";" + b;
      BeforeFirstAppend(a[1..], b);
    }
  }

  /** The extension does not depend on letter case. */
  lemma GuessExtensionCaseInsensitive(mimetype: string)
    ensures GuessExtension(ToLower(mimetype)) == GuessExtension(mimetype)
  {
    assert CleanType(ToLower(mimetype)) == CleanType(mimetype) by {
      BeforeFirstLower(mimetype);
      var b := BeforeFirst(mimetype, ';');
      assert ToLower(ToLower(b)) == ToLower(b);
    }
  }

  lemma {:induction false} BeforeFirstLower(s: string)
    ensures BeforeFirst(ToLower(s), ';') == ToLower(BeforeFirst(s, ';'))
  {
    if s != [] {
      BeforeFirstLower(s[1..]);
      assert ToLower(s)[1..] == ToLower(s[1..]);
      if s[0] != ';' {
        assert ToLower([s[0]] + BeforeFirst(s[1..], ';')) == [LowerChar(s[0])] + ToLower(BeforeFirst(s[1..], ';'));
      }
    }
  }

  // ---------------------------------------------------------------------
  // extractTextFromCompletion

  /** One element of an array `message.content`: a string, an object whose
      `text` is a string, or anything else. */
  datatype Part = StringPart(s: string) | TextPart(text: string) | OtherPart

  /** `choices[0].message.content`: falsy (missing, `null`, '' and the like),
      a non-empty string, an array of parts, or another truthy value (whose
      `trim` throws). */
  datatype Content = Falsy | Text(s: string) | Parts(parts: seq<Part>) | NotText

  /** A completion: `None` for a missing or falsy first choice. */
  datatype Completion = Completion(firstChoice: Option<Content>)

  function PartText(p: Part): string {
    match p
    case StringPart(s) => s
    case TextPart(t) => t
    case OtherPart => ""
  }

  /** `parts.map(...).join('')`. */
  function PartsText(parts: seq<Part>): string {
    if parts == [] then "" else PartText(parts[0]) + PartsText(parts[1..])
  }

  lemma {:induction false} PartsTextAppend(a: seq<Part>, b: seq<Part>)
    ensures PartsText(a + b) == PartsText(a) + PartsText(b)
  {
    if a == [] {
      assert a + b == b;
    } else {
      assert (a + b)[0] == a[0];
      assert (a + b)[1..] == a[1..] + b;
      PartsTextAppend(a[1..], b);
    }
  }

  /** `extractTextFromCompletion(completion)`; `None` when it throws. */
  function ExtractTextFromCompletion(c: Completion): (r: Option<string>)
    ensures c.firstChoice.None? ==> r == Some("")
    ensures r.Some? ==> IsTrimmed(r.value)
    ensures r.None? <==> c.firstChoice == Some(NotText)
  {
    match c.firstChoice
    case None => Some("")
    case Some(content) =>
      match content
      case Parts(parts) => Some(Trim(PartsText(parts)))
      case Text(s) => Some(Trim(s))
      case Falsy => Some("")
      case NotText => None
  }

  /** Parts that are neither strings nor carry a string `text` are ignored,
      wherever they stand. */
  lemma OtherPartIgnored(a: seq<Part>, b: seq<Part>)
    ensures ExtractTextFromCompletion(Completion(Some(Parts(a + [OtherPart] + b)))) ==
            ExtractTextFromCompletion(Completion(Some(Parts(a + b))))
  {
    var other := [OtherPart];
    assert other[1..] == [];
    assert PartsText(other) == "";
    PartsTextAppend(a, other);
    assert PartsText(a + other) == PartsText(a) + "" == PartsText(a);
    PartsTextAppend(a + other, b);
    PartsTextAppend(a, b);
    assert PartsText(a + other + b) == PartsText(a + b);
  }

  /** A single string in an array gives the same text as that string alone. */
  lemma SinglePartIsText(s: string)
    ensures ExtractTextFromCompletion(Completion(Some(Parts([StringPart(s)])))) ==
            ExtractTextFromCompletion(Completion(Some(Text(s))))
  {
    assert [StringPart(s)][1..] == [];
    assert PartsText([StringPart(s)]) == s;
  }

  // ---------------------------------------------------------------------
  // generateCallResponse

  const CallSuffix := ", Perwira-AI tidak bisa menerima panggilan sekarang. Silakan kirim pesan chat ya."

  /** How a template literal prints an optional field: a missing one prints
      as `undefined`. */
  function Render(field: Option<string>): string {
    field.GetOr("undefined")
  }

  /** Whom a call reply addresses. */
  function CallTarget(callerNumber: string, specialContact: Option<ContactService.Contact>): string {
    if specialContact.Some? then Render(specialContact.value.role) + " " + Render(specialContact.value.name)
    else callerNumber
  }

  /** `generateCallResponse(callerNumber, specialContact)`. */
  function GenerateCallResponse(callerNumber: string, specialContact: Option<ContactService.Contact>): (r: string)
    ensures StartsWith(r, "Halo ") && EndsWith(r, CallSuffix)
    ensures |r| == |"Halo "| + |CallTarget(callerNumber, specialContact)| + |CallSuffix|
  {
    "Halo " + CallTarget(callerNumber, specialContact) + CallSuffix
  }

  /** The reply names its target exactly: different targets give different
      replies, and a known contact is addressed by role and name. */
  lemma CallResponseNamesTarget(n1: string, c1: Option<ContactService.Contact>, n2: string, c2: Option<ContactService.Contact>)
    ensures GenerateCallResponse(n1, c1) == GenerateCallResponse(n2, c2) <==> CallTarget(n1, c1) == CallTarget(n2, c2)
  {
    var t1, t2 := CallTarget(n1, c1), CallTarget(n2, c2);
    var r1, r2 := GenerateCallResponse(n1, c1), GenerateCallResponse(n2, c2);
    if r1 == r2 {
      assert |t1| == |t2|;
      assert t1 == r1[5..5 + |t1|];
      assert t2 == r2[5..5 + |t2|];
    }
  }

  // ---------------------------------------------------------------------
  // generateAIResponse, generateVisionResponse, generateGroqSummary

  /** A language-model call: `None` when it throws, else the text it returned. */
  type Model = string -> Option<string>

  const ContinuePrompt := "Lanjutkan respons berdasarkan konteks."
  const NoAnswer := "Maaf, Perwira-AI belum bisa menjawab saat ini."
  const ModelError := "Maaf, Perwira-AI sedang gangguan (Gemini Error)."
  const NoMedia := "Tidak ada media yang bisa dianalisis."
  const VisionError := "Maaf, belum bisa memproses gambar saat ini."
  const NoDescription := "Gambar tanpa deskripsi."
  const SummaryError := "Gagal membuat ringkasan."
  const SummaryInstructions :=
    "Buat ringkasan percakapan WhatsApp dalam bahasa Indonesia.\n- Format bullet point per pengirim.\n- Ambil informasi penting saja.\n- Tetap singkat."

  /** `createGeminiCompletion(prompt)`: the trimmed text, `None` when the call throws. */
  function CreateCompletion(model: Model, prompt: string): (r: Option<string>)
    ensures r.Some? ==> IsTrimmed(r.value)
    ensures r.None? <==> model(prompt).None?
  {
    match model(prompt)
    case None => None
    case Some(t) => Some(Trim(t))
  }

  /** The user part of the prompt: `text?.trim() ? text : ContinuePrompt`. */
  function UserPrompt(text: Option<string>): (r: string)
    ensures r != "" && Trim(r) != ""
  {
    if text.Some? && Trim(text.value) != "" then text.value else ContinuePrompt
  }

  /** The prompt `generateAIResponse` sends; `systemPrompt` is what the prompt
      template made of the date, the sender and the contexts. */
  function FullPrompt(systemPrompt: string, text: Option<string>): string {
    systemPrompt + "\n\n[PESAN USER TERAKHIR]:\n" + UserPrompt(text)
  }

  /** `generateAIResponse(...)`. */
  function GenerateAIResponse(model: Model, systemPrompt: string, text: Option<string>): (r: string)
    ensures r != ""
    ensures model(FullPrompt(systemPrompt, text)).None? ==> r == ModelError
  {
    match CreateCompletion(model, FullPrompt(systemPrompt, text))
    case None => ModelError
    case Some(t) => if t != "" then t else NoAnswer
  }

  /** The reply is the model's trimmed answer when it has one; an empty or
      blank answer gives the apology; the prompt ends with the user's text,
      or with the continuation prompt when that text is blank. */
  lemma AIResponseCases(model: Model, systemPrompt: string, text: Option<string>)
    ensures var p := FullPrompt(systemPrompt, text);
      (model(p).Some? && Trim(model(p).value) != "" ==> GenerateAIResponse(model, systemPrompt, text) == Trim(model(p).value)) &&
      (model(p).Some? && Trim(model(p).value) == "" ==> GenerateAIResponse(model, systemPrompt, text) == NoAnswer)
    ensures text.Some? && Trim(text.value) != "" ==> EndsWith(FullPrompt(systemPrompt, text), text.value)
    ensures text.None? || Trim(text.value) == "" ==> EndsWith(FullPrompt(systemPrompt, text), ContinuePrompt)
  {
  }

  /** JavaScript truthiness of an optional string. */
  predicate Present(s: Option<string>) {
    s.Some? && s.value != ""
  }

  /** The media a message carries (`{ mimetype, data }`). */
  datatype Media = Media(mimetype: string, data: string)

  /** The image description call: `None` when it throws. */
  type Describer = (Media, string) -> Option<Completion>

  /** `describeImageWithGroq(mediaData, prompt)`: `None` when it throws. */
  function DescribeImage(describe: Describer, media: Media, text: Option<string>): Option<string> {
    var prompt := if Present(text) then text.value else "Deskripsikan gambar ini.";
    match describe(media, prompt)
    case None => None
    case Some(completion) => ExtractTextFromCompletion(completion)
  }

  /** The text `generateVisionResponse` hands to `generateAIResponse`: the
      present parts joined by a blank line, else a fixed placeholder. */
  function VisionText(text: Option<string>, description: string): (r: string)
    ensures r != ""
  {
    var parts := (if Present(text) then ["Pesan pengguna: " + text.value] else [])
               + (if description != "" then ["Deskripsi gambar: " + description] else []);
    var combined := Join(parts, "\n\n");
    if combined != "" then combined
    else if description != "" then description
    else if Present(text) then text.value
    else NoDescription
  }

  /** Both parts present are joined by one blank line; one part stands alone;
      with neither, the placeholder is used. */
  lemma VisionTextCases(text: Option<string>, description: string)
    ensures Present(text) && description != "" ==>
      VisionText(text, description) == "Pesan pengguna: " + text.value + "\n\n" + "Deskripsi gambar: " + description
    ensures Present(text) && description == "" ==> VisionText(text, description) == "Pesan pengguna: " + text.value
    ensures !Present(text) && description != "" ==> VisionText(text, description) == "Deskripsi gambar: " + description
    ensures !Present(text) && description == "" ==> VisionText(text, description) == NoDescription
  {
    var a := if Present(text) then ["Pesan pengguna: " + text.value] else [];
    var b := if description != "" then ["Deskripsi gambar: " + description] else [];
    if Present(text) && description != "" {
      assert a + b == [a[0], b[0]];
      assert [a[0], b[0]][1..] == [b[0]];
      assert Join([a[0], b[0]], "\n\n") == a[0] + "\n\n" + Join([b[0]], "\n\n");
    } else if Present(text) {
      assert a + b == a;
    } else if description != "" {
      assert a + b == b;
    } else {
      assert a + b == [];
    }
  }

  /** `generateVisionResponse(...)`. */
  function GenerateVisionResponse(describe: Describer, model: Model, systemPrompt: string,
                                  text: Option<string>, media: Option<Media>): (r: string)
    ensures r != ""
    ensures media.None? ==> r == NoMedia
    ensures media.Some? && DescribeImage(describe, media.value, text).None? ==> r == VisionError
  {
    if media.None? then NoMedia
    else
      match DescribeImage(describe, media.value, text)
      case None => VisionError
      case Some(description) => GenerateAIResponse(model, systemPrompt, Some(VisionText(text, description)))
  }

  /** A described image is answered through the chat path, whose own
      failures give its own fallback strings rather than the vision error. */
  lemma VisionUsesChatPath(describe: Describer, model: Model, systemPrompt: string, text: Option<string>, media: Media)
    requires DescribeImage(describe, media, text).Some?
    ensures var d := DescribeImage(describe, media, text).value;
      GenerateVisionResponse(describe, model, systemPrompt, text, Some(media)) ==
      GenerateAIResponse(model, systemPrompt, Some(VisionText(text, d)))
    ensures var d := DescribeImage(describe, media, text).value;
      model(FullPrompt(systemPrompt, Some(VisionText(text, d)))).None? ==>
      GenerateVisionResponse(describe, model, systemPrompt, text, Some(media)) == ModelError
  {
  }

  /** `generateGroqSummary(textData)`. Unlike the chat path there is no
      fallback for an empty answer, so the summary can be ''. */
  function GenerateSummary(model: Model, textData: string): (r: string)
    ensures model(SummaryInstructions + "\n\n" + textData).None? ==> r == SummaryError
    ensures model(SummaryInstructions + "\n\n" + textData).Some? ==> r == Trim(model(SummaryInstructions + "\n\n" + textData).value)
  {
    match CreateCompletion(model, SummaryInstructions + "\n\n" + textData)
    case None => SummaryError
    case Some(t) => t
  }

  // ---------------------------------------------------------------------
  // transcribeVoiceNote

  /** The transcription call: `None` when it throws or returns no text. */
  type Transcriber = Media -> Option<string>

  /** `transcribeVoiceNote(mediaData)`: '' without media data or on failure. */
  function TranscribeVoiceNote(transcribe: Transcriber, media: Option<Media>): (r: string)
    ensures media.None? || media.value.data == "" ==> r == ""
    ensures IsTrimmed(r)
    ensures media.Some? && media.value.data != "" && transcribe(media.value).Some? ==> r == Trim(transcribe(media.value).value)
  {
    if media.None? || media.value.data == "" then ""
    else
      match transcribe(media.value)
      case None => ""
      case Some(t) => Trim(t)
  }
}
