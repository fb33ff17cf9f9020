/** The per-chat pipeline of `src/handlers/messageHandler.js`: which incoming
    messages are answered, the commands, the debounce queue that merges a
    burst of messages into one request, the hourly conversation summary, and
    the reply with its optional status segment under a one-hour cooldown.

    Timers are pending entries keyed by chat id holding the time they are
    due; `setTimeout` firing is an explicit call. "Now" (`Date.now()`), the
    WhatsApp message accessors, the model, Google and message delivery are
    parameters. */
module MessageHandler {
  import opened Wrappers
  import opened JsText
  import opened Db
  import ContactService
  import AiService
  import RagService
  import ToolService
  import State

  /** `DEBOUNCE_TIME`, `COOLDOWN_DURATION` and `SUMMARY_WINDOW_MS`, in ms. */
  const DebounceTime: int := 10000
  const CooldownDuration: int := 3600000
  const SummaryWindow: int := 3600000

  /** `buildHistoryLogs` keeps this many of the chat's latest entries. */
  const HistoryLength: nat := 20

  const Header: string := "*Perwira (AI Assistant by Rifky)*"
  const PrefixWord: string := "!perwira"
  /** What separates the reply from the status segment. */
  const StatusSeparator: string := "|||"

  // ---------------------------------------------------------------------
  // Reply header

  /** `applyHeader(replyText)`. */
  function ApplyHeader(replyText: string): (r: string)
    ensures StartsWith(r, Header)
    ensures r != ""
  {
    if replyText == "" then
      StartsWithConcat(Header, "");
      assert Header + "" == Header;
      Header
    else
      var trimmed := Trim(replyText);
      if StartsWith(trimmed, Header) then trimmed
      else
        StartsWithConcat(Header, "\n\n" + trimmed);
        Header + "\n\n" + trimmed
  }

  /** The header itself has no white space at either end. */
  lemma HeaderTrimmed()
    ensures IsTrimmed(Header) && Header != ""
  {
    assert Header[0] == '*' && Header[|Header| - 1] == '*';
  }

  /** Trimmed text that already starts with the header is returned as is;
      other trimmed text gets the header and a blank line in front. */
  lemma ApplyHeaderCases(replyText: string)
    requires IsTrimmed(replyText)
    ensures StartsWith(replyText, Header) ==> ApplyHeader(replyText) == replyText
    ensures replyText == "" ==> ApplyHeader(replyText) == Header
    ensures replyText != "" && !StartsWith(replyText, Header) ==>
      ApplyHeader(replyText) == Header + "\n\n" + replyText
  {
    HeaderTrimmed();
  }

  /** On trimmed text, applying the header twice is applying it once. */
  lemma ApplyHeaderIdempotent(replyText: string)
    requires IsTrimmed(replyText)
    ensures ApplyHeader(ApplyHeader(replyText)) == ApplyHeader(replyText)
  {
    HeaderTrimmed();
    var r := ApplyHeader(replyText);
    if replyText != "" && !StartsWith(replyText, Header) {
      assert r == Header + "\n\n" + replyText;
      assert r[0] == Header[0];
      assert r[|r| - 1] == replyText[|replyText| - 1];
      assert IsTrimmed(r);
    }
  }

  /** Idempotence needs trimmed input: a blank reply gets a header followed by
      a blank line, which a second application trims away. */
  lemma ApplyHeaderBlankInput()
    ensures ApplyHeader(" ") == Header + "\n\n"
    ensures ApplyHeader(Header + "\n\n") == Header
  {
    HeaderTrimmed();
    assert Trim(" ") == "";
    var h := Header + "\n\n";
    assert IsSpace(h[|h| - 1]);
    assert TrimEnd(h) == TrimEnd(h[..|h| - 1]) by { assert h != []; }
    assert h[..|h| - 1] == Header + "\n";
    assert TrimEnd(Header + "\n") == TrimEnd(Header) by {
      var g := Header + "\n";
      assert g[..|g| - 1] == Header;
    }
    assert TrimStart(h) == h;
    assert Trim(h) == Header;
    assert StartsWith(Header, Header);
  }

  // ---------------------------------------------------------------------
  // The `!perwira` prefix

  /** `lowerBody.startsWith('!perwira')`. The case-insensitive prefix regex
      of `stripPrefix` matches exactly when this holds, since without the
      `u` flag it only pairs ASCII letters. */
  predicate HasPrefix(body: string) {
    StartsWith(ToLower(body), PrefixWord)
  }

  /** `stripPrefix(messageBody)`. */
  function StripPrefix(body: string): (r: string)
    ensures IsTrimmed(r) && |r| <= |body|
    ensures !HasPrefix(body) ==> r == Trim(body)
  {
    if HasPrefix(body) then Trim(TrimStart(body[|PrefixWord|..])) else Trim(body)
  }

  /** Trimming after `trimStart` is trimming. */
  lemma TrimAfterTrimStart(s: string)
    ensures Trim(TrimStart(s)) == Trim(s)
  {
    var t := TrimStart(s);
    assert TrimStart(t) == t;
  }

  /** `ToLower` works character by character. */
  lemma ToLowerAppend(a: string, b: string)
    ensures ToLower(a + b) == ToLower(a) + ToLower(b)
  {
    assert forall i :: 0 <= i < |a + b| ==> ToLower(a + b)[i] == (ToLower(a) + ToLower(b))[i];
  }

  /** Any spelling of the prefix, in any letter case, is removed with the
      white space after it, and only once. */
  lemma StripPrefixOfPrefixed(p: string, rest: string)
    requires |p| == |PrefixWord| && ToLower(p) == PrefixWord
    ensures HasPrefix(p + rest)
    ensures StripPrefix(p + rest) == Trim(rest)
  {
    ToLowerAppend(p, rest);
    assert ToLower(p + rest)[..|PrefixWord|] == ToLower(p);
    assert (p + rest)[|PrefixWord|..] == rest;
    TrimAfterTrimStart(rest);
  }

  // ---------------------------------------------------------------------
  // History

  /** The texts of `ms`, in order. */
  function TextsOf(ms: seq<Message>): (r: seq<string>)
    ensures |r| == |ms| && forall i :: 0 <= i < |ms| ==> r[i] == ms[i].text
  {
    seq(|ms|, i requires 0 <= i < |ms| => ms[i].text)
  }

  /** `buildHistoryLogs(chatId)` over the message buffer `buffer`. */
  function BuildHistoryLogs(buffer: seq<Message>, chatId: string): string {
    Join(TextsOf(LastN(ChatEntries(buffer, chatId), HistoryLength)), "\n")
  }

  /** A joined list ends with its last element. */
  lemma {:induction false} JoinEndsWithLast(xs: seq<string>, sep: string)
    requires xs != []
    ensures EndsWith(Join(xs, sep), xs[|xs| - 1])
  {
    if |xs| > 1 {
      JoinEndsWithLast(xs[1..], sep);
      var j := Join(xs[1..], sep);
      var last := xs[|xs| - 1];
      assert xs[1..][|xs[1..]| - 1] == last;
      var s := xs[0] + sep + j;
      assert s[|s| - |last|..] == j[|j| - |last|..];
    }
  }

  /** Messages of other chats never appear in a chat's history. */
  lemma HistoryIgnoresOtherChats(buffer: seq<Message>, m: Message, chatId: string)
    requires m.chatId != chatId
    ensures BuildHistoryLogs(buffer + [m], chatId) == BuildHistoryLogs(buffer, chatId)
  {
    ChatEntriesAppend(buffer, [m], chatId);
    assert ChatEntries([m], chatId) == [] by {
      assert [m][1..] == [];
    }
    assert ChatEntries(buffer, chatId) + [] == ChatEntries(buffer, chatId);
  }

  /** The newest entry of a chat is the last line of its history. */
  lemma HistoryEndsWithLatest(buffer: seq<Message>, m: Message)
    ensures EndsWith(BuildHistoryLogs(buffer + [m], m.chatId), m.text)
  {
    ChatEntriesAppend(buffer, [m], m.chatId);
    assert ChatEntries([m], m.chatId) == [m] by {
      assert [m][1..] == [];
    }
    var entries := ChatEntries(buffer, m.chatId) + [m];
    var window := LastN(entries, HistoryLength);
    assert window[|window| - 1] == m;
    JoinEndsWithLast(TextsOf(window), "\n");
  }

  /** A chat whose entries were cleared has an empty history. */
  lemma HistoryAfterClear(buffer: seq<Message>, chatId: string)
    ensures BuildHistoryLogs(OtherChats(buffer, chatId), chatId) == ""
  {
    OtherChatsKeepsOthers(buffer, chatId, chatId);
  }

  // ---------------------------------------------------------------------
  // Gating

  /** What the handler reads from an incoming message. `senderNumber` is what
      `getContact` or the id rewriting produced; `mentionedIds` is the list
      the mention fallbacks produced; `attachment` is what the vCard, download
      and transcription branches found. */
  datatype Incoming = Incoming(
    from: string, to: string, fromMe: bool, isGroup: bool,
    chatId: string, chatName: Option<string>,
    senderNumber: string, notifyName: Option<string>, body: Option<string>,
    mentionedIds: seq<string>, replyToBot: bool, attachment: Attachment)

  /** The content besides the body: a shared contact with the name and number
      read from its vCard, a voice note or audio with its transcription ('' when
      that failed), an image, or media that gave nothing usable (not
      downloaded, or of another type). */
  datatype Attachment =
    | NoAttachment
    | VCard(contactName: string, contactNumber: string)
    | Voice(transcription: string)
    | Image(media: AiService.Media)
    | OtherMedia

  predicate HasMedia(a: Attachment) {
    a.Voice? || a.Image? || a.OtherMedia?
  }

  /** Newsletters and status broadcasts are dropped before anything else. */
  predicate IsBroadcast(m: Incoming) {
    Includes(m.from, "@newsletter") || m.from == "status@broadcast" || m.to == "status@broadcast"
  }

  /** `(msg.body || '').trim()`. */
  function MessageBody(m: Incoming): string {
    Trim(m.body.GetOr(""))
  }

  /** `msg._data?.notifyName || senderNumber || 'Pengirim'`. */
  function SenderName(m: Incoming): (r: string)
    ensures r != ""
  {
    if m.notifyName.Some? && m.notifyName.value != "" then m.notifyName.value
    else if m.senderNumber != "" then m.senderNumber
    else "Pengirim"
  }

  /** `isBotMentioned(chat, mentionedIds)`; `myId` is the bot's own id. */
  predicate BotMentioned(m: Incoming, myId: Option<string>) {
    m.isGroup && myId.Some? && myId.value != "" && myId.value in m.mentionedIds
  }

  /** The whitelist check: the owner always passes, a group must be on the
      group list, a private sender's number on the number list. */
  predicate PassesWhitelist(m: Incoming, numbers: seq<ContactService.AllowedNumber>,
                            groups: seq<ContactService.AllowedGroup>) {
    m.fromMe ||
    (if m.isGroup then ContactService.IsGroupAllowed(groups, m.chatId)
     else ContactService.IsNumberAllowed(numbers, m.senderNumber))
  }

  /** `shouldRespond`. */
  predicate ShouldRespond(m: Incoming, myId: Option<string>) {
    var hasPrefix := HasPrefix(MessageBody(m));
    if m.isGroup then BotMentioned(m, myId) || m.replyToBot || hasPrefix
    else if m.fromMe then hasPrefix
    else true
  }

  // ---------------------------------------------------------------------
  // Commands

  datatype Command = Activate | Pause | Help | SaveNote(note: string) | DeleteNote | ShowNote

  /** The command a (trimmed) body names, checked in the handler's order. Any
      body starting with `!ctt` saves a note: the rest, trimmed. */
  function CommandOf(body: string): (r: Option<Command>)
    ensures r.Some? && r.value.SaveNote? ==> IsTrimmed(r.value.note) && StartsWith(ToLower(body), "!ctt")
  {
    var lower := ToLower(body);
    if lower == "!aktif" then Some(Activate)
    else if lower == "!mati" then Some(Pause)
    else if lower == "!help" then Some(Help)
    else if StartsWith(lower, "!ctt") then Some(SaveNote(Trim(TrimStart(body[4..]))))
    else if lower == "!hpsctt" then Some(DeleteNote)
    else if lower == "!cekctt" then Some(ShowNote)
    else None
  }

  const HelpText: string :=
    "*Perwira (AI Assistant by Rifky)*\nDaftar perintah:\n- !aktif : Mengaktifkan balasan Perwira-AI.\n"
    + "- !mati : Menjeda balasan Perwira-AI.\n- !ctt <teks> : Simpan catatan mendesak.\n"
    + "- !hpsctt : Hapus catatan mendesak.\n- !cekctt : Lihat catatan mendesak aktif.\n"
    + "- !perwira <pesan> : Paksa Perwira-AI merespons (wajib di grup)."

  /** The reply to a command; `note` is the urgent note when it is read. */
  function CommandReply(c: Command, note: Option<string>): (r: string)
    ensures r != ""
    ensures c.ShowNote? && ToolService.Truthy(note) ==> r == "Catatan aktif: " + note.value
  {
    match c
    case Activate => "Bot diaktifkan."
    case Pause => "Bot dijeda."
    case Help => HelpText
    case SaveNote(n) => if n != "" then "Catatan mendesak disimpan: " + n else "Isi catatan tidak boleh kosong."
    case DeleteNote => "Catatan mendesak dihapus."
    case ShowNote => if ToolService.Truthy(note) then "Catatan aktif: " + note.value else "Tidak ada catatan aktif."
  }

  /** Where `handleMessage` sends a message. */
  datatype Route = Dropped | Rejected | Run(command: Command) | Paused | NotAddressed | Queued

  /** The route of `m`; `active` is the bot switch when the message arrives. */
  function RouteOf(m: Incoming, numbers: seq<ContactService.AllowedNumber>,
                   groups: seq<ContactService.AllowedGroup>, myId: Option<string>, active: bool): Route
  {
    if IsBroadcast(m) then Dropped
    else if !PassesWhitelist(m, numbers, groups) then Rejected
    else if CommandOf(MessageBody(m)).Some? then Run(CommandOf(MessageBody(m)).value)
    else if !active then Paused
    else if !ShouldRespond(m, myId) then NotAddressed
    else Queued
  }

  /** The gating rules: a queued message from someone other than the owner
      came from a whitelisted group and addressed the bot, or from a
      whitelisted number; the owner's own private messages need the prefix;
      and an active bot queues every non-command from a whitelisted number. */
  lemma GatingRules(m: Incoming, numbers: seq<ContactService.AllowedNumber>,
                    groups: seq<ContactService.AllowedGroup>, myId: Option<string>, active: bool)
    ensures var r := RouteOf(m, numbers, groups, myId, active);
      (r == Queued && !m.fromMe && m.isGroup ==>
        ContactService.IsGroupAllowed(groups, m.chatId) &&
        (BotMentioned(m, myId) || m.replyToBot || HasPrefix(MessageBody(m)))) &&
      (r == Queued && !m.fromMe && !m.isGroup ==> ContactService.IsNumberAllowed(numbers, m.senderNumber)) &&
      (r == Queued && m.fromMe && !m.isGroup ==> HasPrefix(MessageBody(m))) &&
      (r == Queued ==> active && CommandOf(MessageBody(m)).None?)
    ensures !IsBroadcast(m) && !m.isGroup && !m.fromMe && ContactService.IsNumberAllowed(numbers, m.senderNumber)
              && active && CommandOf(MessageBody(m)).None? ==>
      RouteOf(m, numbers, groups, myId, active) == Queued
  {
  }

  /** The owner is never held back by the whitelist, in a group either, and a
      paused bot still obeys commands, so `!aktif` switches it back on. */
  lemma OwnerAndCommands(m: Incoming, numbers: seq<ContactService.AllowedNumber>,
                         groups: seq<ContactService.AllowedGroup>, myId: Option<string>)
    requires !IsBroadcast(m)
    ensures m.fromMe ==> RouteOf(m, numbers, groups, myId, true) != Rejected
    ensures PassesWhitelist(m, numbers, groups) && ToLower(MessageBody(m)) == "!aktif" ==>
      RouteOf(m, numbers, groups, myId, false) == Run(Activate)
  {
  }

  const ContactMarker: string := "[Sistem: User mengirim kontak: "
  const VoiceMarker: string := "[Voice Note]"

  /** The text standing for a shared contact. */
  function VCardText(name: string, number: string): (r: string)
    ensures StartsWith(r, ContactMarker)
  {
    var r := ContactMarker + ("\"" + name + "\" (Nomor: " + number + ")]");
    assert r[..|ContactMarker|] == ContactMarker;
    r
  }

  /** The text standing for a voice note, with its transcription or a note
      that transcription failed. */
  function VoiceText(transcription: string): (r: string)
    ensures StartsWith(r, VoiceMarker)
  {
    var rest := if transcription != "" then "\n" + transcription else " (gagal ditranskripsi)";
    var r := VoiceMarker + rest;
    assert r[..|VoiceMarker|] == VoiceMarker;
    r
  }

  /** The text recorded and queued for a message: the body without the
      prefix, or `[media]` for media without text, unless a contact or a
      voice note stands in for it. */
  function UserText(m: Incoming): (r: string)
    ensures m.attachment.VCard? ==> StartsWith(r, ContactMarker)
    ensures m.attachment.Voice? ==> StartsWith(r, VoiceMarker)
    ensures m.attachment.NoAttachment? && !HasPrefix(MessageBody(m)) ==> r == MessageBody(m)
    ensures (m.attachment.Image? || m.attachment.OtherMedia?) && MessageBody(m) == "" ==> r == "[media]"
  {
    var body := MessageBody(m);
    var cleaned := if HasPrefix(body) then StripPrefix(body) else body;
    var base := if cleaned != "" then cleaned else if HasMedia(m.attachment) then "[media]" else "";
    match m.attachment
    case VCard(name, number) => VCardText(name, number)
    case Voice(t) => VoiceText(t)
    case _ => base
  }

  /** The image handed on for description, if any. */
  function ImageOf(m: Incoming): Option<AiService.Media> {
    if m.attachment.Image? then Some(m.attachment.media) else None
  }

  /** `contactMeta`: the name, numbers and sender number a summary is filed under. */
  datatype ContactMeta = ContactMeta(name: string, phones: seq<string>, senderNumber: string)

  /** `buildGroupMeta(chat)` or `buildContactMeta(specialContact, senderName, senderNumber)`. */
  function ContactMetaOf(m: Incoming, special: Option<ContactService.Contact>): (r: ContactMeta)
    ensures r.name != ""
    ensures m.isGroup ==> r.phones == [] && r.senderNumber == m.chatId
  {
    if m.isGroup then
      ContactMeta(if m.chatName.Some? && m.chatName.value != "" then m.chatName.value else "Grup", [], m.chatId)
    else
      var name := if special.Some? && special.value.name.Some? && special.value.name.value != ""
                  then special.value.name.value else SenderName(m);
      ContactMeta(name, if special.Some? then special.value.phone else [], m.senderNumber)
  }

  /** The special contact of a private chat; groups have none. */
  function SpecialContactOf(m: Incoming, contacts: Option<seq<ContactService.Contact>>,
                            special: seq<ContactService.Contact>): Option<ContactService.Contact> {
    if m.isGroup then None else ContactService.GetSpecialContact(contacts, special, m.from, SenderName(m))
  }

  /** The history entry of an incoming message. */
  function IncomingEntry(m: Incoming, now: int): Message {
    Message(m.chatId, "[" + SenderName(m) + "]: " + UserText(m), now)
  }

  /** The name the prompt uses: the group's name in a group, else the sender's. */
  function PromptSenderName(m: Incoming): (r: string)
    ensures r != ""
  {
    if m.isGroup && m.chatName.Some? && m.chatName.value != "" then m.chatName.value else SenderName(m)
  }

  // ---------------------------------------------------------------------
  // Merging a burst

  /** One queued message (`payload`). `msgFrom` is the sender address of the
      message object, the only part of it read later. */
  datatype Payload = Payload(msgFrom: string, promptSenderName: string, textInput: string,
                             chatId: string, contact: Option<ContactService.Contact>,
                             media: Option<AiService.Media>)

  /** What `flushPrivateQueue` hands to `processAIResponse`. */
  datatype Merged = Merged(msgFrom: string, promptSenderName: string, text: string, chatId: string,
                           contact: Option<ContactService.Contact>, media: Option<AiService.Media>)

  /** The payload queued for `m`; the contact travels with it only when it
      has an instruction. */
  function PayloadOf(m: Incoming, sc: Option<ContactService.Contact>): (r: Payload)
    ensures r.chatId == m.chatId
  {
    var promptContact := if sc.Some? && ToolService.Truthy(sc.value.instruction) then sc else None;
    Payload(m.from, PromptSenderName(m), UserText(m), m.chatId, promptContact, ImageOf(m))
  }

  /** The non-empty texts of a queue, in arrival order. */
  function NonEmptyTexts(q: seq<Payload>): (r: seq<string>)
    ensures forall i :: 0 <= i < |r| ==> r[i] != ""
    ensures r == [] <==> forall i :: 0 <= i < |q| ==> q[i].textInput == ""
  {
    if q == [] then []
    else
      var rest := NonEmptyTexts(q[1..]);
      assert forall i :: 1 <= i < |q| ==> q[i] == q[1..][i - 1];
      (if q[0].textInput != "" then [q[0].textInput] else []) + rest
  }

  /** The first media of a queue, in arrival order. */
  function FirstMedia(q: seq<Payload>): (r: Option<AiService.Media>)
    ensures r.None? <==> forall i :: 0 <= i < |q| ==> q[i].media.None?
    ensures r.Some? ==> exists i :: (0 <= i < |q| && q[i].media == r &&
      forall j :: 0 <= j < i ==> q[j].media.None?)
  {
    if q == [] then None
    else if q[0].media.Some? then q[0].media
    else
      var r := FirstMedia(q[1..]);
      if r.Some? then
        var i :| 0 <= i < |q[1..]| && q[1..][i].media == r && forall j :: 0 <= j < i ==> q[1..][j].media.None?;
        assert q[i + 1] == q[1..][i];
        assert forall j :: 1 <= j < i + 1 ==> q[j] == q[1..][j - 1];
        r
      else
        assert forall i :: 1 <= i < |q| ==> q[i] == q[1..][i - 1];
        r
  }

  /** The merge policy of `flushPrivateQueue`. */
  function Merge(q: seq<Payload>): (r: Merged)
    requires q != []
    ensures r.msgFrom == q[|q| - 1].msgFrom && r.promptSenderName == q[|q| - 1].promptSenderName
    ensures r.contact == q[|q| - 1].contact
    ensures r.media == FirstMedia(q)
  {
    var latest := q[|q| - 1];
    var combined := Join(NonEmptyTexts(q), "\n");
    var media := FirstMedia(q);
    Merged(latest.msgFrom, latest.promptSenderName,
           if combined != "" then combined else if media.Some? then "[media]" else "",
           latest.chatId, latest.contact, media)
  }

  /** Joining non-empty pieces gives '' only for no pieces. */
  lemma JoinNonEmpty(xs: seq<string>, sep: string)
    requires forall i :: 0 <= i < |xs| ==> xs[i] != ""
    ensures Join(xs, sep) == "" <==> xs == []
  {
    if |xs| > 1 {
      assert |Join(xs, sep)| >= |xs[0]|;
    }
  }

  /** The merged text is empty only when every text is empty and there is no
      media; without texts, media gives `[media]`. */
  lemma MergeEmptyText(q: seq<Payload>)
    requires q != []
    ensures Merge(q).text == "" <==> (forall i :: 0 <= i < |q| ==> q[i].textInput == "") && FirstMedia(q).None?
    ensures (forall i :: 0 <= i < |q| ==> q[i].textInput == "") && FirstMedia(q).Some? ==> Merge(q).text == "[media]"
  {
    JoinNonEmpty(NonEmptyTexts(q), "\n");
  }

  /** Filtering distributes over appending one payload. */
  lemma {:induction false} NonEmptyTextsSnoc(q: seq<Payload>, p: Payload)
    ensures NonEmptyTexts(q + [p]) == NonEmptyTexts(q) + (if p.textInput != "" then [p.textInput] else [])
  {
    if q == [] {
      assert [p][1..] == [];
    } else {
      assert (q + [p])[1..] == q[1..] + [p];
      NonEmptyTextsSnoc(q[1..], p);
    }
  }

  /** Joining one more piece puts it after a separator. */
  lemma {:induction false} JoinSnoc(xs: seq<string>, x: string, sep: string)
    requires xs != []
    ensures Join(xs + [x], sep) == Join(xs, sep) + sep + x
  {
    if |xs| == 1 {
      assert (xs + [x])[1..] == [x];
    } else {
      assert (xs + [x])[1..] == xs[1..] + [x];
      JoinSnoc(xs[1..], x, sep);
    }
  }

  /** Messages keep their arrival order in the merged text: a later message
      with text is added on a new line; one without text adds nothing. */
  lemma MergeAppend(q: seq<Payload>, p: Payload)
    requires q != [] && Join(NonEmptyTexts(q), "\n") != ""
    ensures p.textInput != "" ==> Merge(q + [p]).text == Merge(q).text + "\n" + p.textInput
    ensures p.textInput == "" ==> Merge(q + [p]).text == Merge(q).text
  {
    NonEmptyTextsSnoc(q, p);
    var xs := NonEmptyTexts(q);
    assert xs != [];
    if p.textInput != "" {
      JoinSnoc(xs, p.textInput, "\n");
    } else {
      assert xs + [] == xs;
    }
  }

  /** A queue of one message with text hands on exactly that message. */
  lemma MergeSingle(p: Payload)
    requires p.textInput != ""
    ensures Merge([p]) == Merged(p.msgFrom, p.promptSenderName, p.textInput, p.chatId, p.contact, p.media)
  {
    assert [p][1..] == [];
  }

  // ---------------------------------------------------------------------
  // The reply and its status segment

  /** The status segment: the trimmed text after the first `|||`, if any. */
  function StatusOf(cleanReply: string): Option<string> {
    var parts := Split(cleanReply, StatusSeparator);
    if |parts| > 1 then Some(Trim(parts[1])) else None
  }

  /** `chatReply`: the headed text before the first `|||`, with the action's
      result appended when it has one. */
  function ChatReply(cleanReply: string, actionResult: Option<string>): (r: string)
    ensures StartsWith(r, Header)
    ensures r != ""
    ensures ToolService.Truthy(actionResult) ==> EndsWith(r, "\n\n[Sistem]: " + actionResult.value)
  {
    var parts := Split(cleanReply, StatusSeparator);
    var reply := ApplyHeader(if parts[0] != "" then Trim(parts[0]) else "");
    if ToolService.Truthy(actionResult) then
      var note := "\n\n[Sistem]: " + actionResult.value;
      var r := reply + note;
      assert r[..|Header|] == reply[..|Header|];
      assert r[|r| - |note|..] == note;
      r
    else reply
  }

  /** The first `|||` after a text free of `|` is found right after that text. */
  lemma SeparatorAfter(a: string, b: string)
    requires '|' !in a
    ensures IndexOf(a + StatusSeparator + b, StatusSeparator) == Some(|a|)
  {
    var s := a + StatusSeparator + b;
    assert s[|a|..|a| + 3] == StatusSeparator;
    assert OccursAt(s, StatusSeparator, |a|);
    forall j | 0 <= j < |a| ensures !OccursAt(s, StatusSeparator, j) {
      assert s[j] == a[j];
      NotOccursAt(s, StatusSeparator, j);
    }
  }

  /** A reply `a|||b` is answered with the headed `a`, and `b` up to any
      further `|||` is the status. */
  lemma ReplyWithStatus(a: string, b: string)
    requires '|' !in a
    ensures ChatReply(a + StatusSeparator + b, None) == ApplyHeader(Trim(a))
    ensures StatusOf(a + StatusSeparator + b) == Some(Trim(Split(b, StatusSeparator)[0]))
  {
    var s := a + StatusSeparator + b;
    SeparatorAfter(a, b);
    assert s[..|a|] == a;
    assert s[|a| + 3..] == b;
  }

  /** Without `|||` the whole text is the reply and there is no status. */
  lemma ReplyWithoutStatus(s: string)
    requires !Includes(s, StatusSeparator)
    ensures ChatReply(s, None) == ApplyHeader(Trim(s))
    ensures StatusOf(s).None?
  {
  }

  /** `statusCooldowns.get(chatId) || 0`. */
  function LastSent(cooldowns: map<string, int>, chatId: string): int {
    if chatId in cooldowns then cooldowns[chatId] else 0
  }

  /** `now - lastSentTime > COOLDOWN_DURATION`. */
  predicate CooldownElapsed(cooldowns: map<string, int>, chatId: string, now: int) {
    now - LastSent(cooldowns, chatId) > CooldownDuration
  }

  /** After a status went to a chat at `t`, the next one can go only once more
      than an hour has passed; other chats are not affected. */
  lemma CooldownAfterSend(cooldowns: map<string, int>, chatId: string, t: int, now: int, other: string)
    ensures CooldownElapsed(cooldowns[chatId := t], chatId, now) <==> now > t + CooldownDuration
    ensures other != chatId ==>
      (CooldownElapsed(cooldowns[chatId := t], other, now) <==> CooldownElapsed(cooldowns, other, now))
  {
  }

  // ---------------------------------------------------------------------
  // The environment of a reply

  /** What the prompt template is given. */
  datatype PromptInputs = PromptInputs(senderName: string, text: string, history: string,
                                       contact: Option<ContactService.Contact>, urgentNote: Option<string>,
                                       context: string, agenda: string, tasks: string, chatId: string)

  /** The outside world a reply depends on: the prompt template, the model
      and image describer, `JSON.parse`, the Google calls, whether `authorize()`
      gives a client, what the agenda and task listings give (`None` when one
      of them throws), the knowledge base, and whether the reply and the status
      message are delivered. */
  datatype Env = Env(prompt: PromptInputs -> string, model: AiService.Model, describe: AiService.Describer,
                     parse: ToolService.JsonParser, google: ToolService.GoogleService,
                     authResult: bool, googleLists: Option<(string, string)>,
                     store: seq<RagService.Entry>, replyDelivered: bool, statusDelivered: bool)

  const NoCalendar: string := "Google Calendar tidak tersedia."
  const NoTasks: string := "Google Tasks tidak tersedia."

  /** The agenda and tasks in the prompt: the listings with a client, the
      fixed fallbacks without one or when a listing throws. */
  function AgendaAndTasks(env: Env, authorized: bool): (r: (string, string))
    ensures !authorized ==> r == (NoCalendar, NoTasks)
  {
    if authorized && env.googleLists.Some? then env.googleLists.value else (NoCalendar, NoTasks)
  }

  /** `fullResponse`: the model's answer for the merged request, through the
      image path when there is media. */
  function FullResponse(env: Env, m: Merged, history: string, note: Option<string>, authorized: bool): (r: string)
    ensures r != ""
    ensures m.media.None? ==> r == AiService.GenerateAIResponse(env.model, SystemPrompt(env, m, history, note, authorized), Some(m.text))
  {
    var systemPrompt := SystemPrompt(env, m, history, note, authorized);
    if m.media.Some? then AiService.GenerateVisionResponse(env.describe, env.model, systemPrompt, Some(m.text), m.media)
    else AiService.GenerateAIResponse(env.model, systemPrompt, Some(m.text))
  }

  /** The system prompt for a merged request. */
  function SystemPrompt(env: Env, m: Merged, history: string, note: Option<string>, authorized: bool): string {
    var (agenda, tasks) := AgendaAndTasks(env, authorized);
    var context := RagService.Search(env.store, m.text, RagService.DefaultTopK);
    env.prompt(PromptInputs(m.promptSenderName, m.text, history, m.contact, note, context, agenda, tasks, m.chatId))
  }

  /** The messages and payloads the handler produces. */
  datatype Outgoing = Reply(to: string, text: string) | Send(to: string, text: string)

  /** A summary timer: when it is due and the contact it files under. */
  datatype SummaryTimer = SummaryTimer(due: int, meta: ContactMeta)

  /** The record `flushChatSummary` files. */
  function SummaryRecord(chatId: string, meta: ContactMeta, now: int, summary: string): (r: Summary)
    ensures r.contactName != "" && r.chatId == chatId && r.summary == summary
  {
    Summary(chatId, if meta.name != "" then meta.name else "Kontak", meta.phones, meta.senderNumber, now, summary)
  }

  /** What answering with `fullResponse` produces: the reply text, what is
      sent (the reply if it is delivered, then the status if it is due and
      delivered) and the cooldown table afterwards. */
  datatype ReplyOutcome = ReplyOutcome(reply: string, sent: seq<Outgoing>, cooldowns: map<string, int>)

  function Respond(env: Env, fullResponse: string, m: Merged, authorized: bool,
                   cooldowns: map<string, int>, now: int): (r: ReplyOutcome)
    ensures StartsWith(r.reply, Header)
    ensures |r.sent| <= 2
  {
    var out := ToolService.Interpret(fullResponse, env.parse, authorized, env.google);
    Answer(env, out.cleanReply, out.actionResult, m.msgFrom, cooldowns, now)
  }

  /** What the tool action in the answer to a merged request does to the
      urgent note. */
  function ToolEffect(env: Env, m: Merged, buffer: seq<Message>, note: Option<string>,
                      authorized: bool): ToolService.NoteEffect {
    ToolService.Interpret(FullResponse(env, m, BuildHistoryLogs(buffer, m.chatId), note, authorized),
                          env.parse, authorized, env.google).effect
  }

  /** The state after answering a merged request from the history `buffer`,
      the note `note`, the cooldown table `cooldowns`, the messages `sent` so
      far and the note file `file`: the reply is appended to the history, the
      reply and status of `Outcome` are sent, its cooldowns are kept, and the
      note and its file change as the reply's tool action asks. */
  ghost predicate Answered(env: Env, m: Merged, authorized: bool, now: int,
                           buffer: seq<Message>, note: Option<string>, cooldowns: map<string, int>,
                           sent: seq<Outgoing>, file: Option<string>,
                           buffer': seq<Message>, note': Option<string>, cooldowns': map<string, int>,
                           sent': seq<Outgoing>, file': Option<string>)
  {
    var o := Outcome(env, m, buffer, note, authorized, cooldowns, now);
    var e := ToolEffect(env, m, buffer, note, authorized);
    buffer' == buffer + [BotEntry(m.chatId, o.reply, now)] &&
    sent' == sent + o.sent && cooldowns' == o.cooldowns &&
    note' == ToolService.NoteAfter(e, note) && file' == ToolService.NoteFileAfter(e, file)
  }

  /** Whether there is a Google client after the login attempt: the one
      attempt gives `authResult`; later attempts change nothing. */
  function AuthAfter(client: bool, attempted: bool, authResult: bool): (r: bool)
    ensures r ==> client || authResult
    ensures attempted ==> r == client
  {
    if !client && !attempted then authResult else client
  }

  /** What `processAIResponse` produces for a merged request, given the
      history and the note it reads and whether a Google client exists. */
  function Outcome(env: Env, m: Merged, buffer: seq<Message>, note: Option<string>, authorized: bool,
                   cooldowns: map<string, int>, now: int): (r: ReplyOutcome)
    ensures StartsWith(r.reply, Header)
    ensures |r.sent| <= 2
  {
    Respond(env, FullResponse(env, m, BuildHistoryLogs(buffer, m.chatId), note, authorized), m, authorized, cooldowns, now)
  }

  /** What answering with a cleaned reply and a tool result produces. */
  function Answer(env: Env, cleanReply: string, actionResult: Option<string>, to: string,
                  cooldowns: map<string, int>, now: int): (r: ReplyOutcome)
    ensures StartsWith(r.reply, Header)
    ensures |r.sent| <= 2
  {
    var reply := ChatReply(cleanReply, actionResult);
    var status := StatusOf(cleanReply);
    var sendStatus := status.Some? && CooldownElapsed(cooldowns, to, now) && env.statusDelivered;
    ReplyOutcome(reply,
                 (if env.replyDelivered then [Reply(to, reply)] else [])
                 + (if sendStatus then [Send(to, status.value)] else []),
                 if sendStatus then cooldowns[to := now] else cooldowns)
  }

  /** The history entry of a reply. */
  function BotEntry(chatId: string, reply: string, now: int): (r: Message)
    ensures r.chatId == chatId && r.timestamp == now
    ensures StartsWith(reply, Header) ==> StartsWith(r.text, "[Perwira-AI]: " + Header)
  {
    var r := Message(chatId, "[Perwira-AI]: " + reply, now);
    assert StartsWith(reply, Header) ==> r.text[..|"[Perwira-AI]: " + Header|] == "[Perwira-AI]: " + Header;
    r
  }

  // ---------------------------------------------------------------------
  // The module state

  class Orchestrator {
    /** `privateMessageQueues`. */
    var queues: map<string, seq<Payload>>
    /** `privateDebounceTimers`: when each chat's pending flush is due. */
    var debounceTimers: map<string, int>
    /** `summaryTimers`. */
    var summaryTimers: map<string, SummaryTimer>
    /** `statusCooldowns`. */
    var statusCooldowns: map<string, int>
    /** `googleAuthClient` (whether there is one) and `googleAuthAttempted`. */
    var googleAuthClient: bool
    var googleAuthAttempted: bool
    /** Everything sent, in order. */
    var outbox: seq<Outgoing>

    /** The handler's invariant. */
    predicate Valid()
      reads this`queues, this`debounceTimers, this`googleAuthClient, this`googleAuthAttempted
    {
      AuthValid() && QueuesValid()
    }

    /** A Google client exists only after the login was attempted. */
    predicate AuthValid()
      reads this`googleAuthClient, this`googleAuthAttempted
    {
      googleAuthClient ==> googleAuthAttempted
    }

    /** Every queued chat has one pending flush and vice versa, no queue is
        empty, and a chat's queue holds only that chat's messages. */
    predicate QueuesValid()
      reads this`queues, this`debounceTimers
    {
      queues.Keys == debounceTimers.Keys &&
      (forall c :: c in queues ==> queues[c] != []) &&
      (forall c, i :: c in queues && 0 <= i < |queues[c]| ==> queues[c][i].chatId == c)
    }

    constructor ()
      ensures Valid()
      ensures queues == map[] && debounceTimers == map[] && summaryTimers == map[] && statusCooldowns == map[]
      ensures !googleAuthClient && !googleAuthAttempted && outbox == []
    {
      queues := map[];
      debounceTimers := map[];
      summaryTimers := map[];
      statusCooldowns := map[];
      googleAuthClient := false;
      googleAuthAttempted := false;
      outbox := [];
    }

    /** `privateMessageQueues.get(chatId) || []`. */
    function QueueOf(chatId: string): seq<Payload>
      reads this
    {
      if chatId in queues then queues[chatId] else []
    }

    /** `enqueuePrivateMessage(payload)`: appends to the chat's queue and
        re-arms its one flush timer. */
    method EnqueuePrivateMessage(p: Payload, now: int)
      requires Valid()
      modifies this`queues, this`debounceTimers
      ensures Valid()
      ensures queues == old(queues)[p.chatId := old(QueueOf(p.chatId)) + [p]]
      ensures debounceTimers == old(debounceTimers)[p.chatId := now + DebounceTime]
    {
      var queue := QueueOf(p.chatId);
      queue := queue + [p];
      queues := queues[p.chatId := queue];
      debounceTimers := debounceTimers[p.chatId := now + DebounceTime];
    }

    /** `flushPrivateQueue(chatId)` up to the reply: detaches the queue and the
        timer before anything else, then merges. */
    method FlushPrivateQueue(chatId: string) returns (merged: Option<Merged>)
      requires Valid()
      modifies this`queues, this`debounceTimers
      ensures Valid()
      ensures queues == old(queues) - {chatId} && debounceTimers == old(debounceTimers) - {chatId}
      ensures merged == if old(QueueOf(chatId)) == [] then None else Some(Merge(old(QueueOf(chatId))))
    {
      var queue := QueueOf(chatId);
      queues := queues - {chatId};
      if chatId in debounceTimers {
        debounceTimers := debounceTimers - {chatId};
      }
      if queue == [] {
        return None;
      }
      merged := Some(Merge(queue));
    }

    /** `scheduleChatSummary(chatId, contactMeta)`: one timer per chat, re-armed. */
    method ScheduleChatSummary(chatId: string, meta: ContactMeta, now: int)
      modifies this`summaryTimers
      ensures summaryTimers == old(summaryTimers)[chatId := SummaryTimer(now + SummaryWindow, meta)]
    {
      summaryTimers := summaryTimers[chatId := SummaryTimer(now + SummaryWindow, meta)];
    }

    /** `flushChatSummary(chatId, contactMeta)`: without messages only the
        timer goes; otherwise one summary is filed and the chat's messages are
        cleared. The summary call never throws, so the catch is not reached. */
    method FlushChatSummary(db: Database, chatId: string, meta: ContactMeta, model: AiService.Model, now: int)
      modifies this`summaryTimers, db`messageBuffer, db`conversationSummaries, db`savedFile
      ensures summaryTimers == old(summaryTimers) - {chatId}
      ensures old(db.GetMessagesByChat(chatId)) == [] ==>
        db.messageBuffer == old(db.messageBuffer) && db.conversationSummaries == old(db.conversationSummaries)
        && db.savedFile == old(db.savedFile)
      ensures old(db.GetMessagesByChat(chatId)) != [] ==>
        var logText := Join(TextsOf(old(db.GetMessagesByChat(chatId))), "\n");
        db.conversationSummaries == old(db.conversationSummaries)
          + [SummaryRecord(chatId, meta, now, AiService.GenerateSummary(model, logText))] &&
        db.messageBuffer == OtherChats(old(db.messageBuffer), chatId) && db.Saved()
      ensures db.GetMessagesByChat(chatId) == []
    {
      var logs := db.GetMessagesByChat(chatId);
      if logs == [] {
        summaryTimers := summaryTimers - {chatId};
        return;
      }
      var fullLogText := Join(TextsOf(logs), "\n");
      var summary := AiService.GenerateSummary(model, fullLogText);
      db.AddConversationSummary(SummaryRecord(chatId, meta, now, summary));
      db.ClearMessagesByChat(chatId);
      summaryTimers := summaryTimers - {chatId};
    }

    /** The summary timer of `chatId` fires. */
    method FireSummaryTimer(db: Database, chatId: string, model: AiService.Model, now: int)
      requires chatId in summaryTimers && summaryTimers[chatId].due <= now
      modifies this`summaryTimers, db`messageBuffer, db`conversationSummaries, db`savedFile
      ensures chatId !in summaryTimers
      ensures db.GetMessagesByChat(chatId) == []
      ensures |db.conversationSummaries| <= |old(db.conversationSummaries)| + 1
    {
      FlushChatSummary(db, chatId, summaryTimers[chatId].meta, model, now);
    }

    /** The cooldown block: the status goes out only when more than an hour
        passed since the last one to that chat, and the time is recorded only
        once it was delivered. */
    method SendStatus(to: string, status: string, now: int, delivered: bool)
      modifies this`statusCooldowns, this`outbox
      ensures CooldownElapsed(old(statusCooldowns), to, now) && delivered ==>
        outbox == old(outbox) + [Send(to, status)] && statusCooldowns == old(statusCooldowns)[to := now]
      ensures !(CooldownElapsed(old(statusCooldowns), to, now) && delivered) ==>
        outbox == old(outbox) && statusCooldowns == old(statusCooldowns)
    {
      var lastSentTime := LastSent(statusCooldowns, to);
      if now - lastSentTime > CooldownDuration {
        if delivered {
          outbox := outbox + [Send(to, status)];
          statusCooldowns := statusCooldowns[to := now];
        }
      }
    }

    /** The one Google login attempt: later replies reuse what it gave. */
    method Authorize(authResult: bool)
      requires googleAuthClient ==> googleAuthAttempted
      modifies this`googleAuthClient, this`googleAuthAttempted
      ensures googleAuthAttempted
      ensures googleAuthClient == AuthAfter(old(googleAuthClient), old(googleAuthAttempted), authResult)
    {
      if !googleAuthClient && !googleAuthAttempted {
        googleAuthAttempted := true;
        googleAuthClient := authResult;
      }
    }

    /** The first half of `processAIResponse(...)` after the login attempt:
        the history, the note, and the model's answer. */
    method GenerateResponse(db: Database, m: Merged, env: Env, authorized: bool) returns (fullResponse: string)
      ensures fullResponse == FullResponse(env, m, BuildHistoryLogs(db.messageBuffer, m.chatId), db.urgentNote,
                                           authorized)
    {
      var historyLogs := BuildHistoryLogs(db.messageBuffer, m.chatId);
      fullResponse := FullResponse(env, m, historyLogs, db.urgentNote, authorized);
    }

    /** Sends the reply, then the status segment under its cooldown. The
        reply always has text, so it is always sent. */
    method PostReply(to: string, cleanReply: string, actionResult: Option<string>, env: Env, now: int)
      returns (chatReply: string)
      modifies this`statusCooldowns, this`outbox
      ensures googleAuthClient == old(googleAuthClient) && googleAuthAttempted == old(googleAuthAttempted)
      ensures queues == old(queues) && debounceTimers == old(debounceTimers)
      ensures var o := Answer(env, cleanReply, actionResult, to, old(statusCooldowns), now);
        chatReply == o.reply && outbox == old(outbox) + o.sent && statusCooldowns == o.cooldowns
    {
      chatReply := ChatReply(cleanReply, actionResult);
      ghost var replied: seq<Outgoing> := if env.replyDelivered then [Reply(to, chatReply)] else [];
      if chatReply != "" {
        if env.replyDelivered {
          outbox := outbox + [Reply(to, chatReply)];
        }
      }
      assert outbox == old(outbox) + replied;
      var status := StatusOf(cleanReply);
      ghost var statused: seq<Outgoing> :=
        if status.Some? && CooldownElapsed(statusCooldowns, to, now) && env.statusDelivered
        then [Send(to, status.value)] else [];
      if status.Some? {
        SendStatus(to, status.value, now, env.statusDelivered);
      }
      assert outbox == old(outbox) + replied + statused;
      assert Answer(env, cleanReply, actionResult, to, old(statusCooldowns), now).sent == replied + statused;
      AppendAssoc(old(outbox), replied, statused);
    }

    /** The second half of `processAIResponse(...)`: the tool call, the reply,
        the status, and the reply's history entry. */
    method DeliverReply(db: Database, m: Merged, fullResponse: string, authorized: bool, env: Env, now: int)
      modifies this`statusCooldowns, this`outbox
      modifies db`messageBuffer, db`savedFile, db`urgentNote, db`noteFile
      ensures googleAuthClient == old(googleAuthClient) && googleAuthAttempted == old(googleAuthAttempted)
      ensures queues == old(queues) && debounceTimers == old(debounceTimers)
      ensures db.Saved()
      ensures var o := Respond(env, fullResponse, m, authorized, old(statusCooldowns), now);
        db.messageBuffer == old(db.messageBuffer) + [BotEntry(m.chatId, o.reply, now)] &&
        outbox == old(outbox) + o.sent && statusCooldowns == o.cooldowns
      ensures var e := ToolService.Interpret(fullResponse, env.parse, authorized, env.google).effect;
        db.urgentNote == ToolService.NoteAfter(e, old(db.urgentNote)) &&
        db.noteFile == ToolService.NoteFileAfter(e, old(db.noteFile))
    {
      ghost var o := Respond(env, fullResponse, m, authorized, statusCooldowns, now);
      var cleanReply, actionResult := ToolService.ParseAndExecuteTool(db, fullResponse, env.parse, authorized, env.google);
      assert o == Answer(env, cleanReply, actionResult, m.msgFrom, old(statusCooldowns), now);
      var chatReply := PostReply(m.msgFrom, cleanReply, actionResult, env, now);
      assert chatReply == o.reply && chatReply != "";
      if chatReply != "" {
        db.AddMessageToBuffer(BotEntry(m.chatId, chatReply, now));
      }
    }

    /** `processAIResponse(...)`: the login attempt, then one reply, recorded
        at the end of the history. */
    method ProcessAIResponse(db: Database, m: Merged, env: Env, now: int)
      requires googleAuthClient ==> googleAuthAttempted
      modifies this`googleAuthClient, this`googleAuthAttempted, this`statusCooldowns, this`outbox
      modifies db`messageBuffer, db`savedFile, db`urgentNote, db`noteFile
      ensures queues == old(queues) && debounceTimers == old(debounceTimers)
      ensures db.Saved()
      ensures googleAuthAttempted
      ensures googleAuthClient == AuthAfter(old(googleAuthClient), old(googleAuthAttempted), env.authResult)
      ensures Answered(env, m, AuthAfter(old(googleAuthClient), old(googleAuthAttempted), env.authResult), now,
                       old(db.messageBuffer), old(db.urgentNote), old(statusCooldowns), old(outbox), old(db.noteFile),
                       db.messageBuffer, db.urgentNote, statusCooldowns, outbox, db.noteFile)
    {
      var authorized := AuthAfter(googleAuthClient, googleAuthAttempted, env.authResult);
      Authorize(env.authResult);
      ReplyTo(db, m, env, authorized, now, old(db.messageBuffer), old(db.urgentNote), old(statusCooldowns), old(outbox), old(db.noteFile));
    }

    /** Everything of `processAIResponse(...)` after the login attempt, from
        the history `buffer`, the note `note`, the cooldown table `cooldowns`
        and the messages `sent` so far. */
    method ReplyTo(db: Database, m: Merged, env: Env, authorized: bool, now: int,
                   ghost buffer: seq<Message>, ghost note: Option<string>,
                   ghost cooldowns: map<string, int>, ghost sent: seq<Outgoing>, ghost file: Option<string>)
      requires db.messageBuffer == buffer && db.urgentNote == note && db.noteFile == file
      requires statusCooldowns == cooldowns && outbox == sent
      modifies this`statusCooldowns, this`outbox
      modifies db`messageBuffer, db`savedFile, db`urgentNote, db`noteFile
      ensures googleAuthClient == old(googleAuthClient) && googleAuthAttempted == old(googleAuthAttempted)
      ensures queues == old(queues) && debounceTimers == old(debounceTimers)
      ensures db.Saved()
      ensures Answered(env, m, authorized, now, buffer, note, cooldowns, sent, file,
                       db.messageBuffer, db.urgentNote, statusCooldowns, outbox, db.noteFile)
    {
      var fullResponse := GenerateResponse(db, m, env, authorized);
      DeliverReply(db, m, fullResponse, authorized, env, now);
    }

    /** The debounce timer of `chatId` fires: the burst is merged and answered
        once, and the chat has no queue and no timer left. */
    method FireDebounceTimer(db: Database, chatId: string, env: Env, now: int)
      requires Valid() && chatId in debounceTimers && debounceTimers[chatId] <= now
      modifies this`queues, this`debounceTimers, this`googleAuthClient, this`googleAuthAttempted
      modifies this`statusCooldowns, this`outbox, db`messageBuffer, db`savedFile, db`urgentNote, db`noteFile
      ensures Valid()
      ensures queues == old(queues) - {chatId} && debounceTimers == old(debounceTimers) - {chatId}
    {
      var merged := FlushPrivateQueue(chatId);
      assert merged.Some?;
      assert QueuesValid();
      ghost var q, t := queues, debounceTimers;
      ProcessAIResponse(db, merged.value, env, now);
      assert queues == q && debounceTimers == t;
    }

    /** The reply to a command, with its effect on the switch and the note. */
    method RunCommand(db: Database, bot: State.BotState, c: Command, to: string, now: int)
      modifies this`outbox, db`urgentNote, db`noteFile, bot
      ensures outbox == old(outbox) + [Reply(to, CommandReply(c, old(db.urgentNote)))]
      ensures c.Activate? ==> bot.isBotActive && bot.activationTimestamp == Some(now)
      ensures c.Pause? ==> !bot.isBotActive && bot.activationTimestamp == old(bot.activationTimestamp)
      ensures !c.Activate? && !c.Pause? ==> unchanged(bot)
      ensures c.SaveNote? && c.note != "" ==> db.urgentNote == Some(c.note) && db.noteFile == Some(c.note)
      ensures c.DeleteNote? ==> db.urgentNote == Some("") && db.noteFile.None?
      ensures !(c.SaveNote? && c.note != "") && !c.DeleteNote? ==> unchanged(db)
    {
      var reply := CommandReply(c, db.urgentNote);
      match c {
        case Activate => bot.SetBotStatus(true, now);
        case Pause => bot.SetBotStatus(false, now);
        case SaveNote(n) =>
          if n != "" {
            var _ := db.SaveUrgentNote(Some(n));
          }
        case DeleteNote => db.DeleteUrgentNote();
        case _ =>
      }
      outbox := outbox + [Reply(to, reply)];
    }

    /** The tail of `handleMessage` for a message that is answered: the
        history entry, the summary timer and the queued payload. */
    method Admit(db: Database, entry: Message, meta: ContactMeta, p: Payload, now: int)
      requires Valid()
      modifies this`queues, this`debounceTimers, this`summaryTimers, db`messageBuffer, db`savedFile
      ensures Valid()
      ensures db.messageBuffer == old(db.messageBuffer) + [entry]
      ensures summaryTimers == old(summaryTimers)[p.chatId := SummaryTimer(now + SummaryWindow, meta)]
      ensures queues == old(queues)[p.chatId := old(QueueOf(p.chatId)) + [p]]
      ensures debounceTimers == old(debounceTimers)[p.chatId := now + DebounceTime]
      ensures db.Saved()
    {
      db.AddMessageToBuffer(entry);
      ScheduleChatSummary(p.chatId, meta, now);
      EnqueuePrivateMessage(p, now);
    }

    /** What `handleMessage` does once the route is known: run the command
        and reply to `to`, or admit the message with its history entry,
        summary contact and payload; every other route changes nothing. */
    method Dispatch(db: Database, bot: State.BotState, route: Route, to: string,
                    entry: Message, meta: ContactMeta, p: Payload, now: int)
      requires Valid()
      modifies this`queues, this`debounceTimers, this`summaryTimers, this`outbox
      modifies db`messageBuffer, db`savedFile, db`urgentNote, db`noteFile, bot
      ensures Valid()
      ensures !route.Run? && !route.Queued? ==> unchanged(this) && unchanged(db) && unchanged(bot)
      ensures route.Run? ==>
        outbox == old(outbox) + [Reply(to, CommandReply(route.command, old(db.urgentNote)))] &&
        queues == old(queues) && debounceTimers == old(debounceTimers) && summaryTimers == old(summaryTimers) &&
        db.messageBuffer == old(db.messageBuffer) &&
        bot.isBotActive == (if route.command.Activate? then true else if route.command.Pause? then false
                            else old(bot.isBotActive))
      ensures route.Run? ==>
        db.savedFile == old(db.savedFile) &&
        bot.activationTimestamp == (if route.command.Activate? then Some(now) else old(bot.activationTimestamp))
      ensures route.Run? && route.command.SaveNote? && route.command.note != "" ==>
        db.urgentNote == Some(route.command.note) && db.noteFile == Some(route.command.note)
      ensures route.Run? && route.command.DeleteNote? ==> db.urgentNote == Some("") && db.noteFile.None?
      ensures route.Run? && !(route.command.SaveNote? && route.command.note != "") && !route.command.DeleteNote? ==>
        db.urgentNote == old(db.urgentNote) && db.noteFile == old(db.noteFile)
      ensures route.Queued? ==>
        db.messageBuffer == old(db.messageBuffer) + [entry] &&
        summaryTimers == old(summaryTimers)[p.chatId := SummaryTimer(now + SummaryWindow, meta)] &&
        queues == old(queues)[p.chatId := old(QueueOf(p.chatId)) + [p]] &&
        debounceTimers == old(debounceTimers)[p.chatId := now + DebounceTime] &&
        outbox == old(outbox) && unchanged(bot) && db.urgentNote == old(db.urgentNote) &&
        db.noteFile == old(db.noteFile) && db.Saved()
    {
      match route {
        case Run(c) =>
          RunCommand(db, bot, c, to, now);
        case Queued =>
          Admit(db, entry, meta, p, now);
        case _ =>
      }
    }

    /** `handleMessage(msg)`: drops broadcasts and senders off the whitelist,
        runs commands whatever the switch, and otherwise, when the bot is on
        and addressed, records the message, re-arms the chat's summary and
        queues the message for the debounced reply. The early returns are
        the cases of `RouteOf`, taken in the same order. */
    method HandleMessage(db: Database, bot: State.BotState, m: Incoming,
                         numbers: seq<ContactService.AllowedNumber>, groups: seq<ContactService.AllowedGroup>,
                         contacts: Option<seq<ContactService.Contact>>, special: seq<ContactService.Contact>,
                         myId: Option<string>, now: int)
      returns (route: Route)
      requires Valid()
      modifies this`queues, this`debounceTimers, this`summaryTimers, this`outbox
      modifies db`messageBuffer, db`savedFile, db`urgentNote, db`noteFile, bot
      ensures route == RouteOf(m, numbers, groups, myId, old(bot.isBotActive))
      ensures Valid()
      ensures !route.Run? && !route.Queued? ==> unchanged(this) && unchanged(db) && unchanged(bot)
      ensures route.Run? ==>
        outbox == old(outbox) + [Reply(m.from, CommandReply(route.command, old(db.urgentNote)))] &&
        queues == old(queues) && debounceTimers == old(debounceTimers) && summaryTimers == old(summaryTimers) &&
        db.messageBuffer == old(db.messageBuffer) &&
        bot.isBotActive == (if route.command.Activate? then true else if route.command.Pause? then false
                            else old(bot.isBotActive))
      ensures route.Run? ==>
        db.savedFile == old(db.savedFile) &&
        bot.activationTimestamp == (if route.command.Activate? then Some(now) else old(bot.activationTimestamp))
      ensures route.Run? && route.command.SaveNote? && route.command.note != "" ==>
        db.urgentNote == Some(route.command.note) && db.noteFile == Some(route.command.note)
      ensures route.Run? && route.command.DeleteNote? ==> db.urgentNote == Some("") && db.noteFile.None?
      ensures route.Run? && !(route.command.SaveNote? && route.command.note != "") && !route.command.DeleteNote? ==>
        db.urgentNote == old(db.urgentNote) && db.noteFile == old(db.noteFile)
      ensures var sc := SpecialContactOf(m, contacts, special);
        route.Queued? ==>
          db.messageBuffer == old(db.messageBuffer) + [IncomingEntry(m, now)] &&
          summaryTimers == old(summaryTimers)[m.chatId := SummaryTimer(now + SummaryWindow, ContactMetaOf(m, sc))] &&
          queues == old(queues)[m.chatId := old(QueueOf(m.chatId)) + [PayloadOf(m, sc)]] &&
          debounceTimers == old(debounceTimers)[m.chatId := now + DebounceTime] &&
          outbox == old(outbox) && unchanged(bot) && db.urgentNote == old(db.urgentNote) &&
          db.noteFile == old(db.noteFile) && db.Saved()
    {
      var active := bot.GetBotStatus();
      route := RouteOf(m, numbers, groups, myId, active);
      var sc := SpecialContactOf(m, contacts, special);
      Dispatch(db, bot, route, m.from, IncomingEntry(m, now), ContactMetaOf(m, sc), PayloadOf(m, sc), now);
    }
  }
}
