/** The in-memory history store of `src/database/db.js`: the message buffer,
    the conversation summaries and the urgent-note cell, with the copy that
    `saveDatabase` writes to `database.json`. */
module Db {
  import opened Wrappers

  /** One history entry `{ chatId, text, timestamp }`. */
  datatype Message = Message(chatId: string, text: string, timestamp: int)

  /** One conversation summary record. */
  datatype Summary = Summary(chatId: string, contactName: string, phones: seq<string>,
                             senderNumber: string, timestamp: int, summary: string)

  /** What `database.json` held when the process started. `NullValue` is the
      JSON text `null`, whose `.messages` access throws; `OtherValue` is any
      other non-array value, with `None` for a member that is not an array. */
  datatype DbFile =
    | NoFile
    | Unparsable
    | NullValue
    | ArrayValue(items: seq<Message>)
    | OtherValue(messages: Option<seq<Message>>, summaries: Option<seq<Summary>>)

  /** The two arrays `saveDatabase` last wrote. */
  datatype SavedDb = SavedDb(messages: seq<Message>, summaries: seq<Summary>)

  /** How many messages and summaries `saveDatabase` keeps in the file. */
  const SavedMessageLimit: nat := 1000
  const SavedSummaryLimit: nat := 500

  /** The entries of `buf` that belong to `chatId`, in buffer order
      (`messageBuffer.filter(item => item.chatId === chatId)`). */
  function ChatEntries(buf: seq<Message>, chatId: string): (r: seq<Message>)
    ensures |r| <= |buf|
    ensures forall m :: m in r <==> m in buf && m.chatId == chatId
  {
    if buf == [] then []
    else (if buf[0].chatId == chatId then [buf[0]] else []) + ChatEntries(buf[1..], chatId)
  }

  /** The entries of `buf` that do not belong to `chatId`, in buffer order. */
  function OtherChats(buf: seq<Message>, chatId: string): (r: seq<Message>)
    ensures |r| <= |buf|
    ensures forall m :: m in r <==> m in buf && m.chatId != chatId
  {
    if buf == [] then []
    else (if buf[0].chatId != chatId then [buf[0]] else []) + OtherChats(buf[1..], chatId)
  }

  /** Filtering by chat distributes over concatenation: the entries of one chat
      keep the order they had in the buffer. */
  lemma {:induction false} ChatEntriesAppend(a: seq<Message>, b: seq<Message>, chatId: string)
    ensures ChatEntries(a + b, chatId) == ChatEntries(a, chatId) + ChatEntries(b, chatId)
  {
    if a == [] {
      assert a + b == b;
    } else {
      assert (a + b)[0] == a[0];
      assert (a + b)[1..] == a[1..] + b;
      ChatEntriesAppend(a[1..], b, chatId);
    }
  }

  /** Removing one chat leaves every other chat's entries exactly as they were,
      in the same order, and none of the removed chat's. */
  lemma {:induction false} OtherChatsKeepsOthers(buf: seq<Message>, chatId: string, other: string)
    ensures ChatEntries(OtherChats(buf, chatId), chatId) == []
    ensures other != chatId ==> ChatEntries(OtherChats(buf, chatId), other) == ChatEntries(buf, other)
  {
    if buf != [] {
      OtherChatsKeepsOthers(buf[1..], chatId, other);
      var head := if buf[0].chatId != chatId then [buf[0]] else [];
      ChatEntriesAppend(head, OtherChats(buf[1..], chatId), chatId);
      ChatEntriesAppend(head, OtherChats(buf[1..], chatId), other);
    }
  }

  /** The last `n` elements of `s`, or all of them when there are fewer
      (`s.slice(-n)` for `n > 0`). */
  function LastN<T>(s: seq<T>, n: nat): (r: seq<T>)
    requires n > 0
    ensures |r| == if |s| <= n then |s| else n
    ensures r == s[|s| - |r|..]
  {
    if |s| <= n then s else s[|s| - n..]
  }

  class Database {
    var messageBuffer: seq<Message>
    var conversationSummaries: seq<Summary>
    /** The urgent note; `None` stands for a non-string value (`undefined`)
        that a note action without a string `content` stores. */
    var urgentNote: Option<string>
    /** `urgent_note.txt`: `None` when the file does not exist. */
    var noteFile: Option<string>
    /** `database.json` as this process last wrote it; `None` before the first write. */
    var savedFile: Option<SavedDb>

    /** The module's start-up: the note file is read if it exists, and
        `database.json` is read in either of its two formats. */
    constructor (noteOnDisk: Option<string>, dbFile: DbFile)
      ensures urgentNote == Some(noteOnDisk.GetOr(""))
      ensures noteFile == noteOnDisk && savedFile.None?
      ensures dbFile.ArrayValue? ==> messageBuffer == dbFile.items && conversationSummaries == []
      ensures dbFile.OtherValue? ==>
        messageBuffer == dbFile.messages.GetOr([]) && conversationSummaries == dbFile.summaries.GetOr([])
      ensures !dbFile.ArrayValue? && !dbFile.OtherValue? ==> messageBuffer == [] && conversationSummaries == []
    {
      urgentNote := Some(noteOnDisk.GetOr(""));
      noteFile := noteOnDisk;
      savedFile := None;
      match dbFile
      case ArrayValue(items) =>
        messageBuffer := items;
        conversationSummaries := [];
      case OtherValue(messages, summaries) =>
        messageBuffer := messages.GetOr([]);
        conversationSummaries := summaries.GetOr([]);
      case _ =>
        messageBuffer := [];
        conversationSummaries := [];
    }

    /** `database.json` holds the newest messages and summaries in memory,
        as `saveDatabase` writes them. */
    predicate Saved()
      reads this`savedFile, this`messageBuffer, this`conversationSummaries
    {
      savedFile == Some(SavedDb(LastN(messageBuffer, SavedMessageLimit),
                                LastN(conversationSummaries, SavedSummaryLimit)))
    }

    /** `saveDatabase`: only the written copy is trimmed, never the arrays in memory. */
    method SaveDatabase()
      modifies this`savedFile
      ensures savedFile == Some(SavedDb(LastN(messageBuffer, SavedMessageLimit),
                                        LastN(conversationSummaries, SavedSummaryLimit)))
      ensures |savedFile.value.messages| <= SavedMessageLimit && |savedFile.value.summaries| <= SavedSummaryLimit
    {
      savedFile := Some(SavedDb(LastN(messageBuffer, SavedMessageLimit),
                                LastN(conversationSummaries, SavedSummaryLimit)));
    }

    /** `saveUrgentNote(note)`. The note is stored first; writing a value that
        is not a string throws (`thrown`), leaving the file as it was. */
    method SaveUrgentNote(note: Option<string>) returns (thrown: bool)
      modifies this`urgentNote, this`noteFile
      ensures urgentNote == note
      ensures thrown <==> note.None?
      ensures noteFile == if note.Some? then note else old(noteFile)
    {
      urgentNote := note;
      thrown := note.None?;
      if !thrown {
        noteFile := note;
      }
    }

    /** `deleteUrgentNote`: the note reads as "" afterwards and the file is gone. */
    method DeleteUrgentNote()
      modifies this`urgentNote, this`noteFile
      ensures urgentNote == Some("") && noteFile.None?
    {
      urgentNote := Some("");
      noteFile := None;
    }

    function GetUrgentNote(): Option<string>
      reads this
    {
      urgentNote
    }

    function GetMessageBuffer(): seq<Message>
      reads this
    {
      messageBuffer
    }

    /** `addMessageToBuffer`: appends at the end and saves. */
    method AddMessageToBuffer(message: Message)
      modifies this`messageBuffer, this`savedFile
      ensures messageBuffer == old(messageBuffer) + [message]
      ensures savedFile == Some(SavedDb(LastN(messageBuffer, SavedMessageLimit),
                                        LastN(conversationSummaries, SavedSummaryLimit)))
    {
      messageBuffer := messageBuffer + [message];
      SaveDatabase();
    }

    /** `clearMessageBuffer`: empties the buffer and saves. */
    method ClearMessageBuffer()
      modifies this`messageBuffer, this`savedFile
      ensures messageBuffer == []
      ensures savedFile == Some(SavedDb([], LastN(conversationSummaries, SavedSummaryLimit)))
    {
      messageBuffer := [];
      SaveDatabase();
    }

    /** `getMessagesByChat`. */
    function GetMessagesByChat(chatId: string): seq<Message>
      reads this
    {
      ChatEntries(messageBuffer, chatId)
    }

    /** `clearMessagesByChat`: drops exactly that chat's entries and saves. */
    method ClearMessagesByChat(chatId: string)
      modifies this`messageBuffer, this`savedFile
      ensures messageBuffer == OtherChats(old(messageBuffer), chatId)
      ensures GetMessagesByChat(chatId) == []
      ensures forall other :: other != chatId ==> GetMessagesByChat(other) == old(GetMessagesByChat(other))
      ensures savedFile == Some(SavedDb(LastN(messageBuffer, SavedMessageLimit),
                                        LastN(conversationSummaries, SavedSummaryLimit)))
    {
      ghost var before := messageBuffer;
      messageBuffer := OtherChats(messageBuffer, chatId);
      OtherChatsKeepsOthers(before, chatId, chatId);
      forall other | other != chatId
        ensures ChatEntries(messageBuffer, other) == ChatEntries(before, other)
      {
        OtherChatsKeepsOthers(before, chatId, other);
      }
      SaveDatabase();
    }

    /** `addConversationSummary`: appends one record and saves. */
    method AddConversationSummary(summary: Summary)
      modifies this`conversationSummaries, this`savedFile
      ensures conversationSummaries == old(conversationSummaries) + [summary]
      ensures savedFile == Some(SavedDb(LastN(messageBuffer, SavedMessageLimit),
                                        LastN(conversationSummaries, SavedSummaryLimit)))
    {
      conversationSummaries := conversationSummaries + [summary];
      SaveDatabase();
    }

    function GetConversationSummaries(): seq<Summary>
      reads this
    {
      conversationSummaries
    }
  }
}
