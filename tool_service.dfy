/** The tool interpreter of `src/services/toolService.js`: it finds one JSON
    object in the model's reply, carries out the action it names, and strips
    the object from the reply when the action produced a result (or the object
    was empty).

    The environment is a parameter: `JSON.parse` is the oracle `parse`, the
    six Google calendar/task calls with a working authorization are the oracle
    `google`, and whether an authorization client exists is `authorized`. */
module ToolService {
  import opened Wrappers
  import opened JsText
  import opened Db

  /** What `JSON.parse` yields for a candidate. Every candidate starts with
      `{` and ends with `}`, so a successful parse is an object: `keyCount` is
      `Object.keys(obj).length` and `strings` holds its string-valued members. */
  datatype JsonObject = JsonObject(keyCount: nat, strings: map<string, string>)

  type JsonParser = string -> Option<JsonObject>

  /** `obj[key]` when it is a string; `None` when it is missing or not a string. */
  function Member(obj: JsonObject, key: string): Option<string> {
    if key in obj.strings then Some(obj.strings[key]) else None
  }

  type NonEmptyString = s: string | s != [] witness "."

  /** The six Google calls, with their arguments taken from the action object. */
  datatype GoogleCall =
    | CreateEvent(summary: Option<string>, startTime: Option<string>, endTime: Option<string>)
    | UpdateEvent(eventId: Option<string>, summary: Option<string>, startTime: Option<string>, endTime: Option<string>)
    | DeleteEvent(eventId: Option<string>)
    | CreateTask(title: Option<string>, dueDate: Option<string>)
    | UpdateTask(taskId: Option<string>, title: Option<string>, dueDate: Option<string>)
    | DeleteTask(taskId: Option<string>)

  /** A Google call made with a working authorization: the non-empty message
      it returns (its own `try` turns an API error into one), or `None` when
      it throws before that `try` — `createTask` and `updateTask` convert a
      due date with `new Date(..).toISOString()` outside it, which throws on
      a date that does not parse. */
  type GoogleService = GoogleCall -> Option<NonEmptyString>

  /** What `await`ing a Google call gives `executeToolAction`: its message, or
      `None` when it throws, which the `catch` turns into `null`. */
  function GoogleResult(google: GoogleService, call: GoogleCall): (r: Option<string>)
    ensures r.Some? <==> google(call).Some?
    ensures r.Some? ==> r.value == google(call).value && r.value != ""
  {
    match google(call)
    case None => None
    case Some(m) => Some(m)
  }

  /** What every Google call returns when there is no authorization client. */
  const AuthFailed: string := "Auth failed."

  /** The effect an action has on the urgent note. `StoreNote(None)` is a note
      action whose `content` is missing or not a string. */
  datatype NoteEffect = NoNoteChange | StoreNote(note: Option<string>) | RemoveNote

  /** The urgent note after an action with effect `e`; `note` is the note before. */
  function NoteAfter(e: NoteEffect, note: Option<string>): Option<string> {
    match e
    case NoNoteChange => note
    case StoreNote(n) => n
    case RemoveNote => Some("")
  }

  /** The note file after an action with effect `e`: a value that is not a
      string is never written, and a deleted note has no file. */
  function NoteFileAfter(e: NoteEffect, file: Option<string>): Option<string> {
    match e
    case NoNoteChange => file
    case StoreNote(n) => if n.Some? then n else file
    case RemoveNote => None
  }

  /** What `executeToolAction` returns (`None` for `null`) and does to the note. */
  datatype Dispatch = Dispatch(result: Option<string>, effect: NoteEffect)

  predicate IsGoogleAction(a: string) {
    a in {"create_event", "edit_event", "delete_event", "create_task", "edit_task", "delete_task"}
  }

  predicate IsNoteWrite(a: string) {
    a == "add_note" || a == "edit_note"
  }

  /** The whitelist actions; the functions they call are not exported by the
      contact service, so calling them throws and the action yields `null`. */
  predicate IsWhitelistAction(a: string) {
    a in {"add_allowed_number", "edit_allowed_number", "remove_allowed_number",
          "add_allowed_group", "edit_allowed_group", "remove_allowed_group"}
  }

  function NoteSavedMessage(content: string): string {
    "Catatan disimpan: \"" + content + "\""
  }

  /** JavaScript truthiness of an action result. */
  predicate Truthy(r: Option<string>) {
    r.Some? && r.value != ""
  }

  /** The Google call a Google action names. */
  function GoogleCallOf(obj: JsonObject, action: string): GoogleCall
    requires IsGoogleAction(action)
  {
    match action
    case "create_event" => CreateEvent(Member(obj, "summary"), Member(obj, "startTime"), Member(obj, "endTime"))
    case "edit_event" => UpdateEvent(Member(obj, "eventId"), Member(obj, "summary"), Member(obj, "startTime"), Member(obj, "endTime"))
    case "delete_event" => DeleteEvent(Member(obj, "eventId"))
    case "create_task" => CreateTask(Member(obj, "title"), Member(obj, "dueDate"))
    case "edit_task" => UpdateTask(Member(obj, "taskId"), Member(obj, "title"), Member(obj, "dueDate"))
    case "delete_task" => DeleteTask(Member(obj, "taskId"))
  }

  /** The `switch` of `executeToolAction` on a parsed object: what it returns
      and what it does to the urgent note. */
  function ActionDispatch(obj: JsonObject, authorized: bool, google: GoogleService): (d: Dispatch)
    ensures Member(obj, "action").None? || Member(obj, "action") == Some("") ==> d == Dispatch(None, NoNoteChange)
    ensures d.result.Some? <==>
      Member(obj, "action").Some? &&
      ((IsGoogleAction(Member(obj, "action").value)
        && (!authorized || google(GoogleCallOf(obj, Member(obj, "action").value)).Some?))
       || Member(obj, "action").value == "delete_note"
       || (IsNoteWrite(Member(obj, "action").value) && Member(obj, "content").Some?))
    ensures Truthy(d.result) <==> d.result.Some?
    ensures d.effect != NoNoteChange ==>
      Member(obj, "action").Some? && (IsNoteWrite(Member(obj, "action").value) || Member(obj, "action").value == "delete_note")
    ensures Member(obj, "action").Some? && IsNoteWrite(Member(obj, "action").value) ==>
      d.effect == StoreNote(Member(obj, "content"))
    ensures Member(obj, "action").Some? && IsGoogleAction(Member(obj, "action").value) && !authorized ==>
      d.result == Some(AuthFailed)
  {
    match Member(obj, "action")
    case None => Dispatch(None, NoNoteChange)
    case Some(action) =>
      if action == "" then Dispatch(None, NoNoteChange)
      else if IsGoogleAction(action) then
        Dispatch(if authorized then GoogleResult(google, GoogleCallOf(obj, action)) else Some(AuthFailed), NoNoteChange)
      else if IsNoteWrite(action) then
        var content := Member(obj, "content");
        Dispatch(if content.Some? then Some(NoteSavedMessage(content.value)) else None, StoreNote(content))
      else if action == "delete_note" then Dispatch(Some("Catatan dihapus."), RemoveNote)
      else Dispatch(None, NoNoteChange)
  }

  /** `executeToolAction(jsonString, googleAuthClient)`. */
  method ExecuteToolAction(db: Database, jsonString: string, parse: JsonParser,
                           authorized: bool, google: GoogleService) returns (result: Option<string>)
    modifies db`urgentNote, db`noteFile
    ensures parse(jsonString).None? ==> result.None? && unchanged(db)
    ensures parse(jsonString).Some? ==>
      var d := ActionDispatch(parse(jsonString).value, authorized, google);
      result == d.result &&
      match d.effect
      case NoNoteChange => unchanged(db)
      case StoreNote(n) => db.urgentNote == n && db.noteFile == (if n.Some? then n else old(db.noteFile))
      case RemoveNote => db.urgentNote == Some("") && db.noteFile.None?
  {
    var parsed := parse(jsonString);
    if parsed.None? {
      return None;
    }
    var obj := parsed.value;
    var action := Member(obj, "action");
    if action.None? || action.value == "" {
      return None;
    }
    if IsGoogleAction(action.value) {
      if authorized {
        result := GoogleResult(google, GoogleCallOf(obj, action.value));
      } else {
        result := Some(AuthFailed);
      }
    } else if IsNoteWrite(action.value) {
      var content := Member(obj, "content");
      var thrown := db.SaveUrgentNote(content);
      if thrown {
        result := None;
      } else {
        result := Some(NoteSavedMessage(content.value));
      }
    } else if action.value == "delete_note" {
      db.DeleteUrgentNote();
      result := Some("Catatan dihapus.");
    } else {
      result := None;
    }
  }

  // ---------------------------------------------------------------------
  // Locating the JSON candidate

  const Fence: string := "```"

  /** A fence begins at `k`. */
  predicate FenceAt(s: string, k: int) {
    0 <= k && k + 3 <= |s| && s[k] == '`' && s[k + 1] == '`' && s[k + 2] == '`'
  }

  /** The tag `json` begins at `k`. */
  predicate JsonTagAt(s: string, k: int) {
    0 <= k && k + 4 <= |s| && s[k] == 'j' && s[k + 1] == 's' && s[k + 2] == 'o' && s[k + 3] == 'n'
  }

  /** `b <= |s|` and `s[a..b]` is white space. */
  predicate AllSpace(s: string, a: int, b: int) {
    0 <= a <= b <= |s| && forall j :: a <= j < b ==> IsSpace(s[j])
  }

  /** Where a greedy `\s*` that starts at `k` stops. */
  function SkipSpaces(s: string, k: nat): (r: nat)
    requires k <= |s|
    ensures k <= r <= |s| && AllSpace(s, k, r)
    ensures r < |s| ==> !IsSpace(s[r])
    decreases |s| - k
  {
    if k < |s| && IsSpace(s[k]) then SkipSpaces(s, k + 1) else k
  }

  lemma SkipSpacesAt(s: string, k: nat, p: nat)
    requires AllSpace(s, k, p) && p < |s| && !IsSpace(s[p])
    ensures SkipSpaces(s, k) == p
  {
  }

  /** `s[start..end]` is a match of /```(?:json)?\s*(\{[\s\S]*?\})\s*```/
      whose group is `s[open..close + 1]`: any match, before the regular
      expression engine chooses among them. */
  predicate IsFenceMatch(s: string, start: int, open: int, close: int, end: int) {
    0 <= start && start + 3 <= open < close && close + 4 <= end <= |s|
    && FenceAt(s, start) && s[open] == '{' && s[close] == '}' && FenceAt(s, end - 3)
    && (AllSpace(s, start + 3, open) || (JsonTagAt(s, start + 3) && AllSpace(s, start + 7, open)))
    && AllSpace(s, close + 1, end - 3)
  }

  /** The match the engine reports: its bounds and the bounds of its group. */
  datatype FenceMatch = FenceMatch(start: nat, open: nat, close: nat, end: nat)

  /** The `{` that opens the group of a fence starting at `i`: the optional
      `json` is taken when present and the white space after it is skipped. */
  function FenceOpen(s: string, i: nat): (r: Option<nat>)
    requires i + 3 <= |s|
    ensures r.Some? ==> (i + 3 <= r.value < |s| && s[r.value] == '{' &&
      (AllSpace(s, i + 3, r.value) || (JsonTagAt(s, i + 3) && AllSpace(s, i + 7, r.value))))
  {
    var q := if JsonTagAt(s, i + 3) then i + 7 else i + 3;
    var p := SkipSpaces(s, q);
    if p < |s| && s[p] == '{' then Some(p) else None
  }

  /** The end of the match when the group closes with the `}` at `e`: white
      space and then a closing fence must follow. */
  function FenceCloseAt(s: string, e: nat): (r: Option<nat>)
    requires e < |s|
    ensures r.Some? ==> (s[e] == '}' && e + 4 <= r.value <= |s| && FenceAt(s, r.value - 3)
      && AllSpace(s, e + 1, r.value - 3))
  {
    if s[e] != '}' then None
    else
      var r := SkipSpaces(s, e + 1);
      if FenceAt(s, r) then Some(r + 3) else None
  }

  /** The lazy group: the first `}` at or after `from` that a closing fence follows. */
  function FirstClose(s: string, from: nat): (r: Option<(nat, nat)>)
    requires from <= |s|
    ensures r.Some? ==> from <= r.value.0 < |s| && FenceCloseAt(s, r.value.0) == Some(r.value.1)
    decreases |s| - from
  {
    if from == |s| then None
    else match FenceCloseAt(s, from)
      case Some(end) => Some((from, end))
      case None => FirstClose(s, from + 1)
  }

  /** No `}` before the one `FirstClose` picks is followed by a closing fence. */
  lemma {:induction false} FirstCloseLeast(s: string, from: nat)
    requires from <= |s|
    ensures FirstClose(s, from).Some? ==> forall e :: from <= e < FirstClose(s, from).value.0 ==> FenceCloseAt(s, e).None?
    ensures FirstClose(s, from).None? ==> forall e :: from <= e < |s| ==> FenceCloseAt(s, e).None?
    decreases |s| - from
  {
    if from < |s| && FenceCloseAt(s, from).None? {
      FirstCloseLeast(s, from + 1);
    }
  }

  /** The match the engine finds when it tries start position `i`. */
  function FenceMatchAt(s: string, i: nat): (r: Option<FenceMatch>)
    ensures r.Some? ==> r.value.start == i && i + 3 <= r.value.open < r.value.close && r.value.close + 4 <= r.value.end <= |s|
    ensures r.Some? ==> s[r.value.open] == '{' && s[r.value.close] == '}'
  {
    if !FenceAt(s, i) then None
    else match FenceOpen(s, i)
      case None => None
      case Some(p) =>
        match FirstClose(s, p + 1)
        case None => None
        case Some(ce) => Some(FenceMatch(i, p, ce.0, ce.1))
  }

  /** What the engine finds at `i` is a match of the pattern. */
  lemma FenceMatchAtSound(s: string, i: nat)
    ensures FenceMatchAt(s, i).Some? ==>
      var m := FenceMatchAt(s, i).value;
      IsFenceMatch(s, i, m.open, m.close, m.end)
  {
  }

  /** The leftmost start position at or after `from` where a match is found. */
  function FirstFence(s: string, from: nat): (r: Option<FenceMatch>)
    ensures r.Some? ==> from <= r.value.start && FenceMatchAt(s, r.value.start) == r
    ensures r.Some? ==> (r.value.start < r.value.open < r.value.close < r.value.end <= |s|
      && s[r.value.open] == '{' && s[r.value.close] == '}')
    decreases |s| - from
  {
    if from + 3 > |s| then None
    else
      var m := FenceMatchAt(s, from);
      if m.Some? then m else FirstFence(s, from + 1)
  }

  /** No match starts at `i` when `i` lies before the one `FirstFence` picks,
      or anywhere at or after `from` when it picks none. */
  lemma {:induction false} FirstFenceLeftmost(s: string, from: nat, i: nat)
    requires from <= i
    requires FirstFence(s, from).None? || i < FirstFence(s, from).value.start
    ensures FenceMatchAt(s, i).None?
    decreases |s| - from
  {
    if from + 3 > |s| {
      assert !FenceAt(s, i);
    } else if i > from {
      assert FenceMatchAt(s, from).None?;
      assert FirstFence(s, from) == FirstFence(s, from + 1);
      FirstFenceLeftmost(s, from + 1, i);
    }
  }

  /** A match is pinned down by its start and its closing `}`: the group can
      open at only one place, and the closing fence can begin at only one. */
  lemma FenceMatchDetermined(s: string, i: int, p: int, e: int, en: int)
    requires IsFenceMatch(s, i, p, e, en)
    ensures FenceOpen(s, i) == Some(p) && FenceCloseAt(s, e) == Some(en)
  {
    assert s[en - 3] == s[en - 3..en][0] == '`';
    SkipSpacesAt(s, e + 1, en - 3);
    if JsonTagAt(s, i + 3) {
      assert s[i + 3] == s[i + 3..i + 7][0] == 'j';
      assert !IsSpace(s[i + 3]);
      assert !AllSpace(s, i + 3, p);
      SkipSpacesAt(s, i + 7, p);
    } else {
      SkipSpacesAt(s, i + 3, p);
    }
  }

  /** Wherever a match begins, the engine finds one there whose group closes
      no later. */
  lemma MatchFoundAt(s: string, i: nat, p: int, e: int, en: int)
    requires IsFenceMatch(s, i, p, e, en)
    ensures FenceMatchAt(s, i).Some? && FenceMatchAt(s, i).value.close <= e
  {
    FenceMatchDetermined(s, i, p, e, en);
    FirstCloseLeast(s, p + 1);
    var c := FirstClose(s, p + 1);
    assert c.Some? && c.value.0 <= e;
    assert FenceMatchAt(s, i) == Some(FenceMatch(i, p, c.value.0, c.value.1));
  }

  /** `FirstFence` is the match JavaScript's `String.prototype.match` reports
      for the fenced-block pattern: a match, at the leftmost position where
      any match begins, with the shortest group there; and when it finds
      nothing, the pattern matches nowhere. */
  lemma FirstFenceIsRegexMatch(s: string)
    ensures FirstFence(s, 0).Some? ==>
      var m := FirstFence(s, 0).value;
      IsFenceMatch(s, m.start, m.open, m.close, m.end)
      && (forall i, p, e, en :: 0 <= i < m.start ==> !IsFenceMatch(s, i, p, e, en))
      && (forall p, e, en :: e < m.close ==> !IsFenceMatch(s, m.start, p, e, en))
    ensures FirstFence(s, 0).None? ==> forall i, p, e, en :: !IsFenceMatch(s, i, p, e, en)
  {
    if FirstFence(s, 0).Some? {
      FenceMatchAtSound(s, FirstFence(s, 0).value.start);
    }
    forall i, p, e, en | IsFenceMatch(s, i, p, e, en)
      ensures FirstFence(s, 0).Some? && FirstFence(s, 0).value.start <= i
      ensures FenceMatchAt(s, i).Some? && FenceMatchAt(s, i).value.close <= e
    {
      if FirstFence(s, 0).None? || i < FirstFence(s, 0).value.start {
        MatchFoundAt(s, i, p, e, en);
        FirstFenceLeftmost(s, 0, i);
      }
      MatchFoundAt(s, i, p, e, en);
    }
  }

  /** Where /(\{[\s\S]*\})$/ matches: at the first `{`, when the reply ends with `}`. */
  function TailStart(s: string): (r: Option<nat>)
    ensures r.Some? <==> |s| > 0 && s[|s| - 1] == '}' && '{' in s
    ensures r.Some? ==> r.value < |s| - 1 && s[r.value] == '{' && forall j :: 0 <= j < r.value ==> s[j] != '{'
  {
    if |s| > 0 && s[|s| - 1] == '}' then FirstIndexOfChar(s, '{') else None
  }

  /** The match of /(\{[\s\S]*\})/: from the first `{` to the last `}`. */
  function RelaxedSpan(s: string): (r: Option<(nat, nat)>)
    ensures r.Some? ==> r.value.0 < r.value.1 < |s| && s[r.value.0] == '{' && s[r.value.1] == '}'
    ensures r.Some? ==> forall j :: 0 <= j < r.value.0 ==> s[j] != '{'
    ensures r.Some? ==> forall j :: r.value.1 < j < |s| ==> s[j] != '}'
    ensures r.None? <==> forall f, l :: 0 <= f < l < |s| ==> !(s[f] == '{' && s[l] == '}')
  {
    match FirstIndexOfChar(s, '{')
    case None => None
    case Some(f) =>
      match LastIndexOfChar(s, '}')
      case None => None
      case Some(l) => if f < l then Some((f, l)) else None
  }

  /** The JSON text to act on, and the text to cut from the reply. */
  datatype Candidate = Candidate(json: string, original: string)

  /** The three tiers of `parseAndExecuteTool`: a fenced block; else an object
      that ends the reply; else the widest `{…}` span, only when it parses. A
      fenced block or a trailing object is chosen even when it does not
      parse, and then no later tier is tried. */
  function ExtractCandidate(s: string, parse: JsonParser): Option<Candidate> {
    match FirstFence(s, 0)
    case Some(m) => Some(Candidate(s[m.open..m.close + 1], s[m.start..m.end]))
    case None => UnfencedCandidate(s, parse)
  }

  /** The second and third tiers. */
  function UnfencedCandidate(s: string, parse: JsonParser): Option<Candidate> {
    match TailStart(s)
    case Some(f) => Some(Candidate(s[f..], s[f..]))
    case None =>
      match RelaxedSpan(s)
      case None => None
      case Some(span) =>
        var json := s[span.0..span.1 + 1];
        if parse(json).Some? then Some(Candidate(json, json)) else None
  }

  /** Every candidate is a `{…}` text inside the text that is cut, which is
      itself part of the reply. */
  lemma CandidateShape(s: string, parse: JsonParser)
    requires ExtractCandidate(s, parse).Some?
    ensures var c := ExtractCandidate(s, parse).value;
      |c.json| >= 2 && c.json[0] == '{' && c.json[|c.json| - 1] == '}'
      && Includes(c.original, c.json) && Includes(s, c.original)
  {
    if FirstFence(s, 0).Some? {
      FencedShape(s, parse);
    } else if TailStart(s).Some? {
      var f := TailStart(s).value;
      CandidateAt(s, ExtractCandidate(s, parse).value, f, f, |s|, |s|);
    } else {
      RelaxedShape(s, parse);
    }
  }

  lemma FencedShape(s: string, parse: JsonParser)
    requires FirstFence(s, 0).Some?
    ensures var c := ExtractCandidate(s, parse).value;
      |c.json| >= 2 && c.json[0] == '{' && c.json[|c.json| - 1] == '}'
      && Includes(c.original, c.json) && Includes(s, c.original)
  {
    var m := FirstFence(s, 0).value;
    FencedCandidate(s, parse);
    var c := ExtractCandidate(s, parse).value;
    CandidateAt(s, c, m.start, m.open, m.close + 1, m.end);
  }

  lemma RelaxedShape(s: string, parse: JsonParser)
    requires FirstFence(s, 0).None? && TailStart(s).None? && ExtractCandidate(s, parse).Some?
    ensures var c := ExtractCandidate(s, parse).value;
      |c.json| >= 2 && c.json[0] == '{' && c.json[|c.json| - 1] == '}'
      && Includes(c.original, c.json) && Includes(s, c.original)
  {
    var span := RelaxedSpan(s).value;
    CandidateAt(s, ExtractCandidate(s, parse).value, span.0, span.0, span.1 + 1, span.1 + 1);
  }

  lemma CandidateAt(s: string, c: Candidate, a: nat, o: nat, e: nat, b: nat)
    requires a <= o && o + 2 <= e <= b <= |s| && s[o] == '{' && s[e - 1] == '}'
    requires c == Candidate(s[o..e], s[a..b])
    ensures |c.json| >= 2 && c.json[0] == '{' && c.json[|c.json| - 1] == '}'
    ensures Includes(c.original, c.json) && Includes(s, c.original)
  {
    assert c.json[|c.json| - 1] == s[e - 1];
    CandidateInReply(s, a, o, e, b);
  }

  /** No candidate is offered exactly when there is no fenced block, no
      trailing object, and no `{…}` span that parses. */
  lemma NoCandidateIff(s: string, parse: JsonParser)
    ensures ExtractCandidate(s, parse).None? <==>
      (FirstFence(s, 0).None? && TailStart(s).None? &&
       (RelaxedSpan(s).None? || parse(s[RelaxedSpan(s).value.0..RelaxedSpan(s).value.1 + 1]).None?))
  {
  }

  lemma CandidateInReply(s: string, a: nat, c: nat, d: nat, b: nat)
    requires a <= c <= d <= b <= |s|
    ensures Includes(s[a..b], s[c..d]) && Includes(s, s[a..b])
  {
    OccursInSlice(s, a, b, c, d);
    OccursIncludes(s[a..b], s[c..d], c - a);
    assert s[a..b] == s[a..b][0..b - a];
    OccursInSlice(s, a, b, a, b);
    OccursIncludes(s, s[a..b], a);
  }

  // ---------------------------------------------------------------------
  // Cleaning the reply

  /** The end of an empty fence /```(?:json)?\s*```/ that starts at `i`. */
  function EmptyFenceAt(s: string, i: nat): (r: Option<nat>)
    ensures r.Some? ==> i + 6 <= r.value <= |s| && FenceAt(s, i) && FenceAt(s, r.value - 3)
  {
    if !FenceAt(s, i) then None
    else
      var q := if JsonTagAt(s, i + 3) then i + 7 else i + 3;
      var r := SkipSpaces(s, q);
      if FenceAt(s, r) then Some(r + 3) else None
  }

  /** `s.replace(/```(?:json)?\s*```/g, '')`: matches are found left to right
      and do not overlap. */
  function RemoveEmptyFences(s: string): (r: string)
    ensures |r| <= |s|
    ensures '`' !in s ==> r == s
    decreases |s|
  {
    if s == [] then []
    else match EmptyFenceAt(s, 0)
      case Some(e) => assert s[0] == s[0..3][0]; RemoveEmptyFences(s[e..])
      case None => [s[0]] + RemoveEmptyFences(s[1..])
  }

  /** An empty fence left behind at the end of a reply is removed, and the
      text before it is kept. */
  lemma {:induction false} RemoveTrailingEmptyFence(a: string, sp: string)
    requires '`' !in a
    requires forall j :: 0 <= j < |sp| ==> IsSpace(sp[j])
    ensures RemoveEmptyFences(a + Fence + sp + Fence) == a
    decreases |a|
  {
    var s := a + Fence + sp + Fence;
    if a == [] {
      assert s == Fence + sp + Fence;
      assert FenceAt(s, 0);
      assert s[3] == '`' || IsSpace(s[3]);
      assert AllSpace(s, 3, 3 + |sp|);
      assert s[3 + |sp|] == '`';
      SkipSpacesAt(s, 3, 3 + |sp|);
      assert s[3 + |sp|..3 + |sp| + 3] == Fence;
      assert s[|s|..] == [];
    } else {
      assert s[0] == a[0];
      assert s[1..] == a[1..] + Fence + sp + Fence;
      RemoveTrailingEmptyFence(a[1..], sp);
    }
  }

  /** The cut `parseAndExecuteTool` makes: the first occurrence of the
      candidate's text is removed, then leftover empty fences, trimming
      before and after. */
  function StripCandidate(s: string, original: string): (r: string)
    ensures IsTrimmed(r)
    ensures Includes(s, original) ==> |r| <= |s| - |original|
  {
    Trim(RemoveEmptyFences(Trim(RemoveFirst(s, original))))
  }

  /** What `parseAndExecuteTool` returns, with the action's effect on the note. */
  datatype ToolOutcome = ToolOutcome(cleanReply: string, actionResult: Option<string>, effect: NoteEffect)

  /** `parseAndExecuteTool(fullResponse, googleAuthClient)` as a function. */
  function Interpret(s: string, parse: JsonParser, authorized: bool, google: GoogleService): (r: ToolOutcome)
    ensures ExtractCandidate(s, parse).None? || parse(ExtractCandidate(s, parse).value.json).None? ==>
      r == ToolOutcome(s, None, NoNoteChange)
    ensures r.actionResult.Some? ==> r.actionResult.value != "" && IsTrimmed(r.cleanReply)
    ensures r.cleanReply == s || IsTrimmed(r.cleanReply)
  {
    match ExtractCandidate(s, parse)
    case None => ToolOutcome(s, None, NoNoteChange)
    case Some(c) =>
      match parse(c.json)
      case None => ToolOutcome(s, None, NoNoteChange)
      case Some(obj) =>
        var d := ActionDispatch(obj, authorized, google);
        var strip := Truthy(d.result) || obj.keyCount == 0;
        ToolOutcome(if strip then StripCandidate(s, c.original) else s, d.result, d.effect)
  }

  /** The three `match` calls of `parseAndExecuteTool`, in order. */
  method FindCandidate(fullResponse: string, parse: JsonParser) returns (candidate: Option<Candidate>)
    ensures candidate == ExtractCandidate(fullResponse, parse)
  {
    var codeBlockMatch := FirstFence(fullResponse, 0);
    if codeBlockMatch.None? {
      candidate := FindUnfencedCandidate(fullResponse, parse);
    } else {
      var m := codeBlockMatch.value;
      candidate := Some(Candidate(fullResponse[m.open..m.close + 1], fullResponse[m.start..m.end]));
      FencedCandidate(fullResponse, parse);
    }
  }

  /** The second and third `match` calls, reached when there is no fenced block. */
  method FindUnfencedCandidate(fullResponse: string, parse: JsonParser) returns (candidate: Option<Candidate>)
    requires FirstFence(fullResponse, 0).None?
    ensures candidate == ExtractCandidate(fullResponse, parse)
  {
    var jsonMatch := TailStart(fullResponse);
    if jsonMatch.Some? {
      return Some(Candidate(fullResponse[jsonMatch.value..], fullResponse[jsonMatch.value..]));
    }
    var relaxedMatch := RelaxedSpan(fullResponse);
    candidate := None;
    if relaxedMatch.Some? {
      var text := fullResponse[relaxedMatch.value.0..relaxedMatch.value.1 + 1];
      if parse(text).Some? {
        candidate := Some(Candidate(text, text));
      }
    }
  }

  /** `parseAndExecuteTool`: the candidate, the parse check, the action and
      the cleanup, step by step. */
  method ParseAndExecuteTool(db: Database, fullResponse: string, parse: JsonParser,
                             authorized: bool, google: GoogleService)
    returns (cleanReply: string, actionResult: Option<string>)
    modifies db`urgentNote, db`noteFile
    ensures var out := Interpret(fullResponse, parse, authorized, google);
      cleanReply == out.cleanReply && actionResult == out.actionResult &&
      match out.effect
      case NoNoteChange => unchanged(db)
      case StoreNote(n) => db.urgentNote == n && db.noteFile == (if n.Some? then n else old(db.noteFile))
      case RemoveNote => db.urgentNote == Some("") && db.noteFile.None?
  {
    var candidate := FindCandidate(fullResponse, parse);
    if candidate.None? || parse(candidate.value.json).None? {
      return fullResponse, None;
    }
    var jsonCandidate := candidate.value.json;
    var originalMatch := candidate.value.original;
    CandidateShape(fullResponse, parse);
    assert originalMatch != "" by {
      var k := IndexOf(originalMatch, jsonCandidate).value;
      assert OccursAt(originalMatch, jsonCandidate, k);
    }
    ghost var d := ActionDispatch(parse(jsonCandidate).value, authorized, google);
    actionResult := ExecuteToolAction(db, jsonCandidate, parse, authorized, google);
    cleanReply := fullResponse;
    var shouldStrip := false;
    if Truthy(actionResult) {
      shouldStrip := true;
    } else if parse(jsonCandidate).value.keyCount == 0 {
      shouldStrip := true;
    }
    if shouldStrip && originalMatch != "" {
      cleanReply := Trim(RemoveFirst(cleanReply, originalMatch));
      cleanReply := Trim(RemoveEmptyFences(cleanReply));
    }
    assert Interpret(fullResponse, parse, authorized, google) == ToolOutcome(cleanReply, actionResult, d.effect);
  }

  // ---------------------------------------------------------------------
  // Properties of the interpreter

  /** A reply in which no candidate is found, or whose candidate does not
      parse, is returned untouched and nothing is executed. */
  lemma NoCandidateKeepsReply(s: string, parse: JsonParser, authorized: bool, google: GoogleService)
    requires FirstFence(s, 0).None? && TailStart(s).None?
    requires RelaxedSpan(s).None? || parse(s[RelaxedSpan(s).value.0..RelaxedSpan(s).value.1 + 1]).None?
    ensures Interpret(s, parse, authorized, google) == ToolOutcome(s, None, NoNoteChange)
  {
  }

  /** A fenced block takes precedence over any other object in the reply: it
      is the candidate even if it does not parse, and then the reply stays as
      it is, whatever else the reply contains. */
  lemma FencedBlockWins(s: string, parse: JsonParser, authorized: bool, google: GoogleService)
    requires FirstFence(s, 0).Some?
    ensures var m := FirstFence(s, 0).value;
      ExtractCandidate(s, parse) == Some(Candidate(s[m.open..m.close + 1], s[m.start..m.end]))
    ensures var m := FirstFence(s, 0).value;
      parse(s[m.open..m.close + 1]).None? ==> Interpret(s, parse, authorized, google) == ToolOutcome(s, None, NoNoteChange)
  {
    FencedCandidate(s, parse);
  }

  lemma FencedCandidate(s: string, parse: JsonParser)
    requires FirstFence(s, 0).Some?
    ensures var m := FirstFence(s, 0).value;
      ExtractCandidate(s, parse) == Some(Candidate(s[m.open..m.close + 1], s[m.start..m.end]))
  {
  }

  /** Without a fenced block, a reply that ends with `}` offers the text from
      its first `{` to the end; that is also what the relaxed pattern would
      pick, so the relaxed tier never offers a different text for such a reply. */
  lemma TrailingObjectCandidate(s: string, parse: JsonParser)
    requires FirstFence(s, 0).None?
    requires |s| > 0 && s[|s| - 1] == '}' && '{' in s
    ensures var f := TailStart(s).value;
      ExtractCandidate(s, parse) == Some(Candidate(s[f..], s[f..]))
      && RelaxedSpan(s) == Some((f, |s| - 1))
  {
  }

  /** An action is stripped from the reply exactly when it produced a result
      or the object was `{}`; an object whose action is unknown, missing or
      failed stays visible. */
  lemma StripIff(s: string, parse: JsonParser, authorized: bool, google: GoogleService)
    requires ExtractCandidate(s, parse).Some?
    requires parse(ExtractCandidate(s, parse).value.json).Some?
    ensures var c := ExtractCandidate(s, parse).value;
      var obj := parse(c.json).value;
      var d := ActionDispatch(obj, authorized, google);
      Interpret(s, parse, authorized, google) ==
        ToolOutcome(if d.result.Some? || obj.keyCount == 0 then StripCandidate(s, c.original) else s,
                    d.result, d.effect)
  {
  }

  /** A Google action without an authorization client reports "Auth failed."
      and is stripped like a successful one. */
  lemma GoogleActionWithoutAuth(s: string, parse: JsonParser, google: GoogleService)
    requires ExtractCandidate(s, parse).Some?
    requires parse(ExtractCandidate(s, parse).value.json).Some?
    requires var obj := parse(ExtractCandidate(s, parse).value.json).value;
      Member(obj, "action").Some? && IsGoogleAction(Member(obj, "action").value)
    ensures Interpret(s, parse, false, google) ==
      ToolOutcome(StripCandidate(s, ExtractCandidate(s, parse).value.original), Some(AuthFailed), NoNoteChange)
  {
    var c := ExtractCandidate(s, parse).value;
    var obj := parse(c.json).value;
    var d := ActionDispatch(obj, false, google);
    assert d.result == Some(AuthFailed) && d.effect == NoNoteChange;
    assert Truthy(d.result);
  }

  /** A Google call that throws, such as a task whose due date does not parse,
      yields `null`: nothing is reported and the object stays in the reply
      (unless it is `{}`, which is cut anyway). */
  lemma ThrowingGoogleCallKept(s: string, parse: JsonParser, google: GoogleService)
    requires ExtractCandidate(s, parse).Some?
    requires parse(ExtractCandidate(s, parse).value.json).Some?
    requires var obj := parse(ExtractCandidate(s, parse).value.json).value;
      Member(obj, "action").Some? && IsGoogleAction(Member(obj, "action").value)
      && google(GoogleCallOf(obj, Member(obj, "action").value)).None?
    ensures var c := ExtractCandidate(s, parse).value;
      Interpret(s, parse, true, google) ==
      ToolOutcome(if parse(c.json).value.keyCount == 0 then StripCandidate(s, c.original) else s, None, NoNoteChange)
  {
    StripIff(s, parse, true, google);
  }

  /** A reply ending with a note action, e.g. `Oke, dicatat. {"action":"add_note",
      "content":"Buy milk"}`: the note is stored, the result confirms it, and
      the cleaned reply is the text before the object, trimmed. */
  lemma NoteAtEndOfReply(pre: string, json: string, content: string,
                         parse: JsonParser, authorized: bool, google: GoogleService)
    requires '{' !in pre && '`' !in pre && '`' !in json
    requires |json| >= 2 && json[0] == '{' && json[|json| - 1] == '}'
    requires parse(json).Some?
    requires Member(parse(json).value, "action") == Some("add_note")
    requires Member(parse(json).value, "content") == Some(content)
    ensures Interpret(pre + json, parse, authorized, google) ==
      ToolOutcome(Trim(pre), Some(NoteSavedMessage(content)), StoreNote(Some(content)))
  {
    var s := pre + json;
    TrailingObjectOf(pre, json, parse);
    StripTrailingObject(pre, json);
    NoteDispatch(parse(json).value, content, authorized, google);
    StripIff(s, parse, authorized, google);
  }

  lemma NoteDispatch(obj: JsonObject, content: string, authorized: bool, google: GoogleService)
    requires Member(obj, "action") == Some("add_note") && Member(obj, "content") == Some(content)
    ensures ActionDispatch(obj, authorized, google) == Dispatch(Some(NoteSavedMessage(content)), StoreNote(Some(content)))
  {
  }

  /** An object that ends a reply whose text before it has no `{` and no
      backtick is that reply's candidate. */
  lemma TrailingObjectOf(pre: string, json: string, parse: JsonParser)
    requires '{' !in pre && '`' !in pre && '`' !in json
    requires |json| >= 2 && json[0] == '{' && json[|json| - 1] == '}'
    ensures ExtractCandidate(pre + json, parse) == Some(Candidate(json, json))
  {
    var s := pre + json;
    assert '`' !in s;
    NoBacktickNoFence(s);
    assert forall j :: 0 <= j < |pre| ==> s[j] == pre[j];
    assert s[|pre|] == '{' && s[|s| - 1] == '}';
    FirstIndexOfCharAt(s, '{', |pre|);
    assert s[|pre|..] == json;
  }

  /** Cutting that object leaves the text before it, trimmed. */
  lemma StripTrailingObject(pre: string, json: string)
    requires '{' !in pre && '`' !in pre
    requires |json| >= 2 && json[0] == '{'
    ensures StripCandidate(pre + json, json) == Trim(pre)
  {
    var s := pre + json;
    assert forall j :: 0 <= j < |pre| ==> s[j] == pre[j];
    assert s[|pre|..] == json;
    assert OccursAt(s, json, |pre|);
    forall k | 0 <= k < |pre| ensures !OccursAt(s, json, k) {
      NotOccursAt(s, json, k);
    }
    assert IndexOf(s, json) == Some(|pre|);
    assert RemoveFirst(s, json) == pre;
    var t := Trim(pre);
    assert '`' !in t;
  }

  /** A reply without a backtick has no fenced block. */
  lemma NoBacktickNoFence(s: string)
    requires '`' !in s
    ensures FirstFence(s, 0).None?
  {
    forall i: nat ensures FenceMatchAt(s, i).None? {
      if i < |s| {
        assert s[i] != '`';
      }
    }
  }

  /** `{}` is always cut from the reply, although it names no action. */
  lemma EmptyObjectStripped(s: string, parse: JsonParser, authorized: bool, google: GoogleService)
    requires ExtractCandidate(s, parse).Some?
    requires parse(ExtractCandidate(s, parse).value.json) == Some(JsonObject(0, map[]))
    ensures Interpret(s, parse, authorized, google) ==
      ToolOutcome(StripCandidate(s, ExtractCandidate(s, parse).value.original), None, NoNoteChange)
  {
    var obj := JsonObject(0, map[]);
    assert Member(obj, "action").None?;
  }
}
