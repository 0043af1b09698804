// Chat: the chat history builder. Each input accepted by the public
// methods is parsed into message parts, and the history list grows by one
// message per call, except that user messages are merged into a trailing
// user message.

module History {
  import opened JsonValue
  import opened SdkErrors

  /* ---------------------------------------------------------------------
   * Messages
   * ------------------------------------------------------------------- */

  datatype FileHandle = FileHandle(name: string, identifier: string, sizeBytes: int, fileType: string)

  /**
   * A content part. TextData keeps whatever its "text" was given (a
   * system prompt dict is not checked for a string); tool call requests
   * and results are kept in their dict form.
   */
  datatype Part =
    | Text(text: Json)
    | File(handle: FileHandle)
    | ToolRequest(request: Json)
    | ToolResult(result: Json)

  datatype Role = SystemRole | UserRole | AssistantRole | ToolRole

  datatype Message = Message(role: Role, content: seq<Part>)

  /**
   * The Python values the chat methods accept: strings, the SDK's structs,
   * mappings, other iterables, and anything else.
   */
  datatype Input =
    | PyStr(s: string)
    | PyTextData(text: string)
    | PyFileHandle(handle: FileHandle)
    | PyToolCallRequestData(data: Json)
    | PyToolCallRequest(request: Json)
    | PyToolCallResultData(data: Json)
    | PyServerResponse(historyContent: string)
    | PyDict(entries: Entries)
    | PyList(items: seq<Input>)
    | PyOther

  /** _is_user_message_input / _is_chat_message_input: a string, a mapping, or no iterable at all. */
  predicate IsSingle(value: Input)
  {
    !value.PyList?
  }

  /** The value a decoded JSON document becomes. */
  function FromJson(j: Json): (v: Input)
    ensures j.JStr? <==> v.PyStr?
    ensures j.JObject? <==> v.PyDict?
    ensures j.JArray? <==> v.PyList?
  {
    match j
    case JStr(s) => PyStr(s)
    case JObject(entries) => PyDict(entries)
    case JArray(items) => PyList(seq(|items|, i requires 0 <= i < |items| => FromJson(items[i])))
    case _ => PyOther
  }

  /** The most recent message, only when it has the given role (_get_last_message). */
  function LastMessage(messages: seq<Message>, role: Role): (r: Option<Message>)
    ensures r.Some? <==> messages != [] && messages[|messages| - 1].role == role
    ensures r.Some? ==> r.value == messages[|messages| - 1]
  {
    if messages == [] || messages[|messages| - 1].role != role then None else Some(messages[|messages| - 1])
  }

  /**
   * No system prompt follows a system prompt, no assistant response an
   * assistant response, and no user message a user message; tool results
   * may repeat.
   */
  predicate Alternates(messages: seq<Message>)
  {
    forall i :: 0 < i < |messages| ==> messages[i].role == ToolRole || messages[i - 1].role != messages[i].role
  }

  /* ---------------------------------------------------------------------
   * Parsing content
   * ------------------------------------------------------------------- */

  predicate IsStr(j: Option<Json>)
  {
    j.Some? && j.value.JStr?
  }

  /** The first of two spellings of a key that is present. */
  function EitherKey(d: Entries, camel: string, snake: string): Option<Json>
  {
    if HasKey(d, camel) then Lookup(d, camel) else Lookup(d, snake)
  }

  /** The file-handle dict pattern: string name and identifier and a file type under either spelling. */
  predicate IsFileDict(d: Entries)
  {
    IsStr(Lookup(d, "name")) && IsStr(Lookup(d, "identifier")) && (HasKey(d, "fileType") || HasKey(d, "file_type"))
  }

  /** FileHandle._from_any_dict: the size must be an integer and the file type a string. */
  function FileFromDict(d: Entries): (r: Result<FileHandle>)
    requires IsFileDict(d)
    ensures r.Ok? ==> r.value.name == Lookup(d, "name").value.s && r.value.identifier == Lookup(d, "identifier").value.s
    ensures r.Err? ==> r.error == Builtin(ValidationError)
  {
    var size := EitherKey(d, "sizeBytes", "size_bytes");
    var fileType := EitherKey(d, "fileType", "file_type");
    if size.Some? && size.value.JNum? && IsWhole(size.value.n) && IsStr(fileType) then
      Ok(FileHandle(Lookup(d, "name").value.s, Lookup(d, "identifier").value.s, size.value.n.Floor, fileType.value.s))
    else Err(Builtin(ValidationError))
  }

  /**
   * The dicts a user item or an assistant response may be: one whose
   * "text" is a string, or a file-handle dict whose size and file type
   * validate.
   */
  predicate ContentDictAccepted(d: Entries)
  {
    IsStr(Lookup(d, "text")) || (IsFileDict(d) && FileFromDict(d).Ok?)
  }

  /** One item of a user message. */
  function ParseUserItem(item: Input): (r: Result<Part>)
    ensures r.Ok? <==> item.PyTextData? || item.PyFileHandle? || item.PyStr?
                       || (item.PyDict? && ContentDictAccepted(item.entries))
    ensures item.PyTextData? ==> r == Ok(Text(JStr(item.text)))
    ensures item.PyFileHandle? ==> r == Ok(File(item.handle))
    ensures item.PyStr? ==> r == Ok(Text(JStr(item.s)))
    ensures item.PyDict? && IsStr(Lookup(item.entries, "text")) ==> r == Ok(Text(Lookup(item.entries, "text").value))
    ensures item.PyDict? && !IsStr(Lookup(item.entries, "text")) && r.Ok? ==> r == Ok(File(FileFromDict(item.entries).value))
    ensures r.Err? ==> r.error == ValueError || (item.PyDict? && IsFileDict(item.entries) && r.error == Builtin(ValidationError))
  {
    match item
    case PyTextData(t) => Ok(Text(JStr(t)))
    case PyFileHandle(h) => Ok(File(h))
    case PyStr(s) => Ok(Text(JStr(s)))
    case PyDict(d) =>
      if IsStr(Lookup(d, "text")) then Ok(Text(Lookup(d, "text").value))
      else if IsFileDict(d) then
        (match FileFromDict(d) case Ok(h) => Ok(File(h)) case Err(e) => Err(e))
      else Err(ValueError)
    case _ => Err(ValueError)
  }

  /** A system prompt: note that a dict's "text" is taken whatever it holds. */
  function ParseSystemPrompt(prompt: Input): (r: Result<Part>)
    ensures r.Ok? <==> prompt.PyTextData? || prompt.PyStr? || (prompt.PyDict? && HasKey(prompt.entries, "text"))
    ensures prompt.PyTextData? ==> r == Ok(Text(JStr(prompt.text)))
    ensures prompt.PyStr? ==> r == Ok(Text(JStr(prompt.s)))
    ensures prompt.PyDict? && r.Ok? ==> r == Ok(Text(Lookup(prompt.entries, "text").value))
    ensures r.Err? ==> r.error == ValueError
  {
    match prompt
    case PyTextData(t) => Ok(Text(JStr(t)))
    case PyStr(s) => Ok(Text(JStr(s)))
    case PyDict(d) => if HasKey(d, "text") then Ok(Text(Lookup(d, "text").value)) else Err(ValueError)
    case _ => Err(ValueError)
  }

  /** _parse_assistant_response: text or a file handle; tool call requests are refused. */
  function ParseAssistantResponse(response: Input): (r: Result<Part>)
    ensures r.Ok? <==> response.PyTextData? || response.PyFileHandle? || response.PyStr? || response.PyServerResponse?
                       || (response.PyDict? && ContentDictAccepted(response.entries))
    ensures response.PyTextData? ==> r == Ok(Text(JStr(response.text)))
    ensures response.PyFileHandle? ==> r == Ok(File(response.handle))
    ensures response.PyStr? ==> r == Ok(Text(JStr(response.s)))
    ensures response.PyServerResponse? ==> r == Ok(Text(JStr(response.historyContent)))
    ensures response.PyDict? && IsStr(Lookup(response.entries, "text")) ==> r == Ok(Text(Lookup(response.entries, "text").value))
    ensures response.PyDict? && !IsStr(Lookup(response.entries, "text")) && r.Ok? ==> r == Ok(File(FileFromDict(response.entries).value))
    ensures r.Err? ==> r.error == ValueError || (response.PyDict? && IsFileDict(response.entries) && r.error == Builtin(ValidationError))
  {
    match response
    case PyTextData(t) => Ok(Text(JStr(t)))
    case PyFileHandle(h) => Ok(File(h))
    case PyStr(s) => Ok(Text(JStr(s)))
    case PyServerResponse(content) => Ok(Text(JStr(content)))
    case PyDict(d) =>
      if IsStr(Lookup(d, "text")) then Ok(Text(Lookup(d, "text").value))
      else if IsFileDict(d) then
        (match FileFromDict(d) case Ok(h) => Ok(File(h)) case Err(e) => Err(e))
      else Err(ValueError)
    case _ => Err(ValueError)
  }

  /** ToolCallRequestData wrapping a ToolCallRequest. */
  function WrapRequest(request: Json): Json
  {
    JObject([("type", JStr("toolCallRequest")), ("toolCallRequest", request)])
  }

  /** The key holds a list (the `[*_]` pattern). */
  predicate ListUnder(d: Entries, key: string)
  {
    HasKey(d, key) && Lookup(d, key).value.JArray?
  }

  /** _parse_tool_call_request */
  function ParseToolCallRequest(request: Input): (r: Result<Part>)
    ensures r.Ok? <==> request.PyToolCallRequestData? || request.PyToolCallRequest?
                       || (request.PyDict? && (TypeIs(JObject(request.entries), "toolCallRequest")
                                               || ListUnder(request.entries, "toolCallRequest")
                                               || ListUnder(request.entries, "tool_call_request")))
    ensures request.PyToolCallRequestData? ==> r == Ok(ToolRequest(request.data))
    ensures request.PyToolCallRequest? ==> r == Ok(ToolRequest(WrapRequest(request.request)))
    ensures request.PyDict? && TypeIs(JObject(request.entries), "toolCallRequest") ==> r == Ok(ToolRequest(JObject(request.entries)))
    ensures request.PyDict? && !TypeIs(JObject(request.entries), "toolCallRequest") && r.Ok?
            ==> r == Ok(ToolRequest(WrapRequest(JObject(request.entries))))
    ensures r.Err? ==> r.error == ValueError
  {
    match request
    case PyToolCallRequestData(data) => Ok(ToolRequest(data))
    case PyToolCallRequest(req) => Ok(ToolRequest(WrapRequest(req)))
    case PyDict(d) =>
      if TypeIs(JObject(d), "toolCallRequest") then Ok(ToolRequest(JObject(d)))
      else if ListUnder(d, "toolCallRequest") || ListUnder(d, "tool_call_request") then
        Ok(ToolRequest(WrapRequest(JObject(d))))
      else Err(ValueError)
    case _ => Err(ValueError)
  }

  /** _parse_tool_result */
  function ParseToolResult(result: Input): (r: Result<Part>)
    ensures r.Ok? <==> result.PyToolCallResultData?
                       || (result.PyDict? && (HasKey(result.entries, "toolCallId") || HasKey(result.entries, "tool_call_id"))
                                          && HasKey(result.entries, "content"))
    ensures result.PyToolCallResultData? ==> r == Ok(ToolResult(result.data))
    ensures result.PyDict? && r.Ok? ==> r == Ok(ToolResult(JObject(result.entries)))
    ensures r.Err? ==> r.error == ValueError
  {
    match result
    case PyToolCallResultData(data) => Ok(ToolResult(data))
    case PyDict(d) =>
      if (HasKey(d, "toolCallId") || HasKey(d, "tool_call_id")) && HasKey(d, "content") then Ok(ToolResult(JObject(d)))
      else Err(ValueError)
    case _ => Err(ValueError)
  }

  /**
   * A user item and an assistant response are parsed alike, except that
   * only a response may be a server response object.
   */
  lemma UserItemIsAssistantResponse(x: Input)
    requires !x.PyServerResponse?
    ensures ParseUserItem(x) == ParseAssistantResponse(x)
  {
  }

  /** The three spellings of a text part agree, for a system prompt, a user item and a response. */
  lemma TextSpellingsAgree(text: string)
    ensures ParseUserItem(PyDict([("text", JStr(text))])) == ParseUserItem(PyStr(text)) == ParseUserItem(PyTextData(text))
    ensures ParseSystemPrompt(PyDict([("text", JStr(text))])) == ParseSystemPrompt(PyStr(text)) == Ok(Text(JStr(text)))
  {
    assert Lookup([("text", JStr(text))], "text") == Some(JStr(text));
  }

  /**
   * A system prompt dict is taken whatever its "text" holds, where a user
   * item dict needs a string there (or else is read as a file handle).
   */
  lemma SystemPromptTextUnchecked(value: Json)
    requires !value.JStr?
    ensures ParseSystemPrompt(PyDict([("text", value)])) == Ok(Text(value))
    ensures ParseUserItem(PyDict([("text", value)])) == Err(ValueError)
  {
    var d := [("text", value)];
    assert Lookup(d, "text") == Some(value);
    assert !HasKey(d, "name");
  }

  /** Items parsed in order until the first that fails: the parts before it, and its error. */
  function ParsePrefix(items: seq<Input>, parse: Input -> Result<Part>): (r: (seq<Part>, Option<Error>))
    ensures |r.0| <= |items|
    ensures r.1.None? ==> |r.0| == |items| && forall i :: 0 <= i < |items| ==> parse(items[i]) == Ok(r.0[i])
    decreases |items|
  {
    if items == [] then ([], None)
    else match parse(items[0])
      case Err(e) => ([], Some(e))
      case Ok(p) =>
        var rest := ParsePrefix(items[1..], parse);
        ([p] + rest.0, rest.1)
  }

  /** A list comprehension over the parser: every part, or the first error. */
  function ParseAll(items: seq<Input>, parse: Input -> Result<Part>): (r: Result<seq<Part>>)
    ensures r.Ok? <==> forall i :: 0 <= i < |items| ==> parse(items[i]).Ok?
    ensures r.Ok? ==> |r.value| == |items| && forall i :: 0 <= i < |items| ==> parse(items[i]) == Ok(r.value[i])
  {
    var (parts, error) := ParsePrefix(items, parse);
    ParsePrefixError(items, parse);
    if error.Some? then Err(error.value) else Ok(parts)
  }

  /** The comprehension succeeds exactly when the prefix parse meets no error, with the same parts. */
  lemma ParseAllIsPrefix(items: seq<Input>, parse: Input -> Result<Part>)
    ensures ParseAll(items, parse).Ok? ==> ParsePrefix(items, parse) == (ParseAll(items, parse).value, None)
    ensures ParseAll(items, parse).Err? ==> ParsePrefix(items, parse).1 == Some(ParseAll(items, parse).error)
  {
  }

  /** Parsing from item i: that item's part ahead of the rest, or its error alone. */
  lemma ParsePrefixAt(items: seq<Input>, i: nat, parse: Input -> Result<Part>)
    requires i < |items|
    ensures parse(items[i]).Err? ==> ParsePrefix(items[i..], parse) == ([], Some(parse(items[i]).error))
    ensures parse(items[i]).Ok? ==>
              ParsePrefix(items[i..], parse)
              == ([parse(items[i]).value] + ParsePrefix(items[i + 1..], parse).0, ParsePrefix(items[i + 1..], parse).1)
  {
    assert items[i..][0] == items[i];
    assert items[i..][1..] == items[i + 1..];
  }

  lemma {:induction false} ParsePrefixError(items: seq<Input>, parse: Input -> Result<Part>)
    ensures ParsePrefix(items, parse).1.Some? <==> exists i :: 0 <= i < |items| && parse(items[i]).Err?
    decreases |items|
  {
    if items != [] {
      ParsePrefixError(items[1..], parse);
      if parse(items[0]).Ok? && ParsePrefix(items[1..], parse).1.Some? {
        var i :| 0 <= i < |items[1..]| && parse(items[1..][i]).Err?;
        assert parse(items[i + 1]).Err?;
      }
      if ParsePrefix(items, parse).1.None? {
        forall i | 0 <= i < |items|
          ensures parse(items[i]).Ok?
        {
          if i > 0 {
            assert items[i] == items[1..][i - 1];
          }
        }
      }
    }
  }

  /** The parsing loop: items in order until the first that fails. */
  method ParseItems(items: seq<Input>, parse: Input -> Result<Part>) returns (parts: seq<Part>, error: Option<Error>)
    ensures (parts, error) == ParsePrefix(items, parse)
  {
    ghost var rest := ParsePrefix(items, parse);
    assert items[0..] == items;
    parts := [];
    var i := 0;
    while i < |items|
      invariant 0 <= i <= |items|
      invariant rest == ParsePrefix(items[i..], parse)
      invariant parts + rest.0 == ParsePrefix(items, parse).0 && rest.1 == ParsePrefix(items, parse).1
    {
      var p := parse(items[i]);
      ParsePrefixAt(items, i, parse);
      if p.Err? {
        assert rest == ([], Some(p.error));
        assert parts == ParsePrefix(items, parse).0;
        return parts, Some(p.error);
      }
      ghost var next := ParsePrefix(items[i + 1..], parse);
      assert (parts + [p.value]) + next.0 == parts + ([p.value] + next.0);
      rest := next;
      parts := parts + [p.value];
      i := i + 1;
    }
    assert items[i..] == [];
    assert rest == ([], None);
    assert parts + [] == parts;
    error := None;
  }

  /* ---------------------------------------------------------------------
   * The history updates, as functions of the message list
   * ------------------------------------------------------------------- */

  /** An update's new message list and its result. */
  datatype Update = Update(messages: seq<Message>, result: Result<Message>)

  /** The items add_user_message takes: the content, then any files, then any images. */
  function UserItems(content: Input, files: seq<Input>, images: seq<Input>): seq<Input>
  {
    (if IsSingle(content) then [content] else content.items) + files + images
  }

  /**
   * add_user_message. The parts go into the trailing user message, if
   * there is one, and otherwise into a new one appended only on success.
   * A trailing user message keeps the parts parsed before a failing item.
   */
  function UserMessageNext(messages: seq<Message>, items: seq<Input>): Update
  {
    var (parts, error) := ParsePrefix(items, ParseUserItem);
    var merging := LastMessage(messages, UserRole).Some?;
    var content := (if merging then messages[|messages| - 1].content else []) + parts;
    var merged := if merging then messages[|messages| - 1 := Message(UserRole, content)] else messages;
    if error.Some? then Update(merged, Err(error.value))
    else if content == [] then Update(merged, Err(ValueError))
    else if merging then Update(merged, Ok(Message(UserRole, content)))
    else Update(messages + [Message(UserRole, content)], Ok(Message(UserRole, content)))
  }

  /** add_system_prompt */
  function SystemPromptNext(messages: seq<Message>, prompt: Input): Update
  {
    if LastMessage(messages, SystemRole).Some? then Update(messages, Err(RuntimeError))
    else match ParseSystemPrompt(prompt)
      case Err(e) => Update(messages, Err(e))
      case Ok(p) => Update(messages + [Message(SystemRole, [p])], Ok(Message(SystemRole, [p])))
  }

  /** add_assistant_response: the response text, then the tool call requests in order. */
  function AssistantResponseNext(messages: seq<Message>, response: Input, requests: seq<Input>): Update
  {
    if LastMessage(messages, AssistantRole).Some? then Update(messages, Err(RuntimeError))
    else match ParseAssistantResponse(response)
      case Err(e) => Update(messages, Err(e))
      case Ok(text) =>
        match ParseAll(requests, ParseToolCallRequest)
        case Err(e) => Update(messages, Err(e))
        case Ok(parts) =>
          var message := Message(AssistantRole, [text] + parts);
          Update(messages + [message], Ok(message))
  }

  /** add_tool_results: one message holding every result. */
  function ToolResultsNext(messages: seq<Message>, results: seq<Input>): Update
  {
    match ParseAll(results, ParseToolResult)
    case Err(e) => Update(messages, Err(e))
    case Ok(parts) => Update(messages + [Message(ToolRole, parts)], Ok(Message(ToolRole, parts)))
  }

  /** add_tool_result: always a new message, even after another tool result. */
  function ToolResultNext(messages: seq<Message>, result: Input): Update
  {
    match ParseToolResult(result)
    case Err(e) => Update(messages, Err(e))
    case Ok(p) => Update(messages + [Message(ToolRole, [p])], Ok(Message(ToolRole, [p])))
  }

  /** The one content item of a role that takes no multi-part content. */
  function SingleItem(content: Input): Option<Input>
  {
    if IsSingle(content) then Some(content)
    else if |content.items| == 1 then Some(content.items[0])
    else None
  }

  /**
   * add_entry: dispatch on the role name. A user entry may hold many
   * parts; an assistant entry is a response followed by tool requests; a
   * system or tool entry holds exactly one item.
   */
  function EntryNext(messages: seq<Message>, role: Json, content: Input): Update
  {
    if role == JStr("user") then UserMessageNext(messages, UserItems(content, [], []))
    else if role == JStr("assistant") then
      if IsSingle(content) then AssistantResponseNext(messages, content, [])
      else if content.items == [] then Update(messages, Err(ValueError))
      else AssistantResponseNext(messages, content.items[0], content.items[1..])
    else match SingleItem(content)
      case None => Update(messages, Err(ValueError))
      case Some(item) =>
        if role == JStr("system") then SystemPromptNext(messages, item)
        else if role == JStr("tool") then ToolResultNext(messages, item)
        else Update(messages, Err(ValueError))
  }

  /** The (role, content) pair of one history entry, if it has one of the accepted shapes. */
  function EntryShape(entry: Json): Option<(Json, Input)>
  {
    match entry
    case JObject(d) =>
      if HasKey(d, "role") && HasKey(d, "content") then Some((Lookup(d, "role").value, FromJson(Lookup(d, "content").value)))
      else None
    case JArray(items) =>
      // a two-item sequence whose first item is a string
      if |items| == 2 && items[0].JStr? then Some((items[0], FromJson(items[1]))) else None
    case _ => None
  }

  /** _add_entries: entries in order until the first that fails. */
  function EntriesNext(messages: seq<Message>, entries: seq<Json>): (seq<Message>, Result<()>)
    decreases |entries|
  {
    if entries == [] then (messages, Ok(()))
    else match EntryShape(entries[0])
      case None => (messages, Err(ValueError))
      case Some((role, content)) =>
        var u := EntryNext(messages, role, content);
        if u.result.Err? then (u.messages, Err(u.result.error))
        else EntriesNext(u.messages, entries[1..])
  }

  /** What iterating the "messages" value yields: list items, dict keys, or string characters. */
  function IterItems(value: Json): (r: Result<seq<Json>>)
    ensures value.JArray? ==> r == Ok(value.items)
  {
    match value
    case JArray(items) => Ok(items)
    case JObject(d) => Ok(seq(|d|, i requires 0 <= i < |d| => JStr(d[i].0)))
    case JStr(s) => Ok(seq(|s|, i requires 0 <= i < |s| => JStr([s[i]])))
    case _ => Err(Builtin(TypeError))
  }

  /** The history from_history accepts. */
  datatype HistorySource =
    | FromChat(chatMessages: seq<Message>)
    | FromData(dataMessages: seq<Message>)
    | FromText(text: string)
    | FromMapping(mapping: Entries)
    | FromOther

  /**
   * from_history: a chat or history data is copied, a string is one user
   * message, and a mapping's "messages" entries are added one by one.
   */
  function FromHistory(source: HistorySource): Result<seq<Message>>
  {
    match source
    case FromChat(ms) => Ok(ms)
    case FromData(ms) => Ok(ms)
    case FromText(s) => Ok(UserMessageNext([], [PyStr(s)]).messages)
    case FromMapping(d) =>
      var messages := Lookup(d, "messages");
      if messages.None? || messages.value.JNull? then Err(ValueError)
      else
        (match IterItems(messages.value)
         case Err(e) => Err(e)
         case Ok(entries) =>
           var (added, r) := EntriesNext([], entries);
           if r.Err? then Err(r.error) else Ok(added))
    case FromOther => Err(ValueError)
  }

  /** Chat(initial_prompt, _initial_history=...): one or the other, not both. */
  function InitialMessages(initialPrompt: Option<Input>, initialHistory: Option<seq<Message>>): Result<seq<Message>>
  {
    if initialHistory.Some? && initialPrompt.Some? then Err(ValueError)
    else
      var start := if initialHistory.Some? then initialHistory.value else [];
      if initialPrompt.None? then Ok(start)
      else
        var u := SystemPromptNext(start, initialPrompt.value);
        if u.result.Err? then Err(u.result.error) else Ok(u.messages)
  }

  /* ---------------------------------------------------------------------
   * The Chat class
   * ------------------------------------------------------------------- */

  class Chat {
    var messages: seq<Message>

    constructor (history: seq<Message>)
      ensures messages == history
    {
      messages := history;
    }

    /** _get_last_message */
    function GetLastMessage(role: Role): (r: Option<Message>)
      reads this
      ensures r == LastMessage(messages, role)
    {
      if messages == [] then None
      else if messages[|messages| - 1].role != role then None
      else Some(messages[|messages| - 1])
    }

    /** add_user_message: the items are parsed, then merged into the trailing user message or appended as a new one. */
    method AddUserMessage(content: Input, files: seq<Input>, images: seq<Input>) returns (r: Result<Message>)
      modifies this
      ensures Update(messages, r) == UserMessageNext(old(messages), UserItems(content, files, images))
    {
      var items := UserItems(content, files, images);
      var last := GetLastMessage(UserRole);
      var merging := last.Some?;
      var base := if merging then last.value.content else [];
      var parsed, error := ParseItems(items, ParseUserItem);
      var parts := base + parsed;
      if merging {
        // the trailing message's content list grows in place, also when an item fails
        messages := messages[|messages| - 1 := Message(UserRole, parts)];
      }
      if error.Some? {
        return Err(error.value);
      }
      if parts == [] {
        return Err(ValueError);
      }
      if !merging {
        messages := messages + [Message(UserRole, parts)];
      }
      r := Ok(Message(UserRole, parts));
    }

    /** add_system_prompt */
    method AddSystemPrompt(prompt: Input) returns (r: Result<Message>)
      modifies this
      ensures Update(messages, r) == SystemPromptNext(old(messages), prompt)
    {
      if GetLastMessage(SystemRole).Some? {
        return Err(RuntimeError);
      }
      var p := ParseSystemPrompt(prompt);
      if p.Err? {
        return Err(p.error);
      }
      var message := Message(SystemRole, [p.value]);
      messages := messages + [message];
      r := Ok(message);
    }

    /** add_assistant_response */
    method AddAssistantResponse(response: Input, requests: seq<Input>) returns (r: Result<Message>)
      modifies this
      ensures Update(messages, r) == AssistantResponseNext(old(messages), response, requests)
    {
      if GetLastMessage(AssistantRole).Some? {
        return Err(RuntimeError);
      }
      var text := ParseAssistantResponse(response);
      if text.Err? {
        return Err(text.error);
      }
      var parts := ParseAll(requests, ParseToolCallRequest);
      if parts.Err? {
        return Err(parts.error);
      }
      var message := Message(AssistantRole, [text.value] + parts.value);
      messages := messages + [message];
      r := Ok(message);
    }

    /** add_tool_results */
    method AddToolResults(results: seq<Input>) returns (r: Result<Message>)
      modifies this
      ensures Update(messages, r) == ToolResultsNext(old(messages), results)
    {
      var parts := ParseAll(results, ParseToolResult);
      if parts.Err? {
        return Err(parts.error);
      }
      var message := Message(ToolRole, parts.value);
      messages := messages + [message];
      r := Ok(message);
    }

    /** add_tool_result */
    method AddToolResult(result: Input) returns (r: Result<Message>)
      modifies this
      ensures Update(messages, r) == ToolResultNext(old(messages), result)
    {
      var p := ParseToolResult(result);
      if p.Err? {
        return Err(p.error);
      }
      var message := Message(ToolRole, [p.value]);
      messages := messages + [message];
      r := Ok(message);
    }

    /** add_entry */
    method AddEntry(role: Json, content: Input) returns (r: Result<Message>)
      modifies this
      ensures Update(messages, r) == EntryNext(old(messages), role, content)
    {
      if role == JStr("user") {
        r := AddUserMessage(content, [], []);
        return;
      }
      if role == JStr("assistant") {
        if IsSingle(content) {
          r := AddAssistantResponse(content, []);
        } else if content.items == [] {
          r := Err(ValueError);
        } else {
          r := AddAssistantResponse(content.items[0], content.items[1..]);
        }
        return;
      }
      var item := SingleItem(content);
      if item.None? {
        return Err(ValueError);
      }
      if role == JStr("system") {
        r := AddSystemPrompt(item.value);
      } else if role == JStr("tool") {
        r := AddToolResult(item.value);
      } else {
        r := Err(ValueError);
      }
    }

    /** _add_entries */
    method AddEntries(entries: seq<Json>) returns (r: Result<()>)
      modifies this
      ensures (messages, r) == EntriesNext(old(messages), entries)
    {
      var i := 0;
      while i < |entries|
        invariant 0 <= i <= |entries|
        invariant EntriesNext(old(messages), entries) == EntriesNext(messages, entries[i..])
      {
        assert entries[i..][1..] == entries[i + 1..];
        var shape := EntryShape(entries[i]);
        if shape.None? {
          return Err(ValueError);
        }
        var added := AddEntry(shape.value.0, shape.value.1);
        if added.Err? {
          return Err(added.error);
        }
        i := i + 1;
      }
      r := Ok(());
    }
  }

  /** The Chat constructor. */
  method NewChat(initialPrompt: Option<Input>, initialHistory: Option<seq<Message>>) returns (r: Result<Chat>)
    ensures r.Err? <==> InitialMessages(initialPrompt, initialHistory).Err?
    ensures r.Err? ==> r.error == InitialMessages(initialPrompt, initialHistory).error
    ensures r.Ok? ==> fresh(r.value) && r.value.messages == InitialMessages(initialPrompt, initialHistory).value
  {
    if initialHistory.Some? && initialPrompt.Some? {
      return Err(ValueError);
    }
    var chat := new Chat(if initialHistory.Some? then initialHistory.value else []);
    if initialPrompt.Some? {
      var added := chat.AddSystemPrompt(initialPrompt.value);
      if added.Err? {
        return Err(added.error);
      }
    }
    r := Ok(chat);
  }

  /** Chat.from_history */
  method NewChatFromHistory(source: HistorySource) returns (r: Result<Chat>)
    ensures r.Err? <==> FromHistory(source).Err?
    ensures r.Err? ==> r.error == FromHistory(source).error
    ensures r.Ok? ==> fresh(r.value) && r.value.messages == FromHistory(source).value
  {
    match source {
      case FromChat(ms) =>
        var chat := new Chat(ms);
        return Ok(chat);
      case FromData(ms) =>
        var chat := new Chat(ms);
        return Ok(chat);
      case FromText(s) =>
        var chat := new Chat([]);
        var added := chat.AddUserMessage(PyStr(s), [], []);
        return Ok(chat);
      case FromMapping(d) =>
        var messages := Lookup(d, "messages");
        if messages.None? || messages.value.JNull? {
          return Err(ValueError);
        }
        var entries := IterItems(messages.value);
        if entries.Err? {
          return Err(entries.error);
        }
        var chat := new Chat([]);
        var added := chat.AddEntries(entries.value);
        if added.Err? {
          return Err(added.error);
        }
        return Ok(chat);
      case FromOther =>
        return Err(ValueError);
    }
  }

  /* ---------------------------------------------------------------------
   * Properties
   * ------------------------------------------------------------------- */

  /**
   * A user message after a user message is merged: the history keeps its
   * length and the trailing message gains the new parts, in order.
   */
  lemma UserMessageMerges(messages: seq<Message>, items: seq<Input>, parts: seq<Part>)
    requires LastMessage(messages, UserRole).Some?
    requires ParseAll(items, ParseUserItem) == Ok(parts)
    ensures var u := UserMessageNext(messages, items);
      && |u.messages| == |messages|
      && u.messages[..|messages| - 1] == messages[..|messages| - 1]
      && u.messages[|messages| - 1] == Message(UserRole, messages[|messages| - 1].content + parts)
      && (messages[|messages| - 1].content + parts != [] ==> u.result == Ok(u.messages[|messages| - 1]))
  {
    ParseAllIsPrefix(items, ParseUserItem);
  }

  /** Otherwise exactly one user message holding the parts is appended; no parts at all is an error. */
  lemma UserMessageAppends(messages: seq<Message>, items: seq<Input>, parts: seq<Part>)
    requires LastMessage(messages, UserRole).None?
    requires ParseAll(items, ParseUserItem) == Ok(parts)
    ensures parts != [] ==> UserMessageNext(messages, items) == Update(messages + [Message(UserRole, parts)],
                                                                       Ok(Message(UserRole, parts)))
    ensures parts == [] ==> UserMessageNext(messages, items) == Update(messages, Err(ValueError))
  {
    ParseAllIsPrefix(items, ParseUserItem);
    assert [] + parts == parts;
  }

  /** A failing item adds no new message; a trailing user message keeps the parts before it. */
  lemma UserMessageFails(messages: seq<Message>, items: seq<Input>)
    requires ParseAll(items, ParseUserItem).Err?
    ensures var u := UserMessageNext(messages, items);
      && u.result.Err?
      && |u.messages| == |messages|
      && (LastMessage(messages, UserRole).None? ==> u.messages == messages)
  {
    ParseAllIsPrefix(items, ParseUserItem);
  }

  /** A system prompt right after a system prompt, or a response right after a response, is refused. */
  lemma ConsecutiveRejected(messages: seq<Message>, prompt: Input, response: Input, requests: seq<Input>)
    ensures LastMessage(messages, SystemRole).Some? ==> SystemPromptNext(messages, prompt) == Update(messages, Err(RuntimeError))
    ensures LastMessage(messages, AssistantRole).Some? ==>
              AssistantResponseNext(messages, response, requests) == Update(messages, Err(RuntimeError))
  {
  }

  /** An accepted assistant response holds its text, then each tool request, in order. */
  lemma AssistantResponseContent(messages: seq<Message>, response: Input, requests: seq<Input>)
    requires AssistantResponseNext(messages, response, requests).result.Ok?
    ensures var u := AssistantResponseNext(messages, response, requests);
      var content := u.result.value.content;
      && u.messages == messages + [u.result.value]
      && u.result.value.role == AssistantRole
      && |content| == |requests| + 1
      && ParseAssistantResponse(response) == Ok(content[0])
      && (forall i :: 0 <= i < |requests| ==> ParseToolCallRequest(requests[i]) == Ok(content[i + 1]))
  {
  }

  /** Tool results: one result per message, or every result in one message, in order. */
  lemma ToolResultsAppendOne(messages: seq<Message>, result: Input, results: seq<Input>)
    ensures var u := ToolResultNext(messages, result);
      u.result.Ok? ==> u.messages == messages + [u.result.value] && |u.result.value.content| == 1
    ensures var u := ToolResultsNext(messages, results);
      && (u.result.Ok? <==> forall i :: 0 <= i < |results| ==> ParseToolResult(results[i]).Ok?)
      && (u.result.Ok? ==> u.messages == messages + [u.result.value] && |u.result.value.content| == |results|)
      && (u.result.Err? ==> u.messages == messages)
    ensures var u := ToolResultsNext(messages, results);
      u.result.Ok? ==> forall i :: 0 <= i < |results| ==> ParseToolResult(results[i]) == Ok(u.result.value.content[i])
  {
  }

  /** Consecutive tool results are allowed. */
  lemma ToolResultAfterToolResult(messages: seq<Message>, result: Input)
    requires LastMessage(messages, ToolRole).Some?
    requires ParseToolResult(result).Ok?
    ensures ToolResultNext(messages, result).result.Ok?
  {
  }

  /**
   * add_entry refuses an unknown role, and multi-part content for the
   * system and tool roles, leaving the history unchanged.
   */
  lemma EntryRejects(messages: seq<Message>, role: Json, content: Input)
    ensures role !in {JStr("user"), JStr("assistant"), JStr("system"), JStr("tool")} ==>
              EntryNext(messages, role, content) == Update(messages, Err(ValueError))
    ensures (role == JStr("system") || role == JStr("tool")) && content.PyList? && |content.items| != 1 ==>
            EntryNext(messages, role, content) == Update(messages, Err(ValueError))
  {
  }

  /** An initial history and a system prompt together are refused; from_history of a string is one user message. */
  lemma ConstructionCases(prompt: Input, history: seq<Message>, text: string)
    ensures InitialMessages(Some(prompt), Some(history)) == Err(ValueError)
    ensures InitialMessages(None, Some(history)) == Ok(history)
    ensures FromHistory(FromText(text)) == Ok([Message(UserRole, [Text(JStr(text))])])
  {
    var items := [PyStr(text)];
    assert ParseUserItem(items[0]) == Ok(Text(JStr(text)));
    assert ParsePrefix(items[1..], ParseUserItem) == ([], None) by {
      assert items[1..] == [];
    }
    assert [Text(JStr(text))] + [] == [Text(JStr(text))];
    assert ParsePrefix(items, ParseUserItem) == ([Text(JStr(text))], None);
    assert [] + [Text(JStr(text))] == [Text(JStr(text))];
    var m := Message(UserRole, [Text(JStr(text))]);
    assert [] + [m] == [m];
    assert UserMessageNext([], items) == Update([m], Ok(m));
  }

  /* Every update keeps the roles alternating. */

  lemma AppendAlternates(messages: seq<Message>, m: Message)
    requires Alternates(messages)
    requires m.role == ToolRole || LastMessage(messages, m.role).None?
    ensures Alternates(messages + [m])
  {
  }

  lemma UserMessageAlternates(messages: seq<Message>, items: seq<Input>)
    requires Alternates(messages)
    ensures Alternates(UserMessageNext(messages, items).messages)
  {
    var u := UserMessageNext(messages, items);
    if LastMessage(messages, UserRole).Some? {
      forall i | 0 < i < |u.messages|
        ensures u.messages[i].role == ToolRole || u.messages[i - 1].role != u.messages[i].role
      {
        assert u.messages[i].role == messages[i].role && u.messages[i - 1].role == messages[i - 1].role;
      }
    } else if u.messages != messages {
      AppendAlternates(messages, Message(UserRole, u.result.value.content));
    }
  }

  lemma EntryAlternates(messages: seq<Message>, role: Json, content: Input)
    requires Alternates(messages)
    ensures Alternates(EntryNext(messages, role, content).messages)
  {
    var u := EntryNext(messages, role, content);
    if role == JStr("user") {
      UserMessageAlternates(messages, UserItems(content, [], []));
    } else if u.messages != messages {
      AppendAlternates(messages, u.result.value);
    }
  }

  /**
   * A history built entry by entry from an alternating one (from_history
   * starts from none) still alternates, whatever the entries and wherever
   * they fail.
   */
  lemma {:induction false} EntriesAlternate(messages: seq<Message>, entries: seq<Json>)
    requires Alternates(messages)
    ensures Alternates(EntriesNext(messages, entries).0)
    decreases |entries|
  {
    if entries != [] && EntryShape(entries[0]).Some? {
      var (role, content) := EntryShape(entries[0]).value;
      EntryAlternates(messages, role, content);
      var u := EntryNext(messages, role, content);
      if u.result.Ok? {
        EntriesAlternate(u.messages, entries[1..]);
      }
    }
  }

  /** Every history from_history produces from data it reads alternates. */
  lemma FromHistoryAlternates(d: Entries)
    requires FromHistory(FromMapping(d)).Ok?
    ensures Alternates(FromHistory(FromMapping(d)).value)
  {
    var entries := IterItems(Lookup(d, "messages").value).value;
    EntriesAlternate([], entries);
  }
}
