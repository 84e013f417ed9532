/** Messages as dictionaries and back, and the cost of a request. */
module MessageCodec {
  import opened Prelude
  import opened JsonValues

  datatype Block =
    | Text(text: string, textSignature: Option<string>)
    | Thinking(thinking: string, thinkingSignature: Option<string>, redacted: Option<bool>)
    | Image(data: string, mimeType: string)
    | Call(id: string, name: string, arguments: Fields, thoughtSignature: Option<string>, namespace: Option<string>)

  datatype Cost = Cost(input: real, output: real, cacheRead: real, cacheWrite: real, total: real)

  datatype Usage = Usage(
    input: int,
    output: int,
    cacheRead: int,
    cacheWrite: int,
    cacheWrite1h: Option<int>,
    reasoning: Option<int>,
    totalTokens: int,
    cost: Cost)

  datatype UserContent = Plain(text: string) | Blocks(blocks: seq<Block>)

  datatype Message =
    | User(userContent: UserContent, timestamp: int)
    | Assistant(
        content: seq<Block>, api: string, provider: string, model: string, responseModel: Option<string>,
        responseId: Option<string>, tokens: Usage, stopReason: string, errorMessage: Option<string>,
        rawStopReason: Option<string>, endTurn: Option<bool>, diagnostics: seq<Fields>, timestamp: int)
    | ToolResult(
        toolCallId: string, toolName: string, content: seq<Block>, details: Json, usage: Option<Usage>,
        addedToolNames: Option<seq<string>>, isError: bool, timestamp: int)

  // ----- to dictionaries -----

  /** An optional field is left out when it is absent. */
  function With(fields: Fields, key: string, value: Option<Json>): Fields {
    if value.Some? then fields[key := value.value] else fields
  }

  function OptStr(o: Option<string>): Option<Json> {
    if o.Some? then Some(Str(o.value)) else None
  }

  function OptBool(o: Option<bool>): Option<Json> {
    if o.Some? then Some(Bool(o.value)) else None
  }

  function OptInt(o: Option<int>): Option<Json> {
    if o.Some? then Some(Int(o.value)) else None
  }

  function BlockToDict(block: Block): Fields {
    match block
    case Text(text, signature) =>
      With(map["type" := Str("text"), "text" := Str(text)], "textSignature", OptStr(signature))
    case Thinking(thinking, signature, redacted) =>
      With(With(map["type" := Str("thinking"), "thinking" := Str(thinking)], "thinkingSignature", OptStr(signature)),
           "redacted", OptBool(redacted))
    case Image(data, mimeType) =>
      map["type" := Str("image"), "data" := Str(data), "mimeType" := Str(mimeType)]
    case Call(id, name, arguments, signature, namespace) =>
      With(With(map["type" := Str("toolCall"), "id" := Str(id), "name" := Str(name), "arguments" := Obj(arguments)],
                "thoughtSignature", OptStr(signature)), "namespace", OptStr(namespace))
  }

  function BlocksToDicts(blocks: seq<Block>): (r: seq<Json>)
    ensures |r| == |blocks|
  {
    seq(|blocks|, i requires 0 <= i < |blocks| => Obj(BlockToDict(blocks[i])))
  }

  function CostToDict(cost: Cost): Fields {
    map["input" := Float(cost.input), "output" := Float(cost.output), "cacheRead" := Float(cost.cacheRead),
        "cacheWrite" := Float(cost.cacheWrite), "total" := Float(cost.total)]
  }

  function UsageToDict(usage: Usage): Fields {
    var fields: Fields := map[
      "input" := Int(usage.input), "output" := Int(usage.output), "cacheRead" := Int(usage.cacheRead),
      "cacheWrite" := Int(usage.cacheWrite), "totalTokens" := Int(usage.totalTokens), "cost" := Obj(CostToDict(usage.cost))];
    With(With(fields, "cacheWrite1h", OptInt(usage.cacheWrite1h)), "reasoning", OptInt(usage.reasoning))
  }

  function StrArr(names: seq<string>): Json {
    Arr(seq(|names|, i requires 0 <= i < |names| => Str(names[i])))
  }

  function ObjArr(objects: seq<Fields>): Json {
    Arr(seq(|objects|, i requires 0 <= i < |objects| => Obj(objects[i])))
  }

  function MessageToDict(message: Message): Fields {
    match message
    case User(content, timestamp) =>
      map["role" := Str("user"),
          "content" := if content.Plain? then Str(content.text) else Arr(BlocksToDicts(content.blocks)),
          "timestamp" := Int(timestamp)]
    case ToolResult(_, _, _, _, usage, added, _, _) =>
      With(With(ResultFields(message), "usage", if usage.Some? then Some(Obj(UsageToDict(usage.value))) else None),
           "addedToolNames", if added.Some? then Some(StrArr(added.value)) else None)
    case Assistant(_, _, _, _, _, _, _, _, _, _, _, _, _) => AddOptional(message, AssistantFields(message))
  }

  function ResultFields(m: Message): Fields
    requires m.ToolResult?
  {
    map["role" := Str("toolResult"), "toolCallId" := Str(m.toolCallId), "toolName" := Str(m.toolName),
        "content" := Arr(BlocksToDicts(m.content)), "details" := m.details, "isError" := Bool(m.isError), "timestamp" := Int(m.timestamp)]
  }

  function AssistantFields(m: Message): Fields
    requires m.Assistant?
  {
    map["role" := Str("assistant"), "content" := Arr(BlocksToDicts(m.content)), "api" := Str(m.api), "provider" := Str(m.provider),
        "model" := Str(m.model), "usage" := Obj(UsageToDict(m.tokens)), "stopReason" := Str(m.stopReason), "timestamp" := Int(m.timestamp)]
  }

  function AddOptional(m: Message, fields: Fields): Fields
    requires m.Assistant?
  {
    With(With(With(With(With(With(fields, "responseModel", OptStr(m.responseModel)), "responseId", OptStr(m.responseId)),
      "errorMessage", OptStr(m.errorMessage)), "rawStopReason", OptStr(m.rawStopReason)), "endTurn", OptBool(m.endTurn)),
      "diagnostics", if m.diagnostics == [] then None else Some(ObjArr(m.diagnostics)))
  }

  // ----- and back -----

  /** `str(value.get(key, default))` of a string. */
  function GetStr(fields: Fields, key: string, default: string): Option<string> {
    match Get(fields, key)
    case None => Some(default)
    case Some(Str(s)) => Some(s)
    case _ => None
  }

  function GetInt(fields: Fields, key: string): Option<int> {
    match Get(fields, key)
    case None => Some(0)
    case Some(Int(n)) => Some(n)
    case _ => None
  }

  function GetFloat(fields: Fields, key: string): Option<real> {
    match Get(fields, key)
    case None => Some(0.0)
    case Some(Float(x)) => Some(x)
    case _ => None
  }

  /** `value.get(key)`, which is None or a string. */
  function FindStr(fields: Fields, key: string): Option<Option<string>> {
    match Get(fields, key)
    case None => Some(None)
    case Some(Null) => Some(None)
    case Some(Str(s)) => Some(Some(s))
    case _ => None
  }

  function FindBool(fields: Fields, key: string): Option<Option<bool>> {
    match Get(fields, key)
    case None => Some(None)
    case Some(Null) => Some(None)
    case Some(Bool(b)) => Some(Some(b))
    case _ => None
  }

  function FindInt(fields: Fields, key: string): Option<Option<int>> {
    match Get(fields, key)
    case None => Some(None)
    case Some(Int(n)) => Some(Some(n))
    case _ => None
  }

  function BlockFromDict(fields: Fields): Option<Block> {
    match Get(fields, "type")
    case Some(Str(kind)) =>
      if kind == "text" then
        var text, signature := GetStr(fields, "text", ""), FindStr(fields, "textSignature");
        if text.None? || signature.None? then None else Some(Text(text.value, signature.value))
      else if kind == "thinking" then
        var thinking, signature, redacted := GetStr(fields, "thinking", ""), FindStr(fields, "thinkingSignature"), FindBool(fields, "redacted");
        if thinking.None? || signature.None? || redacted.None? then None
        else Some(Thinking(thinking.value, signature.value, redacted.value))
      else if kind == "image" then
        var data, mimeType := GetStr(fields, "data", ""), GetStr(fields, "mimeType", "");
        if data.None? || mimeType.None? then None else Some(Image(data.value, mimeType.value))
      else if kind == "toolCall" then
        var id, name, arguments := GetStr(fields, "id", ""), GetStr(fields, "name", ""), Get(fields, "arguments");
        var signature, namespace := FindStr(fields, "thoughtSignature"), FindStr(fields, "namespace");
        if id.None? || name.None? || signature.None? || namespace.None? then None
        else if arguments.None? then Some(Call(id.value, name.value, map[], signature.value, namespace.value))
        else if !arguments.value.Obj? then None
        else Some(Call(id.value, name.value, arguments.value.fields, signature.value, namespace.value))
      else None
    case _ => None
  }

  function BlocksFromDicts(items: seq<Json>): Option<seq<Block>> {
    if items == [] then Some([])
    else
      var last := items[|items| - 1];
      var before, block := BlocksFromDicts(items[..|items| - 1]), if last.Obj? then BlockFromDict(last.fields) else None;
      if before.None? || block.None? then None else Some(before.value + [block.value])
  }

  function CostFromDict(fields: Fields): Option<Cost> {
    var input, output, total := GetFloat(fields, "input"), GetFloat(fields, "output"), GetFloat(fields, "total");
    var cacheRead, cacheWrite := GetFloat(fields, "cacheRead"), GetFloat(fields, "cacheWrite");
    if input.None? || output.None? || total.None? || cacheRead.None? || cacheWrite.None? then None
    else Some(Cost(input.value, output.value, cacheRead.value, cacheWrite.value, total.value))
  }

  function UsageFromDict(fields: Fields): Option<Usage> {
    var found := Get(fields, "cost");
    var cost := CostFromDict(if found.Some? && found.value.Obj? then found.value.fields else map[]);
    var input, output, total := GetInt(fields, "input"), GetInt(fields, "output"), GetInt(fields, "totalTokens");
    var cacheRead, cacheWrite := GetInt(fields, "cacheRead"), GetInt(fields, "cacheWrite");
    var cacheWrite1h, reasoning := FindInt(fields, "cacheWrite1h"), FindInt(fields, "reasoning");
    if cost.None? || input.None? || output.None? || total.None? || cacheRead.None? || cacheWrite.None? || cacheWrite1h.None? || reasoning.None?
    then None
    else Some(Usage(input.value, output.value, cacheRead.value, cacheWrite.value, cacheWrite1h.value, reasoning.value, total.value, cost.value))
  }

  function Names(items: seq<Json>): Option<seq<string>> {
    if forall i :: 0 <= i < |items| ==> items[i].Str?
    then Some(seq(|items|, i requires 0 <= i < |items| => items[i].s))
    else None
  }

  function Objects(items: seq<Json>): Option<seq<Fields>> {
    if forall i :: 0 <= i < |items| ==> items[i].Obj?
    then Some(seq(|items|, i requires 0 <= i < |items| => items[i].fields))
    else None
  }

  function UserFromDict(fields: Fields): Option<Message> {
    var raw, timestamp := Get(fields, "content"), GetInt(fields, "timestamp");
    if timestamp.None? then None
    else if raw.None? then Some(User(Plain(""), timestamp.value))
    else match raw.value
      case Str(text) => Some(User(Plain(text), timestamp.value))
      case Arr(items) =>
        var blocks := BlocksFromDicts(items);
        if blocks.None? then None else Some(User(Blocks(blocks.value), timestamp.value))
      case _ => None
  }

  /** `value.get("content", [])`; anything but a list is refused. */
  function ContentFromDict(fields: Fields): Option<seq<Block>> {
    match Get(fields, "content")
    case None => Some([])
    case Some(Arr(items)) => BlocksFromDicts(items)
    case _ => None
  }

  /** A usage that is not a dictionary counts as absent. */
  function FindUsage(fields: Fields): Option<Option<Usage>> {
    match Get(fields, "usage")
    case Some(Obj(found)) =>
      var usage := UsageFromDict(found);
      if usage.None? then None else Some(usage)
    case _ => Some(None)
  }

  function FindNames(fields: Fields): Option<Option<seq<string>>> {
    match Get(fields, "addedToolNames")
    case None => Some(None)
    case Some(Null) => Some(None)
    case Some(Arr(items)) =>
      var names := Names(items);
      if names.None? then None else Some(names)
    case _ => None
  }

  function ToolResultFromDict(fields: Fields): Option<Message> {
    var content, usage, added := ContentFromDict(fields), FindUsage(fields), FindNames(fields);
    var id, name, timestamp := GetStr(fields, "toolCallId", ""), GetStr(fields, "toolName", ""), GetInt(fields, "timestamp");
    var details, isError := Get(fields, "details"), FindBool(fields, "isError");
    if content.None? || usage.None? || added.None? || id.None? || name.None? || timestamp.None? || isError.None? then None
    else Some(ToolResult(id.value, name.value, content.value, if details.Some? then details.value else Obj(map[]), usage.value,
                         added.value, isError.value == Some(true), timestamp.value))
  }

  function GetDiagnostics(fields: Fields): Option<seq<Fields>> {
    match Get(fields, "diagnostics")
    case None => Some([])
    case Some(Arr(items)) => Objects(items)
    case _ => None
  }

  function AssistantFromDict(fields: Fields): Option<Message> {
    var content, diagnostics, timestamp := ContentFromDict(fields), GetDiagnostics(fields), GetInt(fields, "timestamp");
    var api, provider, model := GetStr(fields, "api", ""), GetStr(fields, "provider", ""), GetStr(fields, "model", "");
    var found := Get(fields, "usage");
    var usage := if found.None? then UsageFromDict(map[]) else if found.value.Obj? then UsageFromDict(found.value.fields) else None;
    var responseModel, responseId := FindStr(fields, "responseModel"), FindStr(fields, "responseId");
    var error, rawStop, endTurn := FindStr(fields, "errorMessage"), FindStr(fields, "rawStopReason"), FindBool(fields, "endTurn");
    var stop := GetStr(fields, "stopReason", "pending");
    if content.None? || diagnostics.None? || timestamp.None? || api.None? || provider.None? || model.None? || usage.None? then None
    else if responseModel.None? || responseId.None? || error.None? || rawStop.None? || endTurn.None? || stop.None? then None
    else Some(Assistant(content.value, api.value, provider.value, model.value, responseModel.value, responseId.value, usage.value,
                        stop.value, error.value, rawStop.value, endTurn.value, diagnostics.value, timestamp.value))
  }

  /** None where the source raises, and for ill-typed values that it would convert or pass on. */
  function MessageFromDict(fields: Fields): Option<Message> {
    match Get(fields, "role")
    case Some(Str(role)) =>
      if role == "user" then UserFromDict(fields)
      else if role == "toolResult" then ToolResultFromDict(fields)
      else if role == "assistant" then AssistantFromDict(fields)
      else None
    case _ => None
  }

  // ----- round trips -----

  lemma CallRoundTrip(block: Block)
    requires block.Call?
    ensures BlockFromDict(BlockToDict(block)) == Some(block)
  {}

  lemma ThinkingRoundTrip(block: Block)
    requires block.Thinking?
    ensures BlockFromDict(BlockToDict(block)) == Some(block)
  {}

  lemma PlainBlockRoundTrip(block: Block)
    requires block.Text? || block.Image?
    ensures BlockFromDict(BlockToDict(block)) == Some(block)
  {}

  lemma BlockRoundTrip(block: Block)
    ensures BlockFromDict(BlockToDict(block)) == Some(block)
  {
    hide BlockToDict, BlockFromDict;
    match block
    case Call(_, _, _, _, _) => CallRoundTrip(block);
    case Thinking(_, _, _) => ThinkingRoundTrip(block);
    case _ => PlainBlockRoundTrip(block);
  }

  lemma {:induction false} BlocksRoundTrip(blocks: seq<Block>)
    ensures BlocksFromDicts(BlocksToDicts(blocks)) == Some(blocks)
  {
    hide BlockToDict, BlockFromDict;
    if blocks == [] {
      assert BlocksToDicts(blocks) == [];
    } else {
      var n := |blocks| - 1;
      assert BlocksToDicts(blocks)[..n] == BlocksToDicts(blocks[..n]);
      assert BlocksToDicts(blocks)[n] == Obj(BlockToDict(blocks[n]));
      assert blocks[..n] + [blocks[n]] == blocks;
      BlocksRoundTrip(blocks[..n]);
      BlockRoundTrip(blocks[n]);
    }
  }

  lemma CostRoundTrip(cost: Cost)
    ensures CostFromDict(CostToDict(cost)) == Some(cost)
  {}

  lemma UsageRoundTrip(usage: Usage)
    ensures UsageFromDict(UsageToDict(usage)) == Some(usage)
  {
    hide CostToDict, CostFromDict;
    CostRoundTrip(usage.cost);
  }

  lemma ListsRoundTrip(names: seq<string>, objects: seq<Fields>)
    ensures StrArr(names).Arr? && Names(StrArr(names).items) == Some(names)
    ensures ObjArr(objects).Arr? && Objects(ObjArr(objects).items) == Some(objects)
  {
    assert Names(StrArr(names).items).value == names;
    assert Objects(ObjArr(objects).items).value == objects;
  }

  lemma UserRoundTrip(m: Message)
    requires m.User?
    ensures MessageFromDict(MessageToDict(m)) == Some(m)
  {
    hide BlocksToDicts, BlocksFromDicts;
    if m.userContent.Blocks? {
      BlocksRoundTrip(m.userContent.blocks);
    }
  }

  lemma ToolResultRoundTrip(m: Message)
    requires m.ToolResult?
    ensures MessageFromDict(MessageToDict(m)) == Some(m)
  {
    ResultFound(m);
    ResultDecodes(m, MessageToDict(m));
  }

  lemma WithGets(fields: Fields, key: string, value: Option<Json>)
    ensures Get(With(fields, key, value), key) == if value.Some? then value else Get(fields, key)
    ensures forall other :: other != key ==> Get(With(fields, key, value), other) == Get(fields, other)
  {}

  ghost predicate HasBase(m: Message, d: Fields)
    requires m.ToolResult?
  {
    && Get(d, "role") == Some(Str("toolResult")) && Get(d, "toolCallId") == Some(Str(m.toolCallId)) && Get(d, "toolName") == Some(Str(m.toolName))
    && Get(d, "content") == Some(Arr(BlocksToDicts(m.content))) && Get(d, "details") == Some(m.details)
    && Get(d, "isError") == Some(Bool(m.isError)) && Get(d, "timestamp") == Some(Int(m.timestamp))
  }

  ghost predicate HasResult(m: Message, d: Fields)
    requires m.ToolResult?
  {
    && HasBase(m, d)
    && Get(d, "usage") == (if m.usage.Some? then Some(Obj(UsageToDict(m.usage.value))) else None)
    && Get(d, "addedToolNames") == if m.addedToolNames.Some? then Some(StrArr(m.addedToolNames.value)) else None
  }

  lemma ResultFound(m: Message)
    requires m.ToolResult?
    ensures HasResult(m, MessageToDict(m))
  {
    hide BlocksToDicts, UsageToDict, StrArr, With, ResultFields;
    BaseFound(m);
    var usage := if m.usage.Some? then Some(Obj(UsageToDict(m.usage.value))) else None;
    WithGets(ResultFields(m), "usage", usage);
    WithGets(With(ResultFields(m), "usage", usage), "addedToolNames", if m.addedToolNames.Some? then Some(StrArr(m.addedToolNames.value)) else None);
  }

  lemma BaseFound(m: Message)
    requires m.ToolResult?
    ensures HasBase(m, ResultFields(m)) && Get(ResultFields(m), "usage") == Get(ResultFields(m), "addedToolNames") == None
  {
    hide BlocksToDicts;
  }

  lemma ResultDecodes(m: Message, d: Fields)
    requires m.ToolResult? && HasResult(m, d)
    ensures MessageFromDict(d) == Some(m)
  {
    hide Get, BlocksToDicts, BlocksFromDicts, UsageToDict, UsageFromDict, StrArr, Names;
    BlocksRoundTrip(m.content);
    if m.usage.Some? {
      UsageRoundTrip(m.usage.value);
    }
    if m.addedToolNames.Some? {
      ListsRoundTrip(m.addedToolNames.value, []);
    }
  }

  const OPTIONAL: set<string> := {"responseModel", "responseId", "errorMessage", "rawStopReason", "endTurn", "diagnostics"}

  lemma OptionalKeepsOthers(m: Message, fields: Fields, key: string)
    requires m.Assistant? && key !in OPTIONAL
    ensures Get(AddOptional(m, fields), key) == Get(fields, key)
  {
    hide ObjArr;
  }

  lemma OptionalFound(m: Message, fields: Fields)
    requires m.Assistant? && forall key :: key in OPTIONAL ==> key !in fields
    ensures HasOptional(m, AddOptional(m, fields))
  {
    hide ObjArr, With;
    var f1 := With(fields, "responseModel", OptStr(m.responseModel));
    var f2 := With(f1, "responseId", OptStr(m.responseId));
    var f3 := With(f2, "errorMessage", OptStr(m.errorMessage));
    var f4 := With(f3, "rawStopReason", OptStr(m.rawStopReason));
    var f5 := With(f4, "endTurn", OptBool(m.endTurn));
    WithGets(fields, "responseModel", OptStr(m.responseModel));
    WithGets(f1, "responseId", OptStr(m.responseId));
    WithGets(f2, "errorMessage", OptStr(m.errorMessage));
    WithGets(f3, "rawStopReason", OptStr(m.rawStopReason));
    WithGets(f4, "endTurn", OptBool(m.endTurn));
    WithGets(f5, "diagnostics", if m.diagnostics == [] then None else Some(ObjArr(m.diagnostics)));
    forall key | key in OPTIONAL ensures Get(fields, key) == None {
    }
  }

  ghost predicate HasRequired(m: Message, d: Fields)
    requires m.Assistant?
  {
    && Get(d, "role") == Some(Str("assistant")) && Get(d, "content") == Some(Arr(BlocksToDicts(m.content)))
    && Get(d, "api") == Some(Str(m.api)) && Get(d, "provider") == Some(Str(m.provider)) && Get(d, "model") == Some(Str(m.model))
    && Get(d, "usage") == Some(Obj(UsageToDict(m.tokens))) && Get(d, "stopReason") == Some(Str(m.stopReason))
    && Get(d, "timestamp") == Some(Int(m.timestamp))
  }

  ghost predicate HasOptional(m: Message, d: Fields)
    requires m.Assistant?
  {
    && Get(d, "responseModel") == OptStr(m.responseModel) && Get(d, "responseId") == OptStr(m.responseId)
    && Get(d, "errorMessage") == OptStr(m.errorMessage) && Get(d, "rawStopReason") == OptStr(m.rawStopReason)
    && Get(d, "endTurn") == OptBool(m.endTurn)
    && Get(d, "diagnostics") == if m.diagnostics == [] then None else Some(ObjArr(m.diagnostics))
  }

  lemma RequiredFound(m: Message)
    requires m.Assistant?
    ensures HasRequired(m, AssistantFields(m)) && forall key :: key in OPTIONAL ==> key !in AssistantFields(m)
  {
    hide BlocksToDicts, UsageToDict;
  }

  lemma RequiredKept(m: Message, fields: Fields)
    requires m.Assistant? && HasRequired(m, fields)
    ensures HasRequired(m, AddOptional(m, fields))
  {
    hide AddOptional, Get;
    OptionalKeepsOthers(m, fields, "role");
    OptionalKeepsOthers(m, fields, "content");
    OptionalKeepsOthers(m, fields, "api");
    OptionalKeepsOthers(m, fields, "provider");
    OptionalKeepsOthers(m, fields, "model");
    OptionalKeepsOthers(m, fields, "usage");
    OptionalKeepsOthers(m, fields, "stopReason");
    OptionalKeepsOthers(m, fields, "timestamp");
  }

  lemma AssistantIsDispatched(d: Fields)
    requires Get(d, "role") == Some(Str("assistant"))
    ensures MessageFromDict(d) == AssistantFromDict(d)
  {
    hide AssistantFromDict, ToolResultFromDict, UserFromDict;
  }

  lemma AssistantDecodes(m: Message, d: Fields)
    requires m.Assistant? && HasRequired(m, d) && HasOptional(m, d)
    ensures AssistantFromDict(d) == Some(m)
  {
    hide Get, GetStr, GetInt, FindStr, FindBool, GetDiagnostics, ContentFromDict, UsageToDict, UsageFromDict, HasOptional;
    RequiredDecodes(m, d);
    OptionalDecodes(m, d);
    UsageRoundTrip(m.tokens);
  }

  lemma RequiredDecodes(m: Message, d: Fields)
    requires m.Assistant? && HasRequired(m, d)
    ensures ContentFromDict(d) == Some(m.content) && GetInt(d, "timestamp") == Some(m.timestamp)
    ensures GetStr(d, "api", "") == Some(m.api) && GetStr(d, "provider", "") == Some(m.provider)
    ensures GetStr(d, "model", "") == Some(m.model) && GetStr(d, "stopReason", "pending") == Some(m.stopReason)
  {
    hide Get, BlocksToDicts, BlocksFromDicts, UsageToDict;
    BlocksRoundTrip(m.content);
  }

  lemma OptionalDecodes(m: Message, d: Fields)
    requires m.Assistant? && HasOptional(m, d)
    ensures FindStr(d, "responseModel") == Some(m.responseModel) && FindStr(d, "responseId") == Some(m.responseId)
    ensures FindStr(d, "errorMessage") == Some(m.errorMessage) && FindStr(d, "rawStopReason") == Some(m.rawStopReason)
    ensures FindBool(d, "endTurn") == Some(m.endTurn) && GetDiagnostics(d) == Some(m.diagnostics)
  {
    hide Get, ObjArr, Objects;
    ListsRoundTrip([], m.diagnostics);
  }

  lemma AssistantRoundTrip(m: Message)
    requires m.Assistant?
    ensures MessageFromDict(MessageToDict(m)) == Some(m)
  {
    hide AddOptional, AssistantFields, Get, HasOptional, MessageFromDict;
    RequiredFound(m);
    RequiredKept(m, AssistantFields(m));
    OptionalFound(m, AssistantFields(m));
    AssistantIsDispatched(MessageToDict(m));
    AssistantDecodes(m, MessageToDict(m));
  }

  /** Every message comes back from its dictionary as it was, and so no two messages share one. */
  lemma MessageRoundTrip(m: Message, other: Message)
    ensures MessageFromDict(MessageToDict(m)) == Some(m)
    ensures MessageToDict(m) == MessageToDict(other) ==> m == other
  {
    hide MessageToDict, MessageFromDict;
    RoundTrip(m);
    RoundTrip(other);
  }

  lemma RoundTrip(m: Message)
    ensures MessageFromDict(MessageToDict(m)) == Some(m)
  {
    hide MessageToDict, MessageFromDict;
    match m
    case User(_, _) => UserRoundTrip(m);
    case ToolResult(_, _, _, _, _, _, _, _) => ToolResultRoundTrip(m);
    case Assistant(_, _, _, _, _, _, _, _, _, _, _, _, _) => AssistantRoundTrip(m);
  }

  /** What a dictionary with nothing but its role reads as. */
  lemma MissingFields()
    ensures MessageFromDict(map["role" := Str("user")]) == Some(User(Plain(""), 0))
    ensures MessageFromDict(map["role" := Str("toolResult")]) == Some(ToolResult("", "", [], Obj(map[]), None, None, false, 0))
    ensures MessageFromDict(map["role" := Str("assistant")])
            == Some(Assistant([], "", "", "", None, None, Usage(0, 0, 0, 0, None, None, 0, Cost(0.0, 0.0, 0.0, 0.0, 0.0)),
                              "pending", None, None, None, [], 0))
  {}

  // ----- cost -----

  datatype Rates = Rates(input: real, output: real, cacheRead: real, cacheWrite: real)

  datatype Tier = Tier(above: int, rates: Rates)

  predicate Matches(tier: Tier, tokens: int) {
    -1 < tier.above < tokens
  }

  /** The first of the tiers with the highest threshold below the tokens. */
  ghost predicate Highest(tiers: seq<Tier>, tokens: int, k: nat) {
    && k < |tiers| && Matches(tiers[k], tokens)
    && (forall i :: 0 <= i < |tiers| && Matches(tiers[i], tokens) ==> tiers[i].above <= tiers[k].above)
    && (forall i :: 0 <= i < k && Matches(tiers[i], tokens) ==> tiers[i].above < tiers[k].above)
  }

  /** The loop of `calculate_cost`: one tier's rates price the whole request. */
  method ChooseRates(base: Rates, tiers: seq<Tier>, tokens: int) returns (rates: Rates)
    ensures if forall i :: 0 <= i < |tiers| ==> !Matches(tiers[i], tokens) then rates == base
            else exists k: nat :: Highest(tiers, tokens, k) && rates == tiers[k].rates
  {
    var threshold := -1;
    rates := base;
    ghost var k := 0;
    for i := 0 to |tiers|
      invariant threshold >= -1
      invariant threshold == -1 ==> rates == base && forall j :: 0 <= j < i ==> !Matches(tiers[j], tokens)
      invariant threshold > -1 ==> k < i && Highest(tiers[..i], tokens, k) && rates == tiers[k].rates && threshold == tiers[k].above
    {
      assert tiers[..i + 1] == tiers[..i] + [tiers[i]];
      if tokens > tiers[i].above > threshold {
        rates, threshold, k := tiers[i].rates, tiers[i].above, i;
      }
    }
    assert tiers[..|tiers|] == tiers;
    if threshold > -1 {
      assert Highest(tiers, tokens, k);
    }
  }
}
