/**
 * The image agent: a fixed graph of five nodes that share one mutable turn
 * state. `analyze_intent` asks the language model whether the user wants an
 * image; the route then goes either through `search_image` and
 * `generate_image` or through `normal_chat`, and always ends in
 * `format_response`, which writes the text the user sees.
 *
 * The language model, the JSON parser, the search provider and the object
 * store are the fields of `Env`: fixing them fixes the whole turn.
 */
module Agent {
  import opened Wrappers
  import opened Text
  import opened Json
  import opened ImageTools

  datatype Role = System | Human | Assistant

  datatype Message = Message(role: Role, content: string)

  /** The outside world of one turn. `llm` answers a message list with its
      reply text, or `None` when the call raises; `parse` is `json.loads`,
      `None` when it raises. */
  datatype Env = Env(
    llm: seq<Message> -> Option<string>,
    parse: string -> Option<Json>,
    searchProvider: SearchPayload -> SearchReply,
    upload: (string, string) -> Option<string>,
    sign: string -> Option<string>)

  /** How many earlier messages `normal_chat` passes on. */
  const HistoryWindow: nat := 5
  const JsonFence: string := "```json"
  const Fence: string := "```"
  const SystemInstruction: string := "你是一个友好的 AI 助手。请用简洁、自然的方式回答用户的问题。"
  const ChatApology: string := "抱歉，我遇到了一些问题，请稍后再试。"
  const DefaultTitle: string := "样例图片"
  const FoundPrefix: string := "✅ 已找到参考图片："
  const ReferenceLinkPrefix: string := "📷 参考图片链接："
  const NoReferenceLine: string := "⚠️ 未找到合适的参考图片"
  const GeneratedLine: string := "\n✨ 已根据您的需求生成新图片！"
  const GeneratedLinkPrefix: string := "🎨 生成的图片链接："
  const PromptPrefix: string := "💡 生成提示词："
  const GenerationFailedLine: string := "\n❌ 图片生成失败，请稍后重试"

  const IntentPromptHead: string :=
    "分析以下用户输入，判断用户是否需要生成图片。\n\n用户输入: "
  const IntentPromptTail: string :=
    "\n\n如果用户明确要求生成、搜索或要某个图片（比如\"我要一张xxx的图片\"、\"给我生成xxx图片\"、\"帮我找xxx图片\"等），\n请回复 JSON 格式: {\"need_image\": true, \"search_query\": \"提取的搜索关键词\"}\n\n如果是普通对话，请回复: {\"need_image\": false}\n\n只返回 JSON，不要其他内容。\n"

  /** The classification prompt, with the user's input in the middle. */
  function IntentPrompt(userInput: string): string {
    IntentPromptHead + userInput + IntentPromptTail
  }

  /** The prompt carries the user input verbatim between its fixed head and
      tail, so the input can be read back from it. */
  lemma IntentPromptCarriesInput(userInput: string)
    ensures var p := IntentPrompt(userInput);
      && |p| == |IntentPromptHead| + |userInput| + |IntentPromptTail|
      && StartsWith(p, IntentPromptHead)
      && p[|IntentPromptHead|..|IntentPromptHead| + |userInput|] == userInput
      && p[|IntentPromptHead| + |userInput|..] == IntentPromptTail
  {
  }

  const RefinementPromptHead: string :=
    "基于用户请求，生成一个详细的图片生成提示词（英文）。\n\n用户请求: "
  const RefinementPromptTail: string :=
    "\n\n请生成一个详细的英文提示词，描述图片应该包含的内容、风格、颜色等。\n只返回提示词本身，不要其他解释。\n"

  /** The prompt asking the model for a detailed (English) image prompt. */
  function RefinementPrompt(userInput: string): string {
    RefinementPromptHead + userInput + RefinementPromptTail
  }

  /** The prompt carries the user input verbatim between its fixed head and
      tail, so the input can be read back from it. */
  lemma RefinementPromptCarriesInput(userInput: string)
    ensures var p := RefinementPrompt(userInput);
      && |p| == |RefinementPromptHead| + |userInput| + |RefinementPromptTail|
      && StartsWith(p, RefinementPromptHead)
      && p[|RefinementPromptHead|..|RefinementPromptHead| + |userInput|] == userInput
      && p[|RefinementPromptHead| + |userInput|..] == RefinementPromptTail
  {
  }

  /** Different inputs give different prompts: the model always sees the
      user's input, whether it is asked for the intent or for a refined
      prompt. */
  lemma PromptsDetermineInput(u1: string, u2: string)
    ensures IntentPrompt(u1) == IntentPrompt(u2) ==> u1 == u2
    ensures RefinementPrompt(u1) == RefinementPrompt(u2) ==> u1 == u2
  {
    IntentPromptCarriesInput(u1);
    IntentPromptCarriesInput(u2);
    RefinementPromptCarriesInput(u1);
    RefinementPromptCarriesInput(u2);
  }

  // ---------------------------------------------------------------------
  // Turn state

  /** `AgentState`, as a value. `None` stands for the empty dict `{}` that a
      missing tool result is stored as. */
  datatype TurnState = TurnState(
    messages: seq<Message>,
    userInput: string,
    needImage: bool,
    searchQuery: string,
    referenceImage: Option<ImageRecord>,
    generatedImage: Option<ImageRecord>,
    response: string)

  /** The state `run` starts the graph with. */
  function InitialState(userInput: string, history: seq<Message>): (s: TurnState)
    ensures s.messages == history && s.userInput == userInput
    ensures !s.needImage && s.searchQuery == "" && s.response == ""
    ensures s.referenceImage.None? && s.generatedImage.None?
  {
    TurnState(history, userInput, false, "", None, None, "")
  }

  // ---------------------------------------------------------------------
  // analyze_intent

  /** The body inside a fence: from just after the first `opening` to the
      next "```" (when there is none, `find` gives -1 and the slice stops
      one character short of the end), stripped. */
  function FenceBody(text: string, opening: string): (body: string)
    ensures |body| <= |text|
    ensures body == [] || (!IsSpace(body[0]) && !IsSpace(body[|body| - 1]))
  {
    var found := Find(text, opening, 0);
    assert found == -1 ==> opening != [] by {
      if opening == [] {
        assert OccursAt(text, opening, 0);
      }
    }
    var start := found + |opening|;
    var end := Find(text, Fence, start);
    Strip(Slice(text, start, end))
  }

  /** Every "```json" is also a "```". */
  lemma JsonFenceIsFence(text: string, i: int)
    requires OccursAt(text, JsonFence, i)
    ensures OccursAt(text, Fence, i)
  {
    assert text[i..i + 3] == text[i..i + 7][..3];
  }

  /** The text handed to `json.loads`: the body of a "```json" fence when
      there is one, else the body of a bare "```" fence, else the reply. */
  function ExtractJson(text: string): (json: string)
    ensures |json| <= |text|
    ensures Contains(text, Fence) ==> json == [] || (!IsSpace(json[0]) && !IsSpace(json[|json| - 1]))
  {
    if Contains(text, JsonFence) then FenceBody(text, JsonFence)
    else if Contains(text, Fence) then FenceBody(text, Fence)
    else text
  }

  /** A reply without any fence is parsed as it is. */
  lemma NoFenceUnchanged(text: string)
    requires !Contains(text, Fence)
    ensures ExtractJson(text) == text
  {
    if Contains(text, JsonFence) {
      var i :| 0 <= i <= |text| && OccursAt(text, JsonFence, i);
      JsonFenceIsFence(text, i);
      assert false;
    }
  }

  /** `i` is where `sub` first occurs in `text` at or after `from`. */
  ghost predicate FirstAt(text: string, sub: string, from: nat, i: int) {
    from <= i && OccursAt(text, sub, i) && forall j :: from <= j < i ==> !OccursAt(text, sub, j)
  }

  /** `sub` does not occur in `text` at or after `from`. */
  ghost predicate AbsentFrom(text: string, sub: string, from: nat) {
    forall j :: from <= j ==> !OccursAt(text, sub, j)
  }

  /** A "```json" fence wins over any bare fence: the text parsed is what
      lies between the first "```json" and the next "```", stripped. */
  lemma JsonFenceExtracted(text: string, i: nat, k: nat)
    requires FirstAt(text, JsonFence, 0, i)
    requires FirstAt(text, Fence, i + |JsonFence|, k)
    ensures ExtractJson(text) == Strip(text[i + |JsonFence|..k])
  {
    assert Contains(text, JsonFence);
    assert Find(text, JsonFence, 0) == i;
    assert Find(text, Fence, i + |JsonFence|) == k;
    assert Slice(text, i + |JsonFence|, k) == text[i + |JsonFence|..k];
  }

  /** An unclosed "```json" fence: `find` returns -1, so the slice runs to
      the last character but one. */
  lemma JsonFenceUnclosed(text: string, i: nat)
    requires FirstAt(text, JsonFence, 0, i)
    requires AbsentFrom(text, Fence, i + |JsonFence|)
    ensures ExtractJson(text) ==
      if i + |JsonFence| < |text| then Strip(text[i + |JsonFence|..|text| - 1]) else ""
  {
    assert Contains(text, JsonFence);
    assert Find(text, JsonFence, 0) == i;
    assert Find(text, Fence, i + |JsonFence|) == -1;
  }

  /** With no "```json", the first bare fence pair is used. */
  lemma BareFenceExtracted(text: string, i: nat, k: nat)
    requires !Contains(text, JsonFence)
    requires FirstAt(text, Fence, 0, i)
    requires FirstAt(text, Fence, i + |Fence|, k)
    ensures ExtractJson(text) == Strip(text[i + |Fence|..k])
  {
    assert Contains(text, Fence);
    assert Find(text, Fence, 0) == i;
    assert Find(text, Fence, i + |Fence|) == k;
    assert Slice(text, i + |Fence|, k) == text[i + |Fence|..k];
  }

  /** An unclosed bare fence loses the reply's last character too. */
  lemma BareFenceUnclosed(text: string, i: nat)
    requires !Contains(text, JsonFence)
    requires FirstAt(text, Fence, 0, i)
    requires AbsentFrom(text, Fence, i + |Fence|)
    ensures ExtractJson(text) ==
      if i + |Fence| < |text| then Strip(text[i + |Fence|..|text| - 1]) else ""
  {
    assert Contains(text, Fence);
    assert Find(text, Fence, 0) == i;
    assert Find(text, Fence, i + |Fence|) == -1;
  }

  /** What `json.loads` made of the classification reply; `None` when the
      model call or the parse raised. */
  function ParsedIntent(env: Env, userInput: string): (parsed: Option<Json>)
    ensures env.llm([Message(Human, IntentPrompt(userInput))]).None? ==> parsed.None?
    ensures var reply := env.llm([Message(Human, IntentPrompt(userInput))]);
      reply.Some? && !Contains(Strip(reply.value), Fence) ==> parsed == env.parse(Strip(reply.value))
  {
    match env.llm([Message(Human, IntentPrompt(userInput))])
    case None => None
    case Some(content) =>
      var text := Strip(content);
      assert !Contains(text, Fence) ==> ExtractJson(text) == text by {
        if !Contains(text, Fence) {
          NoFenceUnchanged(text);
        }
      }
      env.parse(ExtractJson(text))
  }

  /** `result.get("search_query", user_input)` for a string value. */
  function QueryOr(fields: map<string, Json>, userInput: string): (q: string)
    ensures "search_query" !in fields ==> q == userInput
    ensures "search_query" in fields && fields["search_query"].JStr? ==> q == fields["search_query"].s
  {
    match Get(fields, "search_query", JStr(userInput))
    case JStr(s) => s
    case _ => userInput
  }

  /** `analyze_intent`: the image flag is the truthiness of `need_image` in
      a parsed JSON object; every failure (model call, parse, a value that is
      not an object) leaves it false. The query is written only with the flag. */
  function AnalyzeIntentStep(s: TurnState, env: Env): (r: TurnState)
    ensures r.(needImage := s.needImage, searchQuery := s.searchQuery) == s
    ensures var parsed := ParsedIntent(env, s.userInput);
      r.needImage <==> parsed.Some? && parsed.value.JObj? && Truthy(Get(parsed.value.fields, "need_image", JBool(false)))
    ensures r.needImage ==> r.searchQuery == QueryOr(ParsedIntent(env, s.userInput).value.fields, s.userInput)
    ensures !r.needImage ==> r.searchQuery == s.searchQuery
  {
    match ParsedIntent(env, s.userInput)
    case Some(JObj(fields)) =>
      if Truthy(Get(fields, "need_image", JBool(false))) then
        s.(needImage := true, searchQuery := QueryOr(fields, s.userInput))
      else s.(needImage := false)
    case _ => s.(needImage := false)
  }

  /** The fail-safe: a model call that raises means no image. */
  lemma IntentFailSafe(s: TurnState, env: Env)
    requires env.llm([Message(Human, IntentPrompt(s.userInput))]).None?
      || env.parse(ExtractJson(Strip(env.llm([Message(Human, IntentPrompt(s.userInput))]).GetOr("")))).None?
    ensures !AnalyzeIntentStep(s, env).needImage
    ensures AnalyzeIntentStep(s, env).searchQuery == s.searchQuery
  {
  }

  // ---------------------------------------------------------------------
  // route_after_intent and the graph

  datatype RouteLabel = Search | Chat

  /** `route_after_intent`. */
  function RouteAfterIntent(needImage: bool): (l: RouteLabel)
    ensures l == Search <==> needImage
    ensures l == Chat <==> !needImage
  {
    if needImage then Search else Chat
  }

  datatype Node = AnalyzeIntentNode | SearchImageNode | GenerateImageNode | NormalChatNode | FormatResponseNode | End

  /** Steps left before END; every edge lowers it. */
  function Rank(n: Node): nat {
    match n
    case AnalyzeIntentNode => 4
    case SearchImageNode => 3
    case GenerateImageNode => 2
    case NormalChatNode => 2
    case FormatResponseNode => 1
    case End => 0
  }

  /** The graph's edges (`_build_graph`); the one conditional edge leaves
      `analyze_intent` by the label `route_after_intent` returns. */
  function Successor(n: Node, needImage: bool): (m: Node)
    requires n != End
    ensures Rank(m) < Rank(n)
  {
    match n
    case AnalyzeIntentNode =>
      (match RouteAfterIntent(needImage)
       case Search => SearchImageNode
       case Chat => NormalChatNode)
    case SearchImageNode => GenerateImageNode
    case GenerateImageNode => FormatResponseNode
    case NormalChatNode => FormatResponseNode
    case FormatResponseNode => End
  }

  /** The path through the graph for a given intent. */
  function Path(needImage: bool): (p: seq<Node>)
    ensures |p| >= 3 && p[0] == AnalyzeIntentNode && p[|p| - 1] == FormatResponseNode
    ensures End !in p
    ensures forall i :: 0 <= i < |p| - 1 ==> Successor(p[i], needImage) == p[i + 1]
    ensures Successor(p[|p| - 1], needImage) == End
    ensures forall i, j :: 0 <= i < j < |p| ==> p[i] != p[j]
    ensures SearchImageNode in p <==> needImage
    ensures NormalChatNode in p <==> !needImage
  {
    if needImage then [AnalyzeIntentNode, SearchImageNode, GenerateImageNode, FormatResponseNode]
    else [AnalyzeIntentNode, NormalChatNode, FormatResponseNode]
  }

  // ---------------------------------------------------------------------
  // search_image, generate_image

  /** `search_image`: store the search tool's result, `{}` when it has none. */
  function SearchImageStep(s: TurnState, env: Env): (r: TurnState)
    ensures r.(referenceImage := s.referenceImage) == s
    ensures r.referenceImage == SearchImage(s.searchQuery, env.searchProvider, env.upload, env.sign)
  {
    s.(referenceImage := SearchImage(s.searchQuery, env.searchProvider, env.upload, env.sign))
  }

  /** The refined generation prompt, or the search query when the model
      call raises. */
  function GenerationPrompt(s: TurnState, env: Env): (p: string)
    ensures env.llm([Message(Human, RefinementPrompt(s.userInput))]).None? ==> p == s.searchQuery
    ensures var reply := env.llm([Message(Human, RefinementPrompt(s.userInput))]);
      reply.Some? ==> p == Strip(reply.value)
  {
    match env.llm([Message(Human, RefinementPrompt(s.userInput))])
    case Some(content) => Strip(content)
    case None => s.searchQuery
  }

  /** The reference URL passed to generation: the stored reference's signed
      URL, `None` when there is no reference. */
  function ReferenceUrl(reference: Option<ImageRecord>): (u: Option<string>)
    ensures reference.None? ==> u.None?
    ensures reference.Some? ==> u == reference.value.presignedUrl
  {
    if reference.None? then None else reference.value.presignedUrl
  }

  /** `generate_image`: refine the prompt and call the placeholder generator. */
  function GenerateImageStep(s: TurnState, env: Env): (r: TurnState)
    ensures r.(generatedImage := s.generatedImage) == s
    ensures r.generatedImage == GenerateImageSimple(GenerationPrompt(s, env), ReferenceUrl(s.referenceImage))
  {
    s.(generatedImage := GenerateImageSimple(GenerationPrompt(s, env), ReferenceUrl(s.referenceImage)))
  }

  // ---------------------------------------------------------------------
  // normal_chat

  /** Python's `history[-n:]`. */
  function LastN(history: seq<Message>, n: nat): (w: seq<Message>)
    ensures |w| == if |history| <= n then |history| else n
    ensures w == history[|history| - |w|..]
  {
    if |history| <= n then history else history[|history| - n..]
  }

  /** The messages `normal_chat` sends: the system instruction, the last five
      earlier messages in their order, then the user's input. */
  function ChatContext(history: seq<Message>, userInput: string): (ctx: seq<Message>)
    ensures 2 <= |ctx| <= HistoryWindow + 2
    ensures |ctx| == 2 + (if |history| <= HistoryWindow then |history| else HistoryWindow)
    ensures ctx[0] == Message(System, SystemInstruction)
    ensures ctx[|ctx| - 1] == Message(Human, userInput)
    ensures ctx[1..|ctx| - 1] == history[|history| - (|ctx| - 2)..]
  {
    [Message(System, SystemInstruction)] + LastN(history, HistoryWindow) + [Message(Human, userInput)]
  }

  /** `normal_chat`: the model's reply verbatim, or the fixed apology when
      the call raises. */
  function NormalChatStep(s: TurnState, env: Env): (r: TurnState)
    ensures r.(response := s.response) == s
    ensures var reply := env.llm(ChatContext(s.messages, s.userInput));
      r.response == if reply.Some? then reply.value else ChatApology
  {
    match env.llm(ChatContext(s.messages, s.userInput))
    case Some(content) => s.(response := content)
    case None => s.(response := ChatApology)
  }

  // ---------------------------------------------------------------------
  // format_response

  /** `reference_image.get('title', '样例图片')` on a success record. */
  function TitleOr(record: ImageRecord, default: string): (title: string)
    ensures record.SearchHit? ==> title == record.title
    ensures record.Generated? ==> title == default
  {
    match record
    case SearchHit(_, _, _, title, _) => title
    case Generated(_, _, _, _) => default
  }

  /** `generated_image.get('prompt', '')` on a success record. */
  function PromptOr(record: ImageRecord, default: string): (prompt: string)
    ensures record.Generated? ==> prompt == record.prompt
    ensures record.SearchHit? ==> prompt == default
  {
    match record
    case SearchHit(_, _, _, _, _) => default
    case Generated(_, _, prompt, _) => prompt
  }

  /** The lines about the reference image. */
  function ReferenceParts(reference: Option<ImageRecord>): (parts: seq<string>)
    ensures |parts| == if reference.Some? then 2 else 1
  {
    match reference
    case Some(record) =>
      [FoundPrefix + TitleOr(record, DefaultTitle), ReferenceLinkPrefix + Show(record.presignedUrl)]
    case None => [NoReferenceLine]
  }

  /** The lines about the generated image. */
  function GenerationParts(generated: Option<ImageRecord>): (parts: seq<string>)
    ensures |parts| == if generated.Some? then 3 else 1
  {
    match generated
    case Some(record) =>
      [GeneratedLine, GeneratedLinkPrefix + Show(record.presignedUrl), PromptPrefix + PromptOr(record, "")]
    case None => [GenerationFailedLine]
  }

  /** The parts `format_response` joins on the image branch: one found line
      and its link, or one "not found" line; then the success line, the link
      and the prompt, or one failure line. */
  function ResponseParts(reference: Option<ImageRecord>, generated: Option<ImageRecord>): (parts: seq<string>)
    ensures 2 <= |parts| <= 5
    ensures |parts| == (if reference.Some? then 2 else 1) + (if generated.Some? then 3 else 1)
    ensures reference.Some? <==> StartsWith(parts[0], FoundPrefix)
    ensures reference.None? <==> parts[0] == NoReferenceLine
    ensures reference.Some? ==> parts[0] == FoundPrefix + TitleOr(reference.value, DefaultTitle)
    ensures reference.Some? ==> parts[1] == ReferenceLinkPrefix + Show(reference.value.presignedUrl)
    ensures generated.None? <==> parts[|parts| - 1] == GenerationFailedLine
    ensures generated.Some? ==>
      && parts[|parts| - 3] == GeneratedLine
      && parts[|parts| - 2] == GeneratedLinkPrefix + Show(generated.value.presignedUrl)
      && parts[|parts| - 1] == PromptPrefix + PromptOr(generated.value, "")
  {
    var parts := ReferenceParts(reference) + GenerationParts(generated);
    assert reference.Some? ==> parts[0][0] == FoundPrefix[0] != NoReferenceLine[0];
    assert reference.None? ==> |FoundPrefix| <= |parts[0]| && parts[0][..|FoundPrefix|][0] != FoundPrefix[0];
    assert generated.Some? ==> parts[|parts| - 1][0] == PromptPrefix[0] != GenerationFailedLine[0];
    parts
  }

  /** A found reference is always a search hit, which always carries a
      title, so the summary opens with the hit's own title: the default
      title is never substituted for it. */
  lemma FoundLineCarriesTitle(reference: Option<ImageRecord>, generated: Option<ImageRecord>)
    requires reference.Some? && reference.value.SearchHit?
    ensures StartsWith(Join(ResponseParts(reference, generated), "\n"), FoundPrefix + reference.value.title + "\n")
  {
    var parts := ResponseParts(reference, generated);
    JoinFront(parts, "\n");
    assert parts[0] + "\n" == FoundPrefix + reference.value.title + "\n";
  }

  /** The reference lines as joined text: the found line and the link line,
      or the single "not found" line. */
  lemma ReferenceText(reference: Option<ImageRecord>)
    ensures reference.None? ==> Join(ReferenceParts(reference), "\n") == NoReferenceLine
    ensures reference.Some? ==>
      Join(ReferenceParts(reference), "\n") ==
        FoundPrefix + TitleOr(reference.value, DefaultTitle) + "\n" + ReferenceLinkPrefix + Show(reference.value.presignedUrl)
  {
    if reference.Some? {
      var record := reference.value;
      JoinTwo(FoundPrefix + TitleOr(record, DefaultTitle), ReferenceLinkPrefix + Show(record.presignedUrl), "\n");
    } else {
      JoinSingle(NoReferenceLine, "\n");
    }
  }

  /** The generation lines as joined text: the success line, the link line
      and the prompt line, or the single failure line. */
  lemma GenerationText(generated: Option<ImageRecord>)
    ensures generated.None? ==> Join(GenerationParts(generated), "\n") == GenerationFailedLine
    ensures generated.Some? ==>
      Join(GenerationParts(generated), "\n") ==
        GeneratedLine + "\n" + GeneratedLinkPrefix + Show(generated.value.presignedUrl) + "\n" + PromptPrefix + PromptOr(generated.value, "")
  {
    if generated.Some? {
      var record := generated.value;
      JoinThree(GeneratedLine, GeneratedLinkPrefix + Show(record.presignedUrl), PromptPrefix + PromptOr(record, ""), "\n");
    } else {
      JoinSingle(GenerationFailedLine, "\n");
    }
  }

  /** The whole text of the image reply: the reference text (`ReferenceText`),
      a newline, then the generation text (`GenerationText`), so it ends with
      the prompt line when an image was generated and with the failure line
      otherwise. */
  lemma ResponseText(reference: Option<ImageRecord>, generated: Option<ImageRecord>)
    ensures Join(ResponseParts(reference, generated), "\n") ==
      Join(ReferenceParts(reference), "\n") + "\n" + Join(GenerationParts(generated), "\n")
    ensures generated.None? ==>
      Join(ResponseParts(reference, generated), "\n") == Join(ReferenceParts(reference), "\n") + "\n" + GenerationFailedLine
  {
    assert ResponseParts(reference, generated) == ReferenceParts(reference) + GenerationParts(generated);
    JoinAppend(ReferenceParts(reference), GenerationParts(generated), "\n");
    if generated.None? {
      JoinSingle(GenerationFailedLine, "\n");
    }
  }

  /** `format_response`: on the image branch the response is the parts joined
      by newlines; on the chat branch nothing changes. */
  function FormatResponseStep(s: TurnState): (r: TurnState)
    ensures !s.needImage ==> r == s
    ensures s.needImage ==>
      r == s.(response := Join(ResponseParts(s.referenceImage, s.generatedImage), "\n"))
  {
    if s.needImage then s.(response := Join(ResponseParts(s.referenceImage, s.generatedImage), "\n"))
    else s
  }

  // ---------------------------------------------------------------------
  // The whole turn

  /** What running one node does to the state. */
  function Step(n: Node, s: TurnState, env: Env): TurnState {
    match n
    case AnalyzeIntentNode => AnalyzeIntentStep(s, env)
    case SearchImageNode => SearchImageStep(s, env)
    case GenerateImageNode => GenerateImageStep(s, env)
    case NormalChatNode => NormalChatStep(s, env)
    case FormatResponseNode => FormatResponseStep(s)
    case End => s
  }

  /** The state at END when the graph is entered at `n`. */
  function Execute(n: Node, s: TurnState, env: Env): (r: TurnState)
    ensures r.userInput == s.userInput && r.messages == s.messages
    ensures n == FormatResponseNode ==> r.needImage == s.needImage
    decreases Rank(n)
  {
    if n == End then s
    else
      var next := Step(n, s, env);
      Execute(Successor(n, next.needImage), next, env)
  }

  /** The nodes run, in order, when the graph is entered at `n`. */
  ghost function Visited(n: Node, s: TurnState, env: Env): seq<Node>
    decreases Rank(n)
  {
    if n == End then []
    else
      var next := Step(n, s, env);
      [n] + Visited(Successor(n, next.needImage), next, env)
  }

  /** Entered at a node, the graph runs that node first, never lists END, and
      runs no more nodes than the node's rank: every turn ends. */
  lemma {:induction false} VisitedShape(n: Node, s: TurnState, env: Env)
    ensures var v := Visited(n, s, env);
      && |v| <= Rank(n)
      && End !in v
      && (n != End ==> |v| > 0 && v[0] == n)
    decreases Rank(n)
  {
    if n != End {
      var next := Step(n, s, env);
      VisitedShape(Successor(n, next.needImage), next, env);
    }
  }

  /** Entering the graph at a node runs that node, then continues at its
      successor: the whole turn and the nodes visited so far are unchanged by
      taking one step. */
  lemma StepUnfolds(n: Node, s: TurnState, env: Env, done: seq<Node>, final: TurnState, all: seq<Node>)
    requires n != End
    requires Execute(n, s, env) == final
    requires done + Visited(n, s, env) == all
    ensures var next := Step(n, s, env);
      && Execute(Successor(n, next.needImage), next, env) == final
      && (done + [n]) + Visited(Successor(n, next.needImage), next, env) == all
  {
    var next := Step(n, s, env);
    var m := Successor(n, next.needImage);
    assert Execute(n, s, env) == Execute(m, next, env);
    assert Visited(n, s, env) == [n] + Visited(m, next, env);
    ConcatAssoc(done, [n], Visited(m, next, env));
  }

  lemma ConcatAssoc(a: seq<Node>, b: seq<Node>, c: seq<Node>)
    ensures a + (b + c) == (a + b) + c
  {
  }

  /** What `run` returns. */
  datatype TurnResult = TurnResult(
    response: string,
    referenceImage: Option<ImageRecord>,
    generatedImage: Option<ImageRecord>,
    needImage: bool)

  function ResultOf(s: TurnState): (r: TurnResult)
    ensures r.response == s.response && r.needImage == s.needImage
    ensures r.referenceImage == s.referenceImage && r.generatedImage == s.generatedImage
  {
    TurnResult(s.response, s.referenceImage, s.generatedImage, s.needImage)
  }

  /** After `analyze_intent` the nodes run do not depend on the state:
      `format_response` is the last node, ... */
  lemma FormatResponseIsLast(s: TurnState, env: Env)
    ensures Visited(FormatResponseNode, s, env) == [FormatResponseNode]
  {
    assert Visited(End, FormatResponseStep(s), env) == [];
  }

  /** ... `normal_chat` and `generate_image` lead straight to it, ... */
  lemma ChatAndGenerateTails(s: TurnState, env: Env)
    ensures Visited(NormalChatNode, s, env) == [NormalChatNode, FormatResponseNode]
    ensures Visited(GenerateImageNode, s, env) == [GenerateImageNode, FormatResponseNode]
  {
    FormatResponseIsLast(NormalChatStep(s, env), env);
    FormatResponseIsLast(GenerateImageStep(s, env), env);
  }

  /** ... and `search_image` leads to `generate_image`. */
  lemma SearchTail(s: TurnState, env: Env)
    ensures Visited(SearchImageNode, s, env) == [SearchImageNode, GenerateImageNode, FormatResponseNode]
  {
    ChatAndGenerateTails(SearchImageStep(s, env), env);
  }

  /** What the rest of the graph does after `analyze_intent`: the chat
      branch and the image branch as plain compositions of their steps. */
  lemma ExecuteTails(s: TurnState, env: Env)
    ensures Execute(NormalChatNode, s, env) == FormatResponseStep(NormalChatStep(s, env))
    ensures Execute(SearchImageNode, s, env) == FormatResponseStep(GenerateImageStep(SearchImageStep(s, env), env))
  {
    var c := NormalChatStep(s, env);
    assert Execute(FormatResponseNode, c, env) == FormatResponseStep(c);
    var s2 := SearchImageStep(s, env);
    var s3 := GenerateImageStep(s2, env);
    assert Execute(FormatResponseNode, s3, env) == FormatResponseStep(s3);
    assert Execute(GenerateImageNode, s2, env) == FormatResponseStep(s3);
  }

  /** Every turn follows one of the two paths, chosen by the intent: each
      node at most once, in order, ending at END. */
  lemma TurnPath(s0: TurnState, env: Env)
    ensures Visited(AnalyzeIntentNode, s0, env) == Path(AnalyzeIntentStep(s0, env).needImage)
  {
    var s1 := AnalyzeIntentStep(s0, env);
    ChatAndGenerateTails(s1, env);
    SearchTail(s1, env);
    if s1.needImage {
      assert Visited(AnalyzeIntentNode, s0, env) == [AnalyzeIntentNode] + Visited(SearchImageNode, s1, env);
    } else {
      assert Visited(AnalyzeIntentNode, s0, env) == [AnalyzeIntentNode] + Visited(NormalChatNode, s1, env);
    }
  }

  /** The chat branch: no search, no generation, and the user gets the chat
      reply verbatim (or the apology).
      `{:induction false}`: the proof is direct, so Dafny is kept from
      trying induction on the history. */
  lemma {:induction false} ChatTurn(env: Env, userInput: string, history: seq<Message>)
    requires !AnalyzeIntentStep(InitialState(userInput, history), env).needImage
    ensures var r := Execute(AnalyzeIntentNode, InitialState(userInput, history), env);
      var reply := env.llm(ChatContext(history, userInput));
      && r.response == (if reply.Some? then reply.value else ChatApology)
      && r.referenceImage.None? && r.generatedImage.None? && !r.needImage && r.searchQuery == ""
  {
    var s0 := InitialState(userInput, history);
    var s1 := AnalyzeIntentStep(s0, env);
    ExecuteTails(s1, env);
    assert Execute(AnalyzeIntentNode, s0, env) == Execute(NormalChatNode, s1, env);
  }

  /** The image branch: the search result is stored, the placeholder image is
      generated from the refined prompt (or the query) with the reference's
      URL, and the user gets the joined summary, four or five parts long.
      `{:induction false}`: the proof is direct, so Dafny is kept from
      trying induction on the history. */
  lemma {:induction false} ImageTurn(env: Env, userInput: string, history: seq<Message>)
    requires AnalyzeIntentStep(InitialState(userInput, history), env).needImage
    ensures var s1 := AnalyzeIntentStep(InitialState(userInput, history), env);
      var r := Execute(AnalyzeIntentNode, InitialState(userInput, history), env);
      var reference := SearchImage(s1.searchQuery, env.searchProvider, env.upload, env.sign);
      && r.needImage
      && r.referenceImage == reference
      && r.generatedImage == GenerateImageSimple(GenerationPrompt(s1, env), ReferenceUrl(reference))
      && r.response == Join(ResponseParts(r.referenceImage, r.generatedImage), "\n")
      && 4 <= |ResponseParts(r.referenceImage, r.generatedImage)| <= 5
  {
    var s0 := InitialState(userInput, history);
    var s1 := AnalyzeIntentStep(s0, env);
    var s2 := SearchImageStep(s1, env);
    ExecuteTails(s1, env);
    assert Execute(AnalyzeIntentNode, s0, env) == Execute(SearchImageNode, s1, env);
    assert GenerationPrompt(s2, env) == GenerationPrompt(s1, env);
  }

  // ---------------------------------------------------------------------
  // The imperative agent

  /** The mutable `AgentState` dict every node updates in place. */
  class AgentState {
    var messages: seq<Message>
    var userInput: string
    var needImage: bool
    var searchQuery: string
    var referenceImage: Option<ImageRecord>
    var generatedImage: Option<ImageRecord>
    var response: string

    function Snapshot(): TurnState
      reads this
    {
      TurnState(messages, userInput, needImage, searchQuery, referenceImage, generatedImage, response)
    }

    /** The `initial_state` of `run`. */
    constructor (userInput: string, history: seq<Message>)
      ensures Snapshot() == InitialState(userInput, history)
    {
      messages := history;
      this.userInput := userInput;
      needImage := false;
      searchQuery := "";
      referenceImage := None;
      generatedImage := None;
      response := "";
    }
  }

  /** `ImageAgent`: the nodes, run over a shared state, and `run`. */
  class ImageAgent {
    const env: Env

    constructor (env: Env)
      ensures this.env == env
    {
      this.env := env;
    }

    method AnalyzeIntent(state: AgentState)
      modifies state
      ensures state.Snapshot() == AnalyzeIntentStep(old(state.Snapshot()), env)
    {
      var userInput := state.userInput;
      var reply := env.llm([Message(Human, IntentPrompt(userInput))]);
      if reply.None? {
        state.needImage := false;
        return;
      }
      var parsed := env.parse(ExtractJson(Strip(reply.value)));
      if parsed.Some? && parsed.value.JObj? {
        state.needImage := Truthy(Get(parsed.value.fields, "need_image", JBool(false)));
        if state.needImage {
          state.searchQuery := QueryOr(parsed.value.fields, userInput);
        }
      } else {
        state.needImage := false;
      }
    }

    method SearchImage(state: AgentState)
      modifies state
      ensures state.Snapshot() == SearchImageStep(old(state.Snapshot()), env)
    {
      var result := ImageTools.SearchImage(state.searchQuery, env.searchProvider, env.upload, env.sign);
      state.referenceImage := result;
    }

    method GenerateImage(state: AgentState)
      modifies state
      ensures state.Snapshot() == GenerateImageStep(old(state.Snapshot()), env)
    {
      var prompt: string;
      var refined := env.llm([Message(Human, RefinementPrompt(state.userInput))]);
      if refined.Some? {
        prompt := Strip(refined.value);
      } else {
        prompt := state.searchQuery;
      }
      assert prompt == GenerationPrompt(old(state.Snapshot()), env);
      var referenceUrl := if state.referenceImage.Some? then state.referenceImage.value.presignedUrl else None;
      var result := GenerateImageSimple(prompt, referenceUrl);
      state.generatedImage := result;
    }

    method NormalChat(state: AgentState)
      modifies state
      ensures state.Snapshot() == NormalChatStep(old(state.Snapshot()), env)
    {
      var chatMessages := [Message(System, SystemInstruction)];
      chatMessages := chatMessages + LastN(state.messages, HistoryWindow);
      chatMessages := chatMessages + [Message(Human, state.userInput)];
      var reply := env.llm(chatMessages);
      if reply.Some? {
        state.response := reply.value;
      } else {
        state.response := ChatApology;
      }
    }

    method FormatResponse(state: AgentState)
      modifies state
      ensures state.Snapshot() == FormatResponseStep(old(state.Snapshot()))
    {
      if state.needImage {
        var reference, generated := state.referenceImage, state.generatedImage;
        var parts: seq<string> := [];
        if reference.Some? {
          parts := parts + [FoundPrefix + TitleOr(reference.value, DefaultTitle)];
          parts := parts + [ReferenceLinkPrefix + Show(reference.value.presignedUrl)];
        } else {
          parts := parts + [NoReferenceLine];
        }
        if generated.Some? {
          parts := parts + [GeneratedLine];
          parts := parts + [GeneratedLinkPrefix + Show(generated.value.presignedUrl)];
          parts := parts + [PromptPrefix + PromptOr(generated.value, "")];
        } else {
          parts := parts + [GenerationFailedLine];
        }
        assert parts == ResponseParts(reference, generated);
        state.response := Join(parts, "\n");
      }
    }

    /** Runs one node of the graph on the shared state. */
    method RunNode(node: Node, state: AgentState)
      requires node != End
      modifies state
      ensures state.Snapshot() == Step(node, old(state.Snapshot()), env)
    {
      match node {
        case AnalyzeIntentNode => AnalyzeIntent(state);
        case SearchImageNode => SearchImage(state);
        case GenerateImageNode => GenerateImage(state);
        case NormalChatNode => NormalChat(state);
        case FormatResponseNode => FormatResponse(state);
      }
    }

    /** `run`: build the initial state and walk the graph from
        `analyze_intent` to END, one node at a time. */
    method Run(userInput: string, history: seq<Message>) returns (result: TurnResult, ghost trace: seq<Node>)
      ensures result == ResultOf(Execute(AnalyzeIntentNode, InitialState(userInput, history), env))
      ensures trace == Visited(AnalyzeIntentNode, InitialState(userInput, history), env)
    {
      var state := new AgentState(userInput, history);
      ghost var start := state.Snapshot();
      var node := AnalyzeIntentNode;
      trace := [];
      while node != End
        invariant Execute(node, state.Snapshot(), env) == Execute(AnalyzeIntentNode, start, env)
        invariant trace + Visited(node, state.Snapshot(), env) == Visited(AnalyzeIntentNode, start, env)
        decreases Rank(node)
      {
        ghost var before := state.Snapshot();
        StepUnfolds(node, before, env, trace, Execute(AnalyzeIntentNode, start, env), Visited(AnalyzeIntentNode, start, env));
        RunNode(node, state);
        trace := trace + [node];
        node := Successor(node, state.needImage);
      }
      result := ResultOf(state.Snapshot());
    }
  }
}
