/** The deterministic part of services/geminiService.ts: what is made of a world-generation
    reply and of a chat-turn reply, the summaries sent with a turn, and the image prompt.
    The generative service itself is an input: a reply is either a transport failure or a
    response text together with its parsed JSON (`None` when `JSON.parse` fails). */
module Gemini {
  import opened Types
  import opened Text
  import opened PlotTree

  datatype Language = En | Zh

  datatype ServiceReply<J> = TransportFailure | Replied(text: string, json: Option<J>)

  datatype GenerationError = NoResponse | MalformedJson | Transport

  /** The fields of a parsed world-generation reply; each may be missing. */
  datatype WorldJson = WorldJson(
    name: Option<string>,
    era: Option<string>,
    mood: Option<string>,
    visualStyle: Option<string>,
    identity: Identity,
    companion: Option<Companion>,
    openingNarrative: Option<string>,
    initialChoices: Option<seq<NarrativeChoice>>,
    choices: Option<seq<NarrativeChoice>>,
    plotTree: Option<seq<StoryNode>>)

  /** What `generateWorldFromImage` resolves to. */
  datatype GeneratedWorld = GeneratedWorld(
    name: Option<string>,
    era: Option<string>,
    mood: Option<string>,
    visualStyle: string,
    identity: Identity,
    companion: Option<Companion>,
    openingNarrative: Option<string>,
    initialChoices: Option<seq<NarrativeChoice>>,
    plotTree: seq<StoryNode>)

  /** The fields of a parsed chat-turn reply. */
  datatype TurnJson = TurnJson(content: string, choices: Option<seq<NarrativeChoice>>, plotUpdates: Option<PlotUpdates>)

  /** What `sendChatMessage` resolves to. */
  datatype TurnResult = TurnResult(message: Message, updatedPlotTree: Option<seq<StoryNode>>)

  const AestheticStyle: string :=
    "New Chinese style digital illustration, Guofeng, ethereal and dreamy atmosphere, semi-impasto style with watercolor textures, delicate brushstrokes. Lighting & Color: Soft cinematic lighting, volumetric lighting (sun rays), dappled light (komorebi), light and airy composition, muted pastel color palette, elegant aesthetic, high definition, 8k resolution, anime-influenced semi-realism."

  const MaxPromptLength: nat := 1500

  function ScenePrompt(sceneDescription: string, visualStyle: string): string {
    "Scene Description: " + sceneDescription + ". \n\nWorld Context: " + visualStyle
      + ". \n\nArt Style & Aesthetic: " + AestheticStyle
  }

  /** The prompt sent to the image models: the scene prompt cut to its first 1500 characters. */
  function SafePrompt(sceneDescription: string, visualStyle: string): (r: string)
    ensures |r| <= MaxPromptLength && |r| <= |ScenePrompt(sceneDescription, visualStyle)|
    ensures r == ScenePrompt(sceneDescription, visualStyle)[..|r|]
    ensures |ScenePrompt(sceneDescription, visualStyle)| <= MaxPromptLength ==> r == ScenePrompt(sceneDescription, visualStyle)
    ensures |ScenePrompt(sceneDescription, visualStyle)| > MaxPromptLength ==> |r| == MaxPromptLength
  {
    Prefix(ScenePrompt(sceneDescription, visualStyle), MaxPromptLength)
  }

  /** The profile text injected into the world-generation prompt. */
  function ProfileText(profile: Option<UserProfile>): (r: string)
    ensures profile.None? ==> r == "Generic Traveler"
    ensures profile.Some? ==> r == "Name: " + profile.value.name + ", Analysis: " + profile.value.description
  {
    match profile
    case None => "Generic Traveler"
    case Some(p) => "Name: " + p.name + ", Analysis: " + p.description
  }

  /** Normalises a world-generation reply; an empty text, an unparseable text or a failed
      request is an error, and missing fields take their defaults. */
  function GenerateWorld(reply: ServiceReply<WorldJson>): (r: Result<GeneratedWorld, GenerationError>)
    ensures reply.TransportFailure? ==> r == Failure(Transport)
    ensures reply.Replied? && reply.text == "" ==> r == Failure(NoResponse)
    ensures reply.Replied? && reply.text != "" && reply.json.None? ==> r == Failure(MalformedJson)
    ensures r.Success? <==> reply.Replied? && reply.text != "" && reply.json.Some?
    ensures r.Success? ==> WorldDefaults(reply.json.value, r.value)
  {
    match reply
    case TransportFailure => Failure(Transport)
    case Replied(text, json) =>
      if text == "" then Failure(NoResponse)
      else if json.None? then Failure(MalformedJson)
      else
        var data := json.value;
        Success(GeneratedWorld(
          data.name, data.era, data.mood,
          OrDefault(data.visualStyle, "Fantasy art"),
          data.identity, data.companion, data.openingNarrative,
          if data.initialChoices.Some? then data.initialChoices else data.choices,
          data.plotTree.GetOr([])))
  }

  /** The defaulting rules: the style falls back to "Fantasy art", the initial choices to
      `choices`, the plot tree to the empty list; everything else is passed through. */
  ghost predicate WorldDefaults(data: WorldJson, g: GeneratedWorld) {
    && g.name == data.name && g.era == data.era && g.mood == data.mood
    && g.identity == data.identity && g.companion == data.companion
    && g.openingNarrative == data.openingNarrative
    && (g.visualStyle == "Fantasy art" || (data.visualStyle == Some(g.visualStyle) && g.visualStyle != ""))
    && (data.visualStyle.Some? && data.visualStyle.value != "" ==> g.visualStyle == data.visualStyle.value)
    && (data.initialChoices.Some? ==> g.initialChoices == data.initialChoices)
    && (data.initialChoices.None? ==> g.initialChoices == data.choices)
    && (data.plotTree.Some? ==> g.plotTree == data.plotTree.value)
    && (data.plotTree.None? ==> g.plotTree == [])
  }

  function RoleLabel(role: Role): string {
    match role
    case User => "User"
    case Model => "Atlas Keeper"
  }

  function HistoryEntry(m: Message): string {
    RoleLabel(m.role) + ": " + m.content
  }

  function HistoryEntries(history: seq<Message>): (r: seq<string>)
    ensures |r| == |history|
    ensures forall i :: 0 <= i < |history| ==> r[i] == HistoryEntry(history[i])
  {
    seq(|history|, i requires 0 <= i < |history| => HistoryEntry(history[i]))
  }

  /** The history sent with a turn: one labelled entry per message, blank lines between. */
  function MemoryContext(history: seq<Message>): string {
    Join(HistoryEntries(history), "\n\n")
  }

  function StatusName(s: NodeStatus): string {
    match s
    case Locked => "locked"
    case Active => "active"
    case Completed => "completed"
  }

  function StatusLine(node: StoryNode): string {
    "- [" + ToUpper(StatusName(node.status)) + "] " + node.title + ": " + node.description
  }

  /** The upper-cased status names that appear in the plot summary. */
  lemma StatusLabels()
    ensures ToUpper(StatusName(Locked)) == "LOCKED"
    ensures ToUpper(StatusName(Active)) == "ACTIVE"
    ensures ToUpper(StatusName(Completed)) == "COMPLETED"
  {
    UpperOf("locked", "LOCKED");
    UpperOf("active", "ACTIVE");
    UpperOf("completed", "COMPLETED");
  }

  function StatusLines(tree: seq<StoryNode>): (r: seq<string>)
    ensures |r| == |tree|
    ensures forall i :: 0 <= i < |tree| ==> r[i] == StatusLine(tree[i])
  {
    seq(|tree|, i requires 0 <= i < |tree| => StatusLine(tree[i]))
  }

  /** The plot summary sent with a turn: one line per node, in tree order. */
  function PlotStatus(tree: seq<StoryNode>): string {
    Join(StatusLines(tree), "\n")
  }

  /** Adding a node to the tree adds its line at the end of the summary. */
  lemma PlotStatusSnoc(tree: seq<StoryNode>, node: StoryNode)
    requires |tree| > 0
    ensures PlotStatus(tree + [node]) == PlotStatus(tree) + "\n" + StatusLine(node)
  {
    assert StatusLines(tree + [node]) == StatusLines(tree) + [StatusLine(node)];
    JoinSnoc(StatusLines(tree), StatusLine(node), "\n");
  }

  /** Adding a message to the history adds its labelled entry at the end of the summary. */
  lemma MemoryContextSnoc(history: seq<Message>, m: Message)
    requires |history| > 0
    ensures MemoryContext(history + [m]) == MemoryContext(history) + "\n\n" + HistoryEntry(m)
  {
    assert HistoryEntries(history + [m]) == HistoryEntries(history) + [HistoryEntry(m)];
    JoinSnoc(HistoryEntries(history), HistoryEntry(m), "\n\n");
  }

  const FallbackTextZh: string := "多重宇宙的迷雾遮蔽了我的视线... (连接错误，请重试)"
  const FallbackTextEn: string := "The mists of the multiverse obscure my vision... (Connection error, please try again)"

  function FallbackText(lang: Language): string {
    if lang == Zh then FallbackTextZh else FallbackTextEn
  }

  function FallbackChoiceText(lang: Language): string {
    if lang == Zh then "重试" else "Try again"
  }

  /** The out-of-character reply that replaces any failed turn. */
  function Fallback(lang: Language, now: int): (r: TurnResult)
    ensures r.message.role == Model && r.message.timestamp == now && r.message.imageUrl.None?
    ensures r.message.content == FallbackText(lang)
    ensures r.message.choices.Some? && |r.message.choices.value| == 1
    ensures r.message.choices.value[0].id == "retry" && r.message.choices.value[0].intent == Resolve
    ensures r.updatedPlotTree.None?
  {
    TurnResult(
      Message(Model, FallbackText(lang), now, Some([NarrativeChoice("retry", FallbackChoiceText(lang), Resolve)]), None),
      None)
  }

  /** One chat turn: a usable reply becomes a model message (and, when it carries plot
      updates, the updated tree); an empty text, a parse error or a transport failure
      becomes the fallback. No reply raises. */
  function SendChatMessage(world: WorldState, lang: Language, reply: ServiceReply<TurnJson>, now: int): (r: TurnResult)
    ensures r.message.role == Model && r.message.timestamp == now
    ensures !Usable(reply) ==> r == Fallback(lang, now)
    ensures Usable(reply) ==> var p := reply.json.value;
      && r.message == Message(Model, p.content, now, p.choices, None)
      && (p.plotUpdates.None? ==> r.updatedPlotTree.None?)
      && (p.plotUpdates.Some? ==> r.updatedPlotTree == Some(ApplyPlotUpdates(world.plotTree, p.plotUpdates.value)))
  {
    match reply
    case TransportFailure => Fallback(lang, now)
    case Replied(text, json) =>
      if text == "" || json.None? then Fallback(lang, now)
      else
        var parsed := json.value;
        var newPlotTree := if parsed.plotUpdates.Some? then Some(ApplyPlotUpdates(world.plotTree, parsed.plotUpdates.value)) else None;
        TurnResult(Message(Model, parsed.content, now, parsed.choices, None), newPlotTree)
  }

  predicate Usable<J>(reply: ServiceReply<J>) {
    reply.Replied? && reply.text != "" && reply.json.Some?
  }

  /** A returned plot tree always has the shape of the world's tree: same length, same
      nodes in the same order, only statuses differ. */
  lemma TurnKeepsTreeShape(world: WorldState, lang: Language, reply: ServiceReply<TurnJson>, now: int)
    ensures var r := SendChatMessage(world, lang, reply, now);
      r.updatedPlotTree.Some? ==>
        && |r.updatedPlotTree.value| == |world.plotTree|
        && forall i :: 0 <= i < |world.plotTree| ==>
             r.updatedPlotTree.value[i] == world.plotTree[i].(status := r.updatedPlotTree.value[i].status)
  {
  }
}
