/** The records of the interactive-story app (types.ts), as Dafny values.
    Optional (`?`) and nullable (`| null`) fields become `Option`. */
module Types {

  datatype Option<+T> = None | Some(value: T) {
    function GetOr(default: T): T {
      match this
      case Some(v) => v
      case None => default
    }
  }

  datatype Result<+T, +E> = Success(value: T) | Failure(error: E)

  datatype Identity = Identity(title: string, role: string, ability: string, weakness: string, outfit: string)

  datatype Companion = Companion(name: string, relationship: string, roleInWorld: string, description: string)

  datatype Intent = Explore | Connect | Remember | Resolve | Fate

  datatype NarrativeChoice = NarrativeChoice(id: string, text: string, intent: Intent)

  datatype Role = User | Model

  datatype Message = Message(
    role: Role,
    content: string,
    timestamp: int,
    choices: Option<seq<NarrativeChoice>>,
    imageUrl: Option<string>)

  datatype NodeStatus = Locked | Active | Completed

  datatype NodeType = Arrival | Encounter | Conflict | Revelation | Ending

  datatype StoryNode = StoryNode(id: string, title: string, description: string, status: NodeStatus, kind: NodeType)

  datatype WorldState = WorldState(
    id: string,
    name: string,
    imageUrl: string,
    era: string,
    mood: string,
    identity: Identity,
    companion: Option<Companion>,
    chatHistory: seq<Message>,
    plotTree: seq<StoryNode>,
    isCustom: bool,
    lastActive: Option<int>,
    visualStyle: Option<string>)

  datatype WorldTemplate = WorldTemplate(
    id: string,
    imageUrl: string,
    name: string,
    shortDesc: string,
    isCustom: Option<bool>,
    savedState: Option<WorldState>)

  datatype UserProfile = UserProfile(name: string, description: string)

  /** `template.isCustom`, where an absent flag reads as false. */
  predicate IsCustomTemplate(t: WorldTemplate) {
    t.isCustom == Some(true)
  }

  /** JavaScript's `s || d` on an optional string: an absent or empty string gives `d`. */
  function OrDefault(s: Option<string>, d: string): (r: string)
    ensures r == d || (s.Some? && r == s.value && r != "")
    ensures s.Some? && s.value != "" ==> r == s.value
    ensures (s.None? || s.value == "") ==> r == d
  {
    if s.Some? && s.value != "" then s.value else d
  }
}
