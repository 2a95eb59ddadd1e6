/** The list transformations behind the template registry in App.tsx: write-back of a
    world into its template, deletion, the resume-or-generate decision, the construction of
    a freshly generated world and of an uploaded template. Each is a pure function of the
    list it is given; App.tsx assigns and persists the result. */
module Registry {
  import opened Types
  import opened Text
  import opened Gemini

  /** The auto-save write-back: every template whose id is the world's id gets the world
      as its saved state; every other template, and every other field, is kept. */
  function SaveStateInto(templates: seq<WorldTemplate>, world: WorldState): (r: seq<WorldTemplate>)
    ensures |r| == |templates|
    ensures forall i :: 0 <= i < |templates| && templates[i].id == world.id ==>
              r[i] == templates[i].(savedState := Some(world))
    ensures forall i :: 0 <= i < |templates| && templates[i].id != world.id ==> r[i] == templates[i]
  {
    if templates == [] then []
    else
      var w := templates[0];
      [if w.id == world.id then w.(savedState := Some(world)) else w] + SaveStateInto(templates[1..], world)
  }

  /** With no template carrying the world's id, the write-back returns the list unchanged. */
  lemma SaveWithoutMatchIsIdentity(templates: seq<WorldTemplate>, world: WorldState)
    requires forall i :: 0 <= i < |templates| ==> templates[i].id != world.id
    ensures SaveStateInto(templates, world) == templates
  {
  }

  /** A later write-back of the same world id overrides an earlier one completely. */
  lemma {:induction false} SaveOverridesSave(templates: seq<WorldTemplate>, w1: WorldState, w2: WorldState)
    requires w1.id == w2.id
    ensures SaveStateInto(SaveStateInto(templates, w1), w2) == SaveStateInto(templates, w2)
  {
    if templates != [] {
      SaveOverridesSave(templates[1..], w1, w2);
    }
  }

  /** Deletion: drops exactly the templates carrying `id`. */
  function RemoveById(templates: seq<WorldTemplate>, id: string): (r: seq<WorldTemplate>)
    ensures |r| <= |templates|
    ensures forall t :: t in r <==> t in templates && t.id != id
  {
    if templates == [] then []
    else if templates[0].id == id then RemoveById(templates[1..], id)
    else [templates[0]] + RemoveById(templates[1..], id)
  }

  /** Removal works entry by entry, so the kept entries stay in their order. */
  lemma {:induction false} RemoveDistributes(a: seq<WorldTemplate>, b: seq<WorldTemplate>, id: string)
    ensures RemoveById(a + b, id) == RemoveById(a, id) + RemoveById(b, id)
  {
    if a == [] {
      assert a + b == b;
    } else {
      assert (a + b)[1..] == a[1..] + b;
      RemoveDistributes(a[1..], b, id);
    }
  }

  /** Removing an id no entry carries is a no-op. */
  lemma {:induction false} RemoveAbsentIsIdentity(templates: seq<WorldTemplate>, id: string)
    requires forall i :: 0 <= i < |templates| ==> templates[i].id != id
    ensures RemoveById(templates, id) == templates
  {
    if templates != [] {
      RemoveAbsentIsIdentity(templates[1..], id);
    }
  }

  /** Deleting twice is the same as deleting once. */
  lemma RemoveIsIdempotent(templates: seq<WorldTemplate>, id: string)
    ensures RemoveById(RemoveById(templates, id), id) == RemoveById(templates, id)
  {
    var r := RemoveById(templates, id);
    forall i | 0 <= i < |r| ensures r[i].id != id {
      assert r[i] in r;
    }
    RemoveAbsentIsIdentity(r, id);
  }

  /** Deleting an id after writing a world back under it gives the same list as deleting
      it right away: the write-back leaves no other trace. */
  lemma {:induction false} RemoveAfterSave(templates: seq<WorldTemplate>, world: WorldState)
    ensures RemoveById(SaveStateInto(templates, world), world.id) == RemoveById(templates, world.id)
  {
    if templates != [] {
      RemoveAfterSave(templates[1..], world);
    }
  }

  /** How `enterWorld` opens a template. */
  datatype Entry = Resume(state: WorldState) | Generate

  /** A custom template that carries a saved state is resumed verbatim; any other template
      (a preset, or a custom one not yet generated) is generated afresh. */
  function ChooseEntry(template: WorldTemplate): (r: Entry)
    ensures r.Resume? <==> IsCustomTemplate(template) && template.savedState.Some?
    ensures r.Resume? ==> r.state == template.savedState.value
  {
    if IsCustomTemplate(template) && template.savedState.Some? then Resume(template.savedState.value) else Generate
  }

  /** A custom world written back into its template is exactly what entering that template resumes. */
  lemma ResumeAfterSave(templates: seq<WorldTemplate>, world: WorldState, i: nat)
    requires i < |templates| && templates[i].id == world.id && IsCustomTemplate(templates[i])
    ensures ChooseEntry(SaveStateInto(templates, world)[i]) == Resume(world)
  {
  }

  function PresetInstanceId(now: nat): string {
    "preset-instance-" + NatToString(now)
  }

  function CustomId(now: nat): string {
    "custom-" + NatToString(now)
  }

  /** Instance ids minted at different times differ, and never collide with an upload's id. */
  lemma MintedIdsDiffer(a: nat, b: nat)
    ensures a != b ==> PresetInstanceId(a) != PresetInstanceId(b) && CustomId(a) != CustomId(b)
    ensures PresetInstanceId(a) != CustomId(b)
  {
    if a != b && PresetInstanceId(a) == PresetInstanceId(b) {
      SamePrefixSameRest("preset-instance-", NatToString(a), NatToString(b));
      NatToStringInjective(a, b);
    }
    if a != b && CustomId(a) == CustomId(b) {
      SamePrefixSameRest("custom-", NatToString(a), NatToString(b));
      NatToStringInjective(a, b);
    }
    assert PresetInstanceId(a)[0] != CustomId(b)[0];
  }

  /** The world built from a successful generation when a template is entered afresh. */
  function FreshWorld(template: WorldTemplate, g: GeneratedWorld, now: nat): (w: WorldState)
    ensures w.id == if IsCustomTemplate(template) then template.id else PresetInstanceId(now)
    ensures w.name == OrDefault(g.name, template.name) && w.imageUrl == template.imageUrl
    ensures w.chatHistory == [Message(Model, OrDefault(g.openingNarrative, "You arrive..."), now,
                                      Some(g.initialChoices.GetOr([])), None)]
    ensures w.plotTree == g.plotTree
    ensures w.isCustom == IsCustomTemplate(template)
    ensures w.lastActive.None? && w.visualStyle.None?
  {
    WorldState(
      if IsCustomTemplate(template) then template.id else PresetInstanceId(now),
      OrDefault(g.name, template.name),
      template.imageUrl,
      OrDefault(g.era, "Unknown Era"),
      OrDefault(g.mood, "Mysterious"),
      g.identity,
      g.companion,
      [Message(Model, OrDefault(g.openingNarrative, "You arrive..."), now, Some(g.initialChoices.GetOr([])), None)],
      g.plotTree,
      IsCustomTemplate(template),
      None,
      None)
  }

  /** A fresh world starts with one model message and, for a custom template, joins it by id. */
  lemma FreshWorldStartsConversation(template: WorldTemplate, g: GeneratedWorld, now: nat)
    ensures var w := FreshWorld(template, g, now);
      && |w.chatHistory| == 1 && w.chatHistory[0].role == Model
      && (g.openingNarrative.None? ==> w.chatHistory[0].content == "You arrive...")
      && (IsCustomTemplate(template) ==> w.id == template.id)
  {
  }

  /** The first save of a freshly generated custom world: the template with that id takes
      the world as its saved state and the world's name as its own. */
  function SaveFreshInto(templates: seq<WorldTemplate>, id: string, world: WorldState): (r: seq<WorldTemplate>)
    ensures |r| == |templates|
    ensures forall i :: 0 <= i < |templates| && templates[i].id == id ==>
              r[i] == templates[i].(savedState := Some(world), name := world.name)
    ensures forall i :: 0 <= i < |templates| && templates[i].id != id ==> r[i] == templates[i]
  {
    if templates == [] then []
    else
      var w := templates[0];
      [if w.id == id then w.(savedState := Some(world), name := world.name) else w] + SaveFreshInto(templates[1..], id, world)
  }

  /** A template literal's rendering of an optional field: a missing one prints "undefined". */
  function Interpolate(s: Option<string>): string {
    match s
    case Some(v) => v
    case None => "undefined"
  }

  /** The world an upload creates. */
  function UploadedWorld(dataUrl: string, g: GeneratedWorld, now: nat): (w: WorldState)
    ensures w.id == CustomId(now) && w.isCustom && w.imageUrl == dataUrl
    ensures w.name == OrDefault(g.name, "New Realm")
    ensures w.chatHistory == [Message(Model, OrDefault(g.openingNarrative, "You step into the frame..."), now,
                                      Some(g.initialChoices.GetOr([])), None)]
    ensures w.plotTree == g.plotTree
  {
    WorldState(
      CustomId(now),
      OrDefault(g.name, "New Realm"),
      dataUrl,
      OrDefault(g.era, "Unknown"),
      OrDefault(g.mood, "Unknown"),
      g.identity,
      g.companion,
      [Message(Model, OrDefault(g.openingNarrative, "You step into the frame..."), now, Some(g.initialChoices.GetOr([])), None)],
      g.plotTree,
      true,
      None,
      None)
  }

  /** The template an upload creates: it shares the world's id and embeds the world. */
  function UploadedTemplate(dataUrl: string, g: GeneratedWorld, now: nat): (t: WorldTemplate)
    ensures t.id == UploadedWorld(dataUrl, g, now).id == CustomId(now)
    ensures IsCustomTemplate(t) && t.savedState == Some(UploadedWorld(dataUrl, g, now))
    ensures t.name == UploadedWorld(dataUrl, g, now).name && t.imageUrl == dataUrl
    ensures t.shortDesc == "A captured memory from " + Interpolate(g.era) + "."
  {
    WorldTemplate(CustomId(now), dataUrl, OrDefault(g.name, "New Realm"),
                  "A captured memory from " + Interpolate(g.era) + ".", Some(true), Some(UploadedWorld(dataUrl, g, now)))
  }

  /** An uploaded template is resumed, not regenerated, the next time it is entered. */
  lemma UploadIsResumable(dataUrl: string, g: GeneratedWorld, now: nat)
    ensures ChooseEntry(UploadedTemplate(dataUrl, g, now)) == Resume(UploadedWorld(dataUrl, g, now))
  {
  }

  /** The preset templates (constants.ts): never custom and never carrying a saved state. */
  const PresetWorlds: seq<WorldTemplate> := [
    WorldTemplate("shard-01",
      "https://image.pollinations.ai/prompt/Luminous%20solarpunk%20floating%20city%20clouds%20wind%20warm%20sunlight%20ghibli%20style%20painting%20beautiful%20anime%20scenery?width=1080&height=1920&nologo=true",
      "Wind City, 1881", "A civilization drifting in the jet streams, where gravity is a choice.", Some(false), None),
    WorldTemplate("shard-02",
      "https://image.pollinations.ai/prompt/Magical%20bamboo%20forest%20glowing%20spirits%20teal%20and%20purple%20mist%20ancient%20ruins%20disney%20fantasy%20concept%20art?width=1080&height=1920&nologo=true",
      "The Whispering Bamboo", "A forest where memories grow as glowing moss on ancient stones.", Some(false), None),
    WorldTemplate("shard-03",
      "https://image.pollinations.ai/prompt/Cyberpunk%20market%20stall%20cozy%20warm%20lights%20raining%20night%20reflection%20lofi%20aesthetic%20anime%20style%20detailed?width=1080&height=1920&nologo=true",
      "Neon-Rain Tavern", "A place out of time, where lost souls meet for warm cider.", Some(false), None),
    WorldTemplate("shard-04",
      "https://image.pollinations.ai/prompt/Desert%20oasis%20crystal%20water%20giant%20moons%20stars%20galaxy%20sky%20romantic%20fantasy%20art%20vibrant%20colors?width=1080&height=1920&nologo=true",
      "The Star-Mirror Lake", "The reflection shows not your face, but your true desire.", Some(false), None)
  ]

  /** Every preset is generated afresh on every visit. */
  lemma PresetsAlwaysGenerate(i: nat)
    requires i < |PresetWorlds|
    ensures ChooseEntry(PresetWorlds[i]) == Generate
  {
  }
}
