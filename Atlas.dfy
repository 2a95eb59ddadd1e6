/** The `App` component (App.tsx): the atlas screen's state, the persisted store and the
    handlers that change them. Each asynchronous handler is split at its `await` on the
    generation service: the first half raises the busy flag and records what the rest of
    the handler will need (`pending`), the second half receives the service's outcome. */
module Atlas {
  import opened Types
  import opened Gemini
  import opened Registry

  datatype Screen = ShowAtlas | ShowWorld

  /** A record of the local store as read at start-up: missing, present but unparseable,
      or parsed. */
  datatype Stored<T> = Absent | Unparseable | Parsed(value: T)

  /** The generation the app is waiting for, with the template list the handler saw when
      it started (its closure), which is the list it writes back. */
  datatype Pending =
    | Idle
    | Entering(template: WorldTemplate, snapshot: seq<WorldTemplate>)
    | Uploading(dataUrl: string, snapshot: seq<WorldTemplate>)

  /** What start-up takes from a stored record: its parsed value, or the default. */
  function LoadOr<T>(record: Stored<T>, default: T): (v: T)
    ensures record.Parsed? ==> v == record.value
    ensures !record.Parsed? ==> v == default
  {
    if record.Parsed? then record.value else default
  }

  /** What the auto-save leaves behind for world `w`: a custom world is written back into
      the template list and the store holds the whole new list; a preset world leaves
      the list and the store as they were. */
  predicate AutoSaved(w: WorldState, before: seq<WorldTemplate>, storedBefore: Stored<seq<WorldTemplate>>,
                      after: seq<WorldTemplate>, stored: Stored<seq<WorldTemplate>>)
  {
    if w.isCustom then after == SaveStateInto(before, w) && stored == Parsed(after)
    else after == before && stored == storedBefore
  }

  class App {
    var view: Screen
    var currentWorld: Option<WorldState>
    var isGenerating: bool
    var userProfile: Option<UserProfile>
    var customWorlds: seq<WorldTemplate>
    /** The store's "cross_realm_archives" record. */
    var archivesRecord: Stored<seq<WorldTemplate>>
    /** The store's "cross_realm_profile" record. */
    var profileRecord: Stored<UserProfile>
    var pending: Pending

    ghost predicate Valid()
      reads this
    {
      isGenerating <==> !pending.Idle?
    }

    /** Mounts the app on the given store. The state starts from its defaults (the atlas,
        no world, idle, no templates, no profile); the store is read only afterwards, by
        `LoadStore`. */
    constructor (savedWorlds: Stored<seq<WorldTemplate>>, savedProfile: Stored<UserProfile>)
      ensures Valid()
      ensures view == ShowAtlas && currentWorld.None? && !isGenerating
      ensures customWorlds == [] && userProfile.None?
      ensures archivesRecord == savedWorlds && profileRecord == savedProfile
    {
      view := ShowAtlas;
      currentWorld := None;
      isGenerating := false;
      pending := Idle;
      archivesRecord := savedWorlds;
      profileRecord := savedProfile;
      customWorlds := [];
      userProfile := None;
    }

    /** The load effect that runs after the first render: a stored record that parses
        replaces the default, a missing or unparseable one leaves it in place. */
    method LoadStore()
      modifies this`customWorlds, this`userProfile
      ensures archivesRecord.Parsed? ==> customWorlds == archivesRecord.value
      ensures !archivesRecord.Parsed? ==> customWorlds == old(customWorlds)
      ensures profileRecord.Parsed? ==> userProfile == Some(profileRecord.value)
      ensures !profileRecord.Parsed? ==> userProfile == old(userProfile)
    {
      customWorlds := LoadOr(archivesRecord, customWorlds);
      if profileRecord.Parsed? {
        userProfile := Some(profileRecord.value);
      }
    }

    /** Keeps the profile verbatim, in memory and in the store. */
    method HandleSaveProfile(profile: UserProfile)
      modifies this`userProfile, this`profileRecord
      ensures userProfile == Some(profile) && profileRecord == Parsed(profile)
    {
      userProfile := Some(profile);
      profileRecord := Parsed(profile);
    }

    /** Replaces the template list and overwrites the stored copy with the whole of it. */
    method PersistCustomWorlds(worlds: seq<WorldTemplate>)
      modifies this`customWorlds, this`archivesRecord
      ensures customWorlds == worlds && archivesRecord == Parsed(worlds)
    {
      customWorlds := worlds;
      archivesRecord := Parsed(worlds);
    }

    /** Forgets a custom world. */
    method DeleteCustomWorld(id: string)
      modifies this`customWorlds, this`archivesRecord
      ensures customWorlds == RemoveById(old(customWorlds), id) && archivesRecord == Parsed(customWorlds)
    {
      PersistCustomWorlds(RemoveById(customWorlds, id));
    }

    /** The auto-save: shows the world and, for a custom world only, writes it back into its
        template and persists the list. */
    method HandleWorldUpdate(updated: WorldState)
      modifies this`currentWorld, this`customWorlds, this`archivesRecord
      ensures currentWorld == Some(updated)
      ensures AutoSaved(updated, old(customWorlds), old(archivesRecord), customWorlds, archivesRecord)
    {
      currentWorld := Some(updated);
      if updated.isCustom {
        PersistCustomWorlds(SaveStateInto(customWorlds, updated));
      }
    }

    /** The auto-save as an earlier render of the app created it, when the template list
        was `seen`: a callback kept across an `await` still maps over that list, so a
        custom world is written back into `seen` rather than into the current list. */
    method HandleStaleWorldUpdate(seen: seq<WorldTemplate>, updated: WorldState)
      modifies this`currentWorld, this`customWorlds, this`archivesRecord
      ensures currentWorld == Some(updated)
      ensures updated.isCustom ==> customWorlds == SaveStateInto(seen, updated) && archivesRecord == Parsed(customWorlds)
      ensures !updated.isCustom ==> customWorlds == old(customWorlds) && archivesRecord == old(archivesRecord)
    {
      currentWorld := Some(updated);
      if updated.isCustom {
        PersistCustomWorlds(SaveStateInto(seen, updated));
      }
    }

    /** Leaves the world screen for the atlas. */
    method Back()
      modifies this`view
      ensures view == ShowAtlas
    {
      view := ShowAtlas;
    }

    /** Selecting a template. Ignored while a generation is running. A custom template with a
        saved state opens it at once; any other starts a generation (`started`). */
    method EnterWorld(template: WorldTemplate) returns (started: bool)
      requires Valid()
      modifies this`currentWorld, this`view, this`isGenerating, this`pending
      ensures Valid()
      ensures old(isGenerating) ==> !started && unchanged(this)
      ensures !old(isGenerating) && ChooseEntry(template).Resume? ==>
                !started && currentWorld == template.savedState && view == ShowWorld
                && isGenerating == old(isGenerating) && pending == old(pending)
      ensures !old(isGenerating) && ChooseEntry(template).Generate? ==>
                started && isGenerating && pending == Entering(template, customWorlds)
                && currentWorld == old(currentWorld) && view == old(view)
    {
      if isGenerating {
        return false;
      }
      match ChooseEntry(template) {
        case Resume(state) =>
          currentWorld := Some(state);
          view := ShowWorld;
          started := false;
        case Generate =>
          isGenerating := true;
          pending := Entering(template, customWorlds);
          started := true;
      }
    }

    /** A file chosen in the upload portal, read as `dataUrl`. Ignored while a generation is
        running (the portal's input is disabled); otherwise starts a generation. */
    method HandleUpload(dataUrl: string) returns (started: bool)
      requires Valid()
      modifies this`isGenerating, this`pending
      ensures Valid()
      ensures started == !old(isGenerating)
      ensures started ==> isGenerating && pending == Uploading(dataUrl, customWorlds)
      ensures !started ==> unchanged(this)
    {
      if isGenerating {
        return false;
      }
      isGenerating := true;
      pending := Uploading(dataUrl, customWorlds);
      started := true;
    }

    /** The generation the app was waiting for has finished with `outcome` at time `now`.
        Success opens the new world, and for a custom template or an upload stores it in the
        template list the handler started from; failure changes nothing but the busy flag.
        Either way the busy flag is cleared. */
    method FinishGeneration(outcome: Result<GeneratedWorld, GenerationError>, now: nat)
      requires Valid() && isGenerating
      modifies this`customWorlds, this`archivesRecord, this`currentWorld, this`view, this`isGenerating, this`pending
      ensures Valid() && !isGenerating
      ensures outcome.Failure? ==>
                customWorlds == old(customWorlds) && archivesRecord == old(archivesRecord)
                && currentWorld == old(currentWorld) && view == old(view)
      ensures outcome.Success? && old(pending).Entering? ==>
                var t := old(pending).template;
                var w := FreshWorld(t, outcome.value, now);
                && currentWorld == Some(w) && view == ShowWorld
                && (IsCustomTemplate(t) ==> customWorlds == SaveFreshInto(old(pending).snapshot, t.id, w)
                                            && archivesRecord == Parsed(customWorlds))
                && (!IsCustomTemplate(t) ==> customWorlds == old(customWorlds) && archivesRecord == old(archivesRecord))
      ensures outcome.Success? && old(pending).Uploading? ==>
                var url := old(pending).dataUrl;
                && currentWorld == Some(UploadedWorld(url, outcome.value, now)) && view == ShowWorld
                && customWorlds == [UploadedTemplate(url, outcome.value, now)] + old(pending).snapshot
                && archivesRecord == Parsed(customWorlds)
    {
      if outcome.Success? {
        match pending {
          case Entering(t, snapshot) =>
            var w := FreshWorld(t, outcome.value, now);
            if IsCustomTemplate(t) {
              PersistCustomWorlds(SaveFreshInto(snapshot, t.id, w));
            }
            currentWorld := Some(w);
            view := ShowWorld;
          case Uploading(url, snapshot) =>
            var w := UploadedWorld(url, outcome.value, now);
            PersistCustomWorlds([UploadedTemplate(url, outcome.value, now)] + snapshot);
            currentWorld := Some(w);
            view := ShowWorld;
        }
      }
      isGenerating := false;
      pending := Idle;
    }

    /** `FinishGeneration` with the stored world written into the template list as it stands
        when the generation ends, rather than the list the handler started from, so that a
        change made to the list in between (a turn's auto-save, say) is kept. */
    method FinishGenerationIntoCurrent(outcome: Result<GeneratedWorld, GenerationError>, now: nat)
      requires Valid() && isGenerating
      modifies this`customWorlds, this`archivesRecord, this`currentWorld, this`view, this`isGenerating, this`pending
      ensures Valid() && !isGenerating
      ensures outcome.Failure? ==>
                customWorlds == old(customWorlds) && archivesRecord == old(archivesRecord)
                && currentWorld == old(currentWorld) && view == old(view)
      ensures outcome.Success? && old(pending).Entering? ==>
                var t := old(pending).template;
                var w := FreshWorld(t, outcome.value, now);
                && currentWorld == Some(w) && view == ShowWorld
                && (IsCustomTemplate(t) ==> customWorlds == SaveFreshInto(old(customWorlds), t.id, w)
                                            && archivesRecord == Parsed(customWorlds))
                && (!IsCustomTemplate(t) ==> customWorlds == old(customWorlds) && archivesRecord == old(archivesRecord))
      ensures outcome.Success? && old(pending).Uploading? ==>
                var url := old(pending).dataUrl;
                && currentWorld == Some(UploadedWorld(url, outcome.value, now)) && view == ShowWorld
                && customWorlds == [UploadedTemplate(url, outcome.value, now)] + old(customWorlds)
                && archivesRecord == Parsed(customWorlds)
    {
      if outcome.Success? {
        match pending {
          case Entering(t, _) =>
            var w := FreshWorld(t, outcome.value, now);
            if IsCustomTemplate(t) {
              PersistCustomWorlds(SaveFreshInto(customWorlds, t.id, w));
            }
            currentWorld := Some(w);
            view := ShowWorld;
          case Uploading(url, _) =>
            var w := UploadedWorld(url, outcome.value, now);
            PersistCustomWorlds([UploadedTemplate(url, outcome.value, now)] + customWorlds);
            currentWorld := Some(w);
            view := ShowWorld;
        }
      }
      isGenerating := false;
      pending := Idle;
    }

    /** The upload's completion as written: a successful generation is handled as in
        `FinishGeneration`, but a failed one changes nothing at all, so the busy flag
        stays raised and the upload stays pending. */
    method FinishUploadAsWritten(outcome: Result<GeneratedWorld, GenerationError>, now: nat)
      requires Valid() && pending.Uploading?
      modifies this`customWorlds, this`archivesRecord, this`currentWorld, this`view, this`isGenerating, this`pending
      ensures Valid()
      ensures outcome.Failure? ==> unchanged(this) && isGenerating
      ensures outcome.Success? ==>
                var url := old(pending).dataUrl;
                && !isGenerating
                && currentWorld == Some(UploadedWorld(url, outcome.value, now)) && view == ShowWorld
                && customWorlds == [UploadedTemplate(url, outcome.value, now)] + old(pending).snapshot
                && archivesRecord == Parsed(customWorlds)
    {
      if outcome.Success? {
        FinishGeneration(outcome, now);
      }
    }
  }

  /** As written, an upload whose generation fails is stuck: the failure rejects the
      promise of the file reader's callback, the promise the handler awaits never settles,
      and neither its `catch` nor its `finally` runs. Starting from an idle app, an empty
      service reply leaves it busy with the upload still pending, so that selecting any
      template and uploading any file are both ignored from then on. */
  method EmptyReplyBlocksUploadAsWritten(app: App, dataUrl: string, now: nat, template: WorldTemplate, nextUrl: string)
    returns (entered: bool, uploaded: bool)
    requires app.Valid() && !app.isGenerating
    modifies app
    ensures app.Valid() && app.isGenerating && app.pending == Uploading(dataUrl, old(app.customWorlds))
    ensures app.customWorlds == old(app.customWorlds) && app.archivesRecord == old(app.archivesRecord)
    ensures app.currentWorld == old(app.currentWorld) && app.view == old(app.view)
    ensures !entered && !uploaded
  {
    var started := app.HandleUpload(dataUrl);
    assert GenerateWorld(Replied("", None)) == Failure(NoResponse);
    app.FinishUploadAsWritten(GenerateWorld(Replied("", None)), now);
    entered := app.EnterWorld(template);
    uploaded := app.HandleUpload(nextUrl);
  }

  /** With the corrected completion the same empty reply releases the app: it is idle
      again and the next upload starts. */
  method EmptyReplyReleasesUpload(app: App, dataUrl: string, now: nat, nextUrl: string)
    returns (uploaded: bool)
    requires app.Valid() && !app.isGenerating
    modifies app
    ensures app.Valid() && app.isGenerating && app.pending == Uploading(nextUrl, old(app.customWorlds))
    ensures app.customWorlds == old(app.customWorlds) && app.archivesRecord == old(app.archivesRecord)
    ensures app.currentWorld == old(app.currentWorld) && app.view == old(app.view)
    ensures uploaded
  {
    var started := app.HandleUpload(dataUrl);
    app.FinishGeneration(GenerateWorld(Replied("", None)), now);
    uploaded := app.HandleUpload(nextUrl);
  }
}
