/** The profile editor (components/SoulProfile.tsx): a name and a description edited in
    place, saved into the app only when the name is not blank; and how the atlas screen
    mounts it (App.tsx). */
module Profile {
  import opened Types
  import opened Text
  import opened Atlas

  class SoulProfile {
    /** The app's `HandleSaveProfile` receives every saved profile. */
    const app: App
    var name: string
    var desc: string
    var isOpen: bool

    /** The editor starts from the existing profile, or empty and open when there is none. */
    constructor (existingProfile: Option<UserProfile>, app: App)
      ensures this.app == app
      ensures name == (if existingProfile.Some? then existingProfile.value.name else "")
      ensures desc == (if existingProfile.Some? then existingProfile.value.description else "")
      ensures isOpen <==> existingProfile.None?
    {
      this.app := app;
      name := if existingProfile.Some? then existingProfile.value.name else "";
      desc := if existingProfile.Some? then existingProfile.value.description else "";
      isOpen := existingProfile.None?;
    }

    method SetName(text: string)
      modifies this`name
      ensures name == text
    {
      name := text;
    }

    method SetDesc(text: string)
      modifies this`desc
      ensures desc == text
    {
      desc := text;
    }

    /** The Edit button reopens the editor. */
    method Edit()
      modifies this`isOpen
      ensures isOpen
    {
      isOpen := true;
    }

    /** Saves the fields exactly as typed, untrimmed, and closes the editor; with a blank
        name nothing is saved and the editor stays as it was. */
    method HandleSave()
      modifies this`isOpen, app`userProfile, app`profileRecord
      ensures IsBlank(name) ==> unchanged(this) && unchanged(app)
      ensures !IsBlank(name) ==> !isOpen && app.userProfile == Some(UserProfile(name, desc))
                                 && app.profileRecord == Parsed(UserProfile(name, desc))
    {
      if !IsBlank(name) {
        app.HandleSaveProfile(UserProfile(name, desc));
        isOpen := false;
      }
    }
  }

  /** As written, the atlas screen's first render mounts the editor while the app's
      profile is still its initial null, and the load effect runs only afterwards. The
      editor reads its props only when mounted, so with a profile in the store it still
      opens, with empty fields. */
  method OpenAtlasAsWritten(savedWorlds: Stored<seq<WorldTemplate>>, profile: UserProfile)
    returns (app: App, editor: SoulProfile)
    ensures app.userProfile == Some(profile)
    ensures editor.app == app && editor.isOpen && editor.name == "" && editor.desc == ""
  {
    app := new App(savedWorlds, Parsed(profile));
    editor := new SoulProfile(app.userProfile, app);
    app.LoadStore();
  }

  /** Mounting the editor once the store is loaded: it starts from the loaded profile and
      is open exactly when there is none. */
  method OpenAtlas(savedWorlds: Stored<seq<WorldTemplate>>, savedProfile: Stored<UserProfile>)
    returns (app: App, editor: SoulProfile)
    ensures savedProfile.Parsed? ==> app.userProfile == Some(savedProfile.value)
    ensures !savedProfile.Parsed? ==> app.userProfile.None?
    ensures editor.app == app
    ensures editor.isOpen <==> app.userProfile.None?
    ensures app.userProfile.Some? ==> editor.name == app.userProfile.value.name
                                      && editor.desc == app.userProfile.value.description
  {
    app := new App(savedWorlds, savedProfile);
    app.LoadStore();
    editor := new SoulProfile(app.userProfile, app);
  }
}
