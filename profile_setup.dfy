/** The two-step onboarding wizard: identity first, then vibe tags. */
module ProfileSetup {
  import opened Wrappers
  import opened Tags
  import opened EditProfile

  class ProfileSetupScreen {
    var step: int
    var name: string
    var bio: string
    var location: string
    var selectedTags: set<string>
    var isLoading: bool
    /** Whether the app has moved on to the home screen. */
    var atHome: bool

    /**
     * The wizard is on step 1 or 2, holds at most three tags, and only
     * reaches step 2 with a name entered.
     */
    predicate Valid()
      reads this
    {
      (step == 1 || step == 2) && |selectedTags| <= MaxTags && (step == 2 ==> name != "")
    }

    constructor ()
      ensures Valid() && step == 1
      ensures name == "" && bio == "" && location == "" && selectedTags == {}
      ensures !isLoading && !atHome && !NextEnabled()
    {
      step := 1;
      name := "";
      bio := "";
      location := "";
      selectedTags := {};
      isLoading := false;
      atHome := false;
    }

    /** Next is disabled on step 1 while the name is empty. */
    predicate NextEnabled()
      reads this
    {
      !(step == 1 && name == "")
    }

    /** The step-1 text fields. */
    method EditIdentity(name: string, bio: string, location: string)
      requires Valid() && step == 1
      modifies this
      ensures Valid() && step == 1
      ensures this.name == name && this.bio == bio && this.location == location
      ensures selectedTags == old(selectedTags) && isLoading == old(isLoading) && atHome == old(atHome)
    {
      this.name := name;
      this.bio := bio;
      this.location := location;
    }

    method ToggleTag(tag: string)
      requires Valid()
      modifies this
      ensures Valid()
      ensures selectedTags == Toggled(old(selectedTags), tag)
      ensures step == old(step) && name == old(name) && bio == old(bio) && location == old(location)
      ensures isLoading == old(isLoading) && atHome == old(atHome)
    {
      selectedTags := Toggled(selectedTags, tag);
    }

    /**
     * `nextStep()`: step 1 moves to step 2; step 2 runs `completeSetup`,
     * which sets `isLoading` and saves exactly the entered profile.
     */
    method NextStep() returns (save: Option<ProfileSave>)
      requires Valid() && NextEnabled()
      modifies this
      ensures Valid()
      ensures old(step) == 1 ==> step == 2 && save == None && isLoading == old(isLoading)
      ensures old(step) == 2 ==>
        (step == 2 && isLoading && save == Some(ProfileSave(name, bio, location, selectedTags)) && name != "")
      ensures name == old(name) && bio == old(bio) && location == old(location)
      ensures selectedTags == old(selectedTags) && atHome == old(atHome)
    {
      if step == 1 {
        step := 2;
        save := None;
      } else {
        isLoading := true;
        save := Some(ProfileSave(name, bio, location, selectedTags));
      }
    }

    /** The Back button, shown only on step 2. */
    method Back()
      requires Valid() && step == 2
      modifies this
      ensures Valid() && step == 1
      ensures name == old(name) && bio == old(bio) && location == old(location)
      ensures selectedTags == old(selectedTags) && isLoading == old(isLoading) && atHome == old(atHome)
    {
      step := 1;
    }

    /** The delayed end of `completeSetup`: stop loading and go home. */
    method FinishAfterDelay()
      requires Valid()
      modifies this
      ensures Valid() && !isLoading && atHome
      ensures step == old(step) && name == old(name) && selectedTags == old(selectedTags)
      ensures bio == old(bio) && location == old(location)
    {
      isLoading := false;
      atHome := true;
    }
  }

  /** A run through the wizard saves what was typed and tapped. */
  method Onboard(name: string, bio: string, location: string, taps: seq<string>) returns (save: Option<ProfileSave>)
    requires name != ""
    ensures save == Some(ProfileSave(name, bio, location, ToggledAll({}, taps)))
    ensures |ToggledAll({}, taps)| <= MaxTags
  {
    var screen := new ProfileSetupScreen();
    screen.EditIdentity(name, bio, location);
    save := screen.NextStep();
    var i := 0;
    while i < |taps|
      invariant 0 <= i <= |taps|
      invariant screen.Valid() && screen.step == 2
      invariant screen.name == name && screen.bio == bio && screen.location == location
      invariant ToggledAll(screen.selectedTags, taps[i..]) == ToggledAll({}, taps)
    {
      assert taps[i..] == [taps[i]] + taps[i + 1..];
      screen.ToggleTag(taps[i]);
      i := i + 1;
    }
    save := screen.NextStep();
    TapsKeepCap({}, taps);
  }
}
