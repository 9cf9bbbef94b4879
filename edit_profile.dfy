/** The profile editor's tag selection and what it saves. */
module EditProfile {
  import opened Tags
  import opened DataManagerModel

  /** The profile fields a save hands to the store, tags as the selected set. */
  datatype ProfileSave = ProfileSave(name: string, bio: string, location: string, tags: set<string>)

  class EditProfileScreen {
    var selectedTags: set<string>

    constructor ()
      ensures selectedTags == {}
    {
      selectedTags := {};
    }

    /** `onAppear`: the selection starts from the stored tags. */
    method OnAppear(storedTags: seq<string>)
      modifies this
      ensures forall t :: t in selectedTags <==> t in storedTags
    {
      selectedTags := set t | t in storedTags;
    }

    method ToggleTag(tag: string)
      modifies this
      ensures selectedTags == Toggled(old(selectedTags), tag)
      ensures |old(selectedTags)| <= MaxTags ==> |selectedTags| <= MaxTags
    {
      selectedTags := Toggled(selectedTags, tag);
    }

    /** `saveChanges()`: the cached profile fields with exactly the selected tags. */
    method SaveChanges(manager: DataManager) returns (save: ProfileSave)
      ensures save.tags == selectedTags
      ensures save.name == manager.userName && save.bio == manager.userBio && save.location == manager.userLocation
    {
      save := ProfileSave(manager.userName, manager.userBio, manager.userLocation, selectedTags);
    }
  }

  /** The cap is not enforced on load: four stored tags stay selected. */
  method FourStoredTags() returns (count: nat)
    ensures count == 4
  {
    var screen := new EditProfileScreen();
    screen.OnAppear(["a", "b", "c", "d"]);
    var s := screen.selectedTags;
    assert s == {"a", "b", "c", "d"};
    count := |s|;
  }
}
