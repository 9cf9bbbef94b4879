/** Another user's profile page: its loading state, defaults and rank. */
module UserProfile {
  import opened Wrappers
  import opened Store
  import opened DataManagerModel
  import opened Cloud

  /** `OtherUserViewModel.level`. */
  function RankLabel(points: int): (rank: string)
    ensures rank == "Legend" <==> points > 500
    ensures rank == "Pro" <==> 200 < points <= 500
    ensures rank == "Rookie" <==> points <= 200
  {
    if points > 500 then "Legend" else if points > 200 then "Pro" else "Rookie"
  }

  /** The rank uses the local level's thresholds, under shorter names. */
  lemma RankMatchesUserLevel(points: int)
    ensures RankLabel(points) == "Legend" <==> UserLevel(points) == "Campus Legend"
    ensures RankLabel(points) == "Pro" <==> UserLevel(points) == "Pro Spotter"
    ensures RankLabel(points) == "Rookie" <==> UserLevel(points) == "Rookie"
  {
  }

  class OtherUserViewModel {
    var name: string
    var bio: string
    var location: string
    var points: int
    var isLoading: bool

    constructor ()
      ensures name == "Loading..." && bio == "..." && location == "..."
      ensures points == 0 && isLoading && RankLabel(points) == "Rookie"
    {
      name := "Loading...";
      bio := "...";
      location := "...";
      points := 0;
      isLoading := true;
    }

    /** `fetchUser(uid:)`'s completion: typed fields or their defaults; loading ends. */
    method FetchUser(cloud: CloudDataManager, uid: string, online: bool)
      modifies this
      ensures var data := cloud.FetchAnyUserProfile(uid, online);
        && name == StringOr(data, "name", "User") && bio == StringOr(data, "bio", "Rookie")
        && location == StringOr(data, "location", "Unknown") && points == IntOr(data, "points", 0)
      ensures !isLoading
    {
      var data := cloud.FetchAnyUserProfile(uid, online);
      name := StringOr(data, "name", "User");
      bio := StringOr(data, "bio", "Rookie");
      location := StringOr(data, "location", "Unknown");
      points := IntOr(data, "points", 0);
      isLoading := false;
    }
  }

  /** A user without a readable profile shows the stand-in name and bio, and zero points. */
  method ViewMissingUser(cloud: CloudDataManager, uid: string)
    returns (name: string, bio: string, location: string, rank: string)
    requires uid !in cloud.store.users
    ensures name == "Unknown User" && bio == "No Bio" && location == "Unknown" && rank == "Rookie"
  {
    var vm := new OtherUserViewModel();
    vm.FetchUser(cloud, uid, true);
    name, bio, location, rank := vm.name, vm.bio, vm.location, RankLabel(vm.points);
  }
}
