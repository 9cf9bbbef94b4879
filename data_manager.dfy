/**
 * The local profile and activity store: the user's name and bio, the local
 * spot list, the notification feed, and the gamification counters with the
 * level they imply.
 */
module DataManagerModel {
  import opened Wrappers
  import opened Text
  import opened LocationStatusModel
  import opened Models
  import opened Store

  /** `userLevel`: the level title for a point total. */
  function UserLevel(points: int): (level: string)
    ensures level == "Campus Legend" <==> points > 500
    ensures level == "Pro Spotter" <==> 200 < points <= 500
    ensures level == "Rookie" <==> points <= 200
  {
    if points > 500 then "Campus Legend"
    else if points > 200 then "Pro Spotter"
    else "Rookie"
  }

  /**
   * The integer numerator of `progressToNextLevel` (the Double quotient by
   * 200 is not modelled): `points % 200` with Swift's `%`, whose remainder
   * truncates toward zero, so it takes the sign of `points`.
   */
  function ProgressNumerator(points: int): (n: int)
    ensures points >= 0 ==> 0 <= n < 200
    ensures points < 0 ==> -200 < n <= 0
    ensures (points - n) % 200 == 0
  {
    if points >= 0 then points % 200 else -((-points) % 200)
  }

  /** The item `triggerNotification(for:)` builds for a spot's current state. */
  function StatusNotification(l: Location, now: int, id: Uuid): (n: NotificationItem)
    ensures n.title == "Status Update: " + l.name
    ensures FromIconName(n.iconName) == Some(l.currentStatus)
    ensures EndsWith(n.message, Uppercased(Title(l.currentStatus)))
    ensures n.timestamp == now && !n.isRead
  {
    IconRoundTrip(l.currentStatus);
    NotificationItem(id, "Status Update: " + l.name,
                     "is now marked as " + Uppercased(Title(l.currentStatus)),
                     now, IconName(l.currentStatus), false)
  }

  /** Two notifications for different statuses never look alike. */
  lemma NotificationsTellStatusesApart(a: Location, b: Location, now: int, id: Uuid)
    requires a.currentStatus != b.currentStatus
    ensures StatusNotification(a, now, id) != StatusNotification(b, now, id)
  {
    var na := StatusNotification(a, now, id);
    var nb := StatusNotification(b, now, id);
    assert FromIconName(na.iconName) != FromIconName(nb.iconName);
  }

  class DataManager {
    var isDarkMode: bool
    var userName: string
    var userBio: string
    var userLocation: string
    var locations: seq<Location>
    var notifications: seq<NotificationItem>
    var contributionPoints: int
    var spotsAdded: int

    /** The shared instance's initial state: seeded spots and a welcome item. */
    constructor (mockIds: seq<Uuid>, welcomeId: Uuid, now: int)
      requires |mockIds| == 6
      ensures isDarkMode
      ensures userName == "Kurt Gavin" && userBio == "Rookie Spotter | Coffee Enthusiast"
      ensures userLocation == "Quezon City, PH"
      ensures locations == MockData(mockIds, now)
      ensures notifications == [NotificationItem(welcomeId, "Welcome", "Start spotting!", now, "star.fill", false)]
      ensures contributionPoints == 120 && spotsAdded == 5
      ensures UserLevel(contributionPoints) == "Rookie" && ProgressNumerator(contributionPoints) == 120
    {
      isDarkMode := true;
      userName := "Kurt Gavin";
      userBio := "Rookie Spotter | Coffee Enthusiast";
      userLocation := "Quezon City, PH";
      locations := MockData(mockIds, now);
      notifications := [NotificationItem(welcomeId, "Welcome", "Start spotting!", now, "star.fill", false)];
      contributionPoints := 120;
      spotsAdded := 5;
    }

    /** `binding(for:)`: the index the binding reads and writes, if any. */
    function Binding(id: Uuid): (r: Option<nat>)
      reads this
      ensures r.None? <==> forall i :: 0 <= i < |locations| ==> locations[i].id != id
      ensures r.Some? ==> r.value < |locations| && locations[r.value].id == id
      ensures r.Some? ==> forall j :: 0 <= j < r.value ==> locations[j].id != id
    {
      FirstIndexOf(locations, id)
    }

    method AddPointsForNewSpot()
      modifies this
      ensures contributionPoints == old(contributionPoints) + 50
      ensures spotsAdded == old(spotsAdded) + 1
      ensures locations == old(locations) && notifications == old(notifications)
      ensures userName == old(userName) && userBio == old(userBio) && userLocation == old(userLocation)
      ensures isDarkMode == old(isDarkMode)
    {
      contributionPoints := contributionPoints + 50;
      spotsAdded := spotsAdded + 1;
    }

    method AddPointsForUpdate()
      modifies this
      ensures contributionPoints == old(contributionPoints) + 10
      ensures spotsAdded == old(spotsAdded)
      ensures locations == old(locations) && notifications == old(notifications)
      ensures userName == old(userName) && userBio == old(userBio) && userLocation == old(userLocation)
      ensures isDarkMode == old(isDarkMode)
    {
      contributionPoints := contributionPoints + 10;
    }

    /** Appends the spot and awards the new-spot bonus. */
    method AddLocation(l: Location)
      modifies this
      ensures locations == old(locations) + [l]
      ensures old(locations) <= locations
      ensures contributionPoints == old(contributionPoints) + 50
      ensures spotsAdded == old(spotsAdded) + 1
      ensures notifications == old(notifications)
      ensures userName == old(userName) && userBio == old(userBio) && userLocation == old(userLocation)
      ensures isDarkMode == old(isDarkMode)
    {
      locations := locations + [l];
      AddPointsForNewSpot();
    }

    /** Puts one status notification for the spot at the head of the feed. */
    method TriggerNotification(l: Location, now: int, id: Uuid)
      modifies this
      ensures notifications == [StatusNotification(l, now, id)] + old(notifications)
      ensures notifications[1..] == old(notifications)
      ensures locations == old(locations)
      ensures contributionPoints == old(contributionPoints) && spotsAdded == old(spotsAdded)
      ensures userName == old(userName) && userBio == old(userBio) && userLocation == old(userLocation)
      ensures isDarkMode == old(isDarkMode)
    {
      notifications := [StatusNotification(l, now, id)] + notifications;
    }

    method ClearNotifications()
      modifies this
      ensures notifications == []
      ensures locations == old(locations)
      ensures contributionPoints == old(contributionPoints) && spotsAdded == old(spotsAdded)
      ensures userName == old(userName) && userBio == old(userBio) && userLocation == old(userLocation)
      ensures isDarkMode == old(isDarkMode)
    {
      notifications := [];
    }

    /**
     * The profile listener of `fetchUserProfile`: each field is overwritten
     * from the user document, with a default when missing or ill-typed.
     */
    method ApplyRemoteProfile(data: Fields)
      modifies this
      ensures userName == StringOr(data, "name", "User")
      ensures userBio == StringOr(data, "bio", "Rookie")
      ensures userLocation == StringOr(data, "location", "Unknown")
      ensures contributionPoints == IntOr(data, "points", 0)
      ensures spotsAdded == IntOr(data, "spotsAdded", 0)
      ensures locations == old(locations) && notifications == old(notifications)
      ensures isDarkMode == old(isDarkMode)
    {
      userName := StringOr(data, "name", "User");
      userBio := StringOr(data, "bio", "Rookie");
      userLocation := StringOr(data, "location", "Unknown");
      contributionPoints := IntOr(data, "points", 0);
      spotsAdded := IntOr(data, "spotsAdded", 0);
    }
  }
}
