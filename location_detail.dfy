/**
 * The spot detail screen: a status tap rewrites the screen's spot and
 * raises one notification, and the edit sheet offers a fixed category list.
 * The screen is opened either on a writable binding (the home list) or on a
 * constant one (the search results), where every write is discarded.
 */
module LocationDetail {
  import opened Wrappers
  import opened LocationStatusModel
  import opened Models
  import opened StatusUpdate
  import opened DataManagerModel

  /** The edit sheet's category picker entries, in order. */
  const EditCategories: seq<string> :=
    ["Study Spot", "Fast Food", "Canteen", "Cafe", "Terminal", "Parking", "Facility", "Laundry"]

  /** The picker lists eight distinct categories. */
  lemma EditCategoriesDistinct()
    ensures |EditCategories| == 8
    ensures forall i, j :: 0 <= i < j < |EditCategories| ==> EditCategories[i] != EditCategories[j]
  {
  }

  /**
   * Every status group can be reached from the picker, but "Marketplace",
   * a queue-based category, cannot be chosen there.
   */
  lemma EditCategoriesReachEveryGroup(a: Axis)
    ensures exists c :: c in EditCategories && CategoryAxis(c) == a
    ensures "Marketplace" !in EditCategories && IsQueueBased("Marketplace")
  {
    match a
    case Ambience => assert CategoryAxis(EditCategories[0]) == Ambience;
    case Queue => assert CategoryAxis(EditCategories[1]) == Queue;
    case Availability => assert CategoryAxis(EditCategories[5]) == Availability;
  }

  class LocationDetailScreen {
    /** The spot the screen shows and edits. */
    var location: Location
    const manager: DataManager
    /** Opened on `.constant(location)`: writes to the spot are discarded. */
    const readOnly: bool

    constructor (l: Location, manager: DataManager, readOnly: bool)
      ensures location == l && this.manager == manager && this.readOnly == readOnly
    {
      location := l;
      this.manager := manager;
      this.readOnly := readOnly;
    }

    /**
     * The status panel's callback for the button at `option`: set the
     * status and the time, then notify with the spot as the binding now reads
     * it. On a constant binding the spot stays as it was, so the notification
     * names the old status. No points are awarded and nothing is written to
     * the store.
     */
    method TapStatus(option: nat, now: int, notificationId: Uuid)
      requires option < |StatusOptions(location.category)|
      modifies this, manager
      ensures location == if readOnly then old(location)
        else old(location).(currentStatus := StatusOptions(old(location).category)[option], lastUpdate := now)
      ensures manager.notifications == [StatusNotification(location, now, notificationId)] + old(manager.notifications)
      ensures manager.locations == old(manager.locations)
      ensures manager.contributionPoints == old(manager.contributionPoints)
      ensures manager.spotsAdded == old(manager.spotsAdded)
      ensures manager.userName == old(manager.userName) && manager.userBio == old(manager.userBio)
      ensures manager.userLocation == old(manager.userLocation) && manager.isDarkMode == old(manager.isDarkMode)
    {
      var status := StatusOptions(location.category)[option];
      if !readOnly {
        location := location.(currentStatus := status, lastUpdate := now);
      }
      manager.TriggerNotification(location, now, notificationId);
    }

    /** The edit sheet's name field. */
    method EditName(name: string)
      modifies this
      ensures location == if readOnly then old(location) else old(location).(name := name)
    {
      if !readOnly {
        location := location.(name := name);
      }
    }

    /** The edit sheet's category picker. */
    method EditCategory(category: string)
      requires category in EditCategories
      modifies this
      ensures location == if readOnly then old(location) else old(location).(category := category)
    {
      if !readOnly {
        location := location.(category := category);
      }
    }
  }

  /**
   * After a tap the spot carries the tapped status, which is one of its
   * category's group, and the single new notification names that status.
   */
  lemma TapOutcome(l: Location, option: nat, now: int, id: Uuid)
    requires option < |StatusOptions(l.category)|
    ensures var tapped := l.(currentStatus := StatusOptions(l.category)[option], lastUpdate := now);
      && AxisOf(tapped.currentStatus) == CategoryAxis(l.category)
      && tapped.name == l.name && tapped.category == l.category && tapped.coordinate == l.coordinate
      && FromIconName(StatusNotification(tapped, now, id).iconName) == Some(StatusOptions(l.category)[option])
  {
    OptionsAreTheCategoryGroup(l.category);
    assert StatusOptions(l.category)[option] in StatusOptions(l.category);
  }

  /**
   * A tap on a spot opened from the search results: the spot is unchanged
   * and the notification it raises names the spot's old status.
   */
  method TapFromSearch(l: Location, option: nat, now: int, ids: seq<Uuid>, notificationId: Uuid)
    returns (shown: Location, notified: NotificationItem)
    requires |ids| == 6 && option < |StatusOptions(l.category)|
    ensures shown == l
    ensures FromIconName(notified.iconName) == Some(l.currentStatus)
    ensures notified.timestamp == now
  {
    var manager := new DataManager(ids, notificationId, now);
    var screen := new LocationDetailScreen(l, manager, true);
    screen.TapStatus(option, now, notificationId);
    shown := screen.location;
    notified := manager.notifications[0];
  }
}
