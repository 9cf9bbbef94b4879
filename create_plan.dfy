/**
 * The "Host Hangout" form: its defaults and ranges, the Create rule, and
 * the plan it submits.
 */
module CreatePlan {
  import opened Wrappers
  import opened Models
  import opened Store
  import opened DataManagerModel
  import opened Cloud

  /** The vibe tags the picker offers. */
  const PlanTags: seq<string> := ["Study", "Social", "Gym", "Errand", "Work", "Chill", "Food"]

  const MinGuests := 2
  const MaxGuests := 20
  /** The default plan length, in seconds. */
  const DefaultLength := 3600

  /**
   * The plan `createPlan` builds: the host is the signed-in user (or
   * "TEST_USER"), named from the cached profile (or "Unknown"), and is its
   * only participant.
   */
  function NewPlan(planId: Uuid, uid: Option<string>, userName: string, locationId: string, locationName: string,
                   title: string, startTime: int, endTime: int, maxGuests: int, allowInvites: bool, tag: string): (p: Plan)
    ensures p.participants == [p.hostId] && |p.participants| == 1
    ensures p.hostId == (if uid.Some? then uid.value else "TEST_USER")
    ensures p.hostName == (if userName == "" then "Unknown" else userName) && p.hostName != ""
    ensures p.locationId == locationId && p.locationName == locationName
    ensures p.title == title && p.startTime == startTime && p.endTime == endTime
    ensures p.maxParticipants == maxGuests && p.allowInvites == allowInvites && p.tag == tag
    ensures p.id == Some(planId.uuidString)
  {
    var hostName := if userName == "" then "Unknown" else userName;
    var hostId := match uid case Some(u) => u case None => "TEST_USER";
    Plan(Some(planId.uuidString), hostId, hostName, locationId, locationName, title,
         startTime, endTime, maxGuests, allowInvites, tag, [hostId])
  }

  class CreatePlanForm {
    const locationId: string
    const locationName: string
    var title: string
    var startTime: int
    var endTime: int
    var maxGuests: int
    var allowInvites: bool
    var selectedTag: string

    /** The guest stepper's range and the tag picker's choices. */
    predicate Valid()
      reads this
    {
      MinGuests <= maxGuests <= MaxGuests && selectedTag in PlanTags
    }

    /** The form as it opens at time `now`. */
    constructor (locationId: string, locationName: string, now: int)
      ensures this.locationId == locationId && this.locationName == locationName
      ensures title == "" && startTime == now && endTime == now + DefaultLength
      ensures maxGuests == 4 && allowInvites && selectedTag == "Social"
      ensures Valid() && !CreateEnabled()
    {
      this.locationId := locationId;
      this.locationName := locationName;
      title := "";
      startTime := now;
      endTime := now + DefaultLength;
      maxGuests := 4;
      allowInvites := true;
      selectedTag := "Social";
    }

    /** The Create button is enabled exactly when a title is entered. */
    predicate CreateEnabled()
      reads this
    {
      title != ""
    }

    method SetTitle(t: string)
      modifies this
      ensures title == t && CreateEnabled() == (t != "")
      ensures startTime == old(startTime) && endTime == old(endTime) && maxGuests == old(maxGuests)
      ensures allowInvites == old(allowInvites) && selectedTag == old(selectedTag)
    {
      title := t;
    }

    /** The Starts picker accepts times from `now` on; the end time is left as it is. */
    method SetStart(t: int, now: int)
      requires t >= now
      modifies this
      ensures startTime == t && endTime == old(endTime)
      ensures title == old(title) && maxGuests == old(maxGuests)
      ensures allowInvites == old(allowInvites) && selectedTag == old(selectedTag)
    {
      startTime := t;
    }

    /** The Ends picker accepts times from the start on. */
    method SetEnd(t: int)
      requires t >= startTime
      modifies this
      ensures endTime == t && startTime <= endTime && startTime == old(startTime)
      ensures title == old(title) && maxGuests == old(maxGuests)
      ensures allowInvites == old(allowInvites) && selectedTag == old(selectedTag)
    {
      endTime := t;
    }

    /** The stepper's plus button: stops at the top of the range. */
    method IncrementGuests()
      requires Valid()
      modifies this
      ensures Valid()
      ensures maxGuests == if old(maxGuests) < MaxGuests then old(maxGuests) + 1 else old(maxGuests)
      ensures title == old(title) && startTime == old(startTime) && endTime == old(endTime)
      ensures allowInvites == old(allowInvites) && selectedTag == old(selectedTag)
    {
      if maxGuests < MaxGuests {
        maxGuests := maxGuests + 1;
      }
    }

    /** The stepper's minus button: stops at the bottom of the range. */
    method DecrementGuests()
      requires Valid()
      modifies this
      ensures Valid()
      ensures maxGuests == if old(maxGuests) > MinGuests then old(maxGuests) - 1 else old(maxGuests)
      ensures title == old(title) && startTime == old(startTime) && endTime == old(endTime)
      ensures allowInvites == old(allowInvites) && selectedTag == old(selectedTag)
    {
      if maxGuests > MinGuests {
        maxGuests := maxGuests - 1;
      }
    }

    method SetAllowInvites(b: bool)
      modifies this
      ensures allowInvites == b
      ensures title == old(title) && startTime == old(startTime) && endTime == old(endTime)
      ensures maxGuests == old(maxGuests) && selectedTag == old(selectedTag)
    {
      allowInvites := b;
    }

    method SelectTag(tag: string)
      requires tag in PlanTags
      requires Valid()
      modifies this
      ensures selectedTag == tag && Valid()
      ensures title == old(title) && startTime == old(startTime) && endTime == old(endTime)
      ensures maxGuests == old(maxGuests) && allowInvites == old(allowInvites)
    {
      selectedTag := tag;
    }

    /** `createPlan()`: build the plan from the form and hand it to the store. */
    method Create(manager: DataManager, cloud: CloudDataManager, planId: Uuid, docId: string, online: bool)
      requires CreateEnabled()
      requires docId !in cloud.store.plans
      modifies cloud
      ensures var p := NewPlan(planId, cloud.currentUid, manager.userName, locationId, locationName,
                               title, startTime, endTime, maxGuests, allowInvites, selectedTag);
        cloud.store == if online then old(cloud.store).(plans := old(cloud.store).plans[docId := p]) else old(cloud.store)
      ensures cloud.locations == old(cloud.locations) && cloud.activePlans == old(cloud.activePlans)
      ensures cloud.currentUid == old(cloud.currentUid) && cloud.chatPlanId == old(cloud.chatPlanId)
      ensures cloud.hiddenSpotIds == old(cloud.hiddenSpotIds) && cloud.blockedUserIds == old(cloud.blockedUserIds)
      ensures cloud.currentChatMessages == old(cloud.currentChatMessages)
    {
      var p := NewPlan(planId, cloud.currentUid, manager.userName, locationId, locationName,
                       title, startTime, endTime, maxGuests, allowInvites, selectedTag);
      cloud.CreatePlan(p, docId, online);
    }
  }

  /**
   * Moving the start past the chosen end is allowed and does not move the
   * end, so a submitted plan can end before it starts.
   */
  method StartAfterEnd(now: int) returns (startTime: int, endTime: int)
    ensures endTime < startTime
  {
    var form := new CreatePlanForm("spot", "Spot", now);
    form.SetStart(now + 2 * DefaultLength, now);
    startTime, endTime := form.startTime, form.endTime;
  }
}
