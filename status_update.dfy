/**
 * Which status buttons the "Update Status" panel offers for a spot's
 * category. A tapped button hands its own status to the panel's callback;
 * that step is modelled with the callback, in `LocationDetail.TapStatus`.
 */
module StatusUpdate {
  import opened LocationStatusModel

  const QueueCategories: seq<string> := ["Cafe", "Fast Food", "Canteen", "Terminal", "Marketplace"]
  const AvailabilityCategories: seq<string> := ["Laundry", "Parking", "Facility"]

  predicate IsQueueBased(category: string) {
    category in QueueCategories
  }

  predicate IsAvailabilityBased(category: string) {
    category in AvailabilityCategories
  }

  /** The buttons of the panel, left to right, as the if / else-if picks them. */
  function StatusOptions(category: string): (r: seq<LocationStatus>)
    ensures |r| == 2 || |r| == 3
    ensures forall i, j :: 0 <= i < |r| && 0 <= j < |r| ==> AxisOf(r[i]) == AxisOf(r[j])
  {
    if IsQueueBased(category) then [NoLine, ShortLine, LongLine]
    else if IsAvailabilityBased(category) then [Available, InUse]
    else [Quiet, JustRight, Noisy]
  }

  /** The status group a category's buttons come from. */
  function CategoryAxis(category: string): Axis {
    if IsQueueBased(category) then Queue
    else if IsAvailabilityBased(category) then Availability
    else Ambience
  }

  lemma QueueBasedExactly(category: string)
    ensures IsQueueBased(category) <==>
      category == "Cafe" || category == "Fast Food" || category == "Canteen" ||
      category == "Terminal" || category == "Marketplace"
  {
  }

  lemma AvailabilityBasedExactly(category: string)
    ensures IsAvailabilityBased(category) <==>
      category == "Laundry" || category == "Parking" || category == "Facility"
  {
  }

  /** No category is both queue- and availability-based, so one branch is taken. */
  lemma CategoryClassesDisjoint(category: string)
    ensures !(IsQueueBased(category) && IsAvailabilityBased(category))
  {
  }

  /** The offered buttons are exactly the members of the category's group. */
  lemma OptionsAreTheCategoryGroup(category: string)
    ensures StatusOptions(category) == AxisMembers(CategoryAxis(category))
    ensures IsQueueBased(category) ==> StatusOptions(category) == [NoLine, ShortLine, LongLine]
    ensures IsAvailabilityBased(category) ==> StatusOptions(category) == [Available, InUse]
    ensures !IsQueueBased(category) && !IsAvailabilityBased(category) ==>
      StatusOptions(category) == [Quiet, JustRight, Noisy]
    ensures forall s :: s in StatusOptions(category) <==> AxisOf(s) == CategoryAxis(category)
  {
  }
}
