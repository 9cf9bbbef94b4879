/**
 * The app's value types: a spot (Location), a meetup plan, a chat message
 * and an in-app notification. Dates are integer seconds; a UUID is known
 * only through its string form.
 */
module Models {
  import opened Wrappers
  import opened LocationStatusModel

  datatype Uuid = Uuid(uuidString: string)

  datatype Coordinate = Coordinate(latitude: real, longitude: real)

  datatype Location = Location(
    id: Uuid,
    name: string,
    category: string,
    coordinate: Coordinate,
    currentStatus: LocationStatus,
    lastUpdate: int)

  datatype Plan = Plan(
    id: Option<string>,
    hostId: string,
    hostName: string,
    locationId: string,
    locationName: string,
    title: string,
    startTime: int,
    endTime: int,
    maxParticipants: int,
    allowInvites: bool,
    tag: string,
    participants: seq<string>)

  datatype ChatMessage = ChatMessage(
    id: Option<string>,
    senderId: string,
    senderName: string,
    text: string,
    timestamp: int,
    imageUrl: Option<string>)

  datatype NotificationItem = NotificationItem(
    id: Uuid,
    title: string,
    message: string,
    timestamp: int,
    iconName: string,
    isRead: bool)

  /** A picked photo, known only by whether its JPEG data encodes (and to what payload). */
  datatype Image = Image(jpegBase64: Option<string>)

  /** `ChatMessage.isMe`: the sender is the signed-in user. */
  predicate IsMe(m: ChatMessage, currentUid: Option<string>) {
    currentUid == Some(m.senderId)
  }

  /**
   * `locations.firstIndex(where: { $0.id == id })`: the position of the
   * first location carrying `id`, or None when there is none.
   */
  function FirstIndexOf(locations: seq<Location>, id: Uuid): (r: Option<nat>)
    ensures r.None? <==> forall i :: 0 <= i < |locations| ==> locations[i].id != id
    ensures r.Some? ==> r.value < |locations| && locations[r.value].id == id
    ensures r.Some? ==> forall j :: 0 <= j < r.value ==> locations[j].id != id
  {
    if locations == [] then None
    else if locations[0].id == id then Some(0)
    else
      match FirstIndexOf(locations[1..], id)
      case None => None
      case Some(k) => Some(k + 1)
  }

  /** `Location.mockData`: six seeded spots, stamped with the launch time. */
  function MockData(ids: seq<Uuid>, now: int): (r: seq<Location>)
    requires |ids| == 6
    ensures |r| == 6 && forall i :: 0 <= i < 6 ==> r[i].id == ids[i] && r[i].lastUpdate == now
  {
    [ Location(ids[0], "Main Library - 3rd Floor", "Study Spot", Coordinate(14.6549, 121.0645), Quiet, now),
      Location(ids[1], "Jollibee - Campus Ave", "Fast Food", Coordinate(14.6555, 121.0650), LongLine, now),
      Location(ids[2], "Student Canteen", "Canteen", Coordinate(14.6540, 121.0635), ShortLine, now),
      Location(ids[3], "Bus Terminal - Lane A", "Terminal", Coordinate(14.6520, 121.0610), Moderate, now),
      Location(ids[4], "Main Parking Lot", "Parking", Coordinate(14.6510, 121.0660), Available, now),
      Location(ids[5], "Science Complex Gym", "Facility", Coordinate(14.6560, 121.0670), Occupied, now) ]
  }
}
