/**
 * The closed vocabulary of live statuses a spot can carry, with the display
 * title, SF-symbol icon, colour tier and string raw value of each.
 */
module LocationStatusModel {
  import opened Wrappers

  datatype LocationStatus =
    | Quiet | JustRight | Noisy            // ambience
    | NoLine | ShortLine | LongLine        // queue length
    | Available | InUse                  // availability

  /** The three groups the enum's cases are declared in. */
  datatype Axis = Ambience | Queue | Availability

  /** The three colours a status can be drawn in. */
  datatype ColorTier = PrimaryAccent | Yellow | Red

  const AllStatuses: seq<LocationStatus> :=
    [Quiet, JustRight, Noisy, NoLine, ShortLine, LongLine, Available, InUse]

  function AxisOf(s: LocationStatus): Axis {
    match s
    case Quiet | JustRight | Noisy => Ambience
    case NoLine | ShortLine | LongLine => Queue
    case Available | InUse => Availability
  }

  /** The cases of one group, in declaration order. */
  function AxisMembers(a: Axis): (r: seq<LocationStatus>)
    ensures forall s :: s in r <==> AxisOf(s) == a
  {
    match a
    case Ambience => [Quiet, JustRight, Noisy]
    case Queue => [NoLine, ShortLine, LongLine]
    case Availability => [Available, InUse]
  }

  function Title(s: LocationStatus): string {
    match s
    case Quiet => "Quiet"
    case JustRight => "Moderate"
    case Noisy => "Busy"
    case NoLine => "No Queue"
    case ShortLine => "Short Wait"
    case LongLine => "Long Wait"
    case Available => "Available"
    case InUse => "Occupied"
  }

  function IconName(s: LocationStatus): string {
    match s
    case Quiet => "waveform.path.ecg"
    case JustRight => "person.2.fill"
    case Noisy => "speaker.wave.3.fill"
    case NoLine => "figure.walk"
    case ShortLine => "hourglass"
    case LongLine => "person.3.sequence.fill"
    case Available => "checkmark.circle.fill"
    case InUse => "xmark.circle.fill"
  }

  function Color(s: LocationStatus): ColorTier {
    match s
    case Quiet | NoLine | Available => PrimaryAccent
    case JustRight | ShortLine => Yellow
    case Noisy | LongLine | InUse => Red
  }

  /** The Swift raw value: the case name. */
  function RawValue(s: LocationStatus): string {
    match s
    case Quiet => "quiet"
    case JustRight => "justRight"
    case Noisy => "noisy"
    case NoLine => "noLine"
    case ShortLine => "shortLine"
    case LongLine => "longLine"
    case Available => "available"
    case InUse => "inUse"
  }

  /** `LocationStatus(rawValue:)`: None for a string that names no case. */
  function FromRawValue(raw: string): (r: Option<LocationStatus>)
    ensures r.Some? ==> RawValue(r.value) == raw
    ensures r.None? ==> forall s :: RawValue(s) != raw
  {
    if raw == "quiet" then Some(Quiet)
    else if raw == "justRight" then Some(JustRight)
    else if raw == "noisy" then Some(Noisy)
    else if raw == "noLine" then Some(NoLine)
    else if raw == "shortLine" then Some(ShortLine)
    else if raw == "longLine" then Some(LongLine)
    else if raw == "available" then Some(Available)
    else if raw == "inUse" then Some(InUse)
    else None
  }

  /** Inverse of `IconName`, used to read a status back off a notification. */
  function FromIconName(icon: string): (r: Option<LocationStatus>)
    ensures r.Some? ==> IconName(r.value) == icon
    ensures r.None? ==> forall s :: IconName(s) != icon
  {
    if icon == "waveform.path.ecg" then Some(Quiet)
    else if icon == "person.2.fill" then Some(JustRight)
    else if icon == "speaker.wave.3.fill" then Some(Noisy)
    else if icon == "figure.walk" then Some(NoLine)
    else if icon == "hourglass" then Some(ShortLine)
    else if icon == "person.3.sequence.fill" then Some(LongLine)
    else if icon == "checkmark.circle.fill" then Some(Available)
    else if icon == "xmark.circle.fill" then Some(InUse)
    else None
  }

  /** The `moderate` and `occupied` helpers. */
  const Moderate: LocationStatus := ShortLine
  const Occupied: LocationStatus := InUse

  // ---- properties of the vocabulary ----

  /** Exactly eight distinct statuses, each in exactly one of the three groups. */
  lemma EightStatusesInThreeGroups()
    ensures |AllStatuses| == 8
    ensures forall i, j :: 0 <= i < j < |AllStatuses| ==> AllStatuses[i] != AllStatuses[j]
    ensures forall s :: s in AllStatuses
    ensures AxisMembers(Ambience) + AxisMembers(Queue) + AxisMembers(Availability) == AllStatuses
  {
    forall s ensures s in AllStatuses {
      assert s in AxisMembers(AxisOf(s));
    }
  }

  lemma TitleInjective(a: LocationStatus, b: LocationStatus)
    ensures Title(a) == Title(b) ==> a == b
    ensures Title(JustRight) == "Moderate" && Title(InUse) == "Occupied"
  {
  }

  lemma IconNameInjective(a: LocationStatus, b: LocationStatus)
    ensures IconName(a) == IconName(b) ==> a == b
  {
    assert FromIconName(IconName(a)) == Some(a) by { IconRoundTrip(a); }
    assert FromIconName(IconName(b)) == Some(b) by { IconRoundTrip(b); }
  }

  lemma IconRoundTrip(s: LocationStatus)
    ensures FromIconName(IconName(s)) == Some(s)
  {
  }

  /** The colour tiers partition the cases 3 / 2 / 3. */
  lemma ColorPartition(s: LocationStatus)
    ensures Color(s) == PrimaryAccent <==> s in {Quiet, NoLine, Available}
    ensures Color(s) == Yellow <==> s in {JustRight, ShortLine}
    ensures Color(s) == Red <==> s in {Noisy, LongLine, InUse}
  {
  }

  /** Decoding the raw value of any case yields that case. */
  lemma RawValueRoundTrip(s: LocationStatus)
    ensures FromRawValue(RawValue(s)) == Some(s)
  {
  }

  /** Every successfully decoded raw value encodes back to the same string. */
  lemma RawValueRoundTripBack(raw: string)
    requires FromRawValue(raw).Some?
    ensures RawValue(FromRawValue(raw).value) == raw
  {
  }

  lemma Aliases()
    ensures Moderate == ShortLine && Occupied == InUse
    ensures AxisOf(Moderate) == Queue && AxisOf(Occupied) == Availability
  {
  }
}
