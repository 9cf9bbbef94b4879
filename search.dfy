/**
 * The search screen's view model: free-text, category and vibe filters over
 * the synced spot list, a best-status-first ordering, and the "trending"
 * strip.
 */
module Search {
  import opened Wrappers
  import opened Text
  import opened Seqs
  import opened LocationStatusModel
  import opened Models

  datatype VibeColor = Purple | Green | Orange

  datatype VibeOption = VibeOption(
    title: string,
    icon: string,
    color: VibeColor,
    relatedStatuses: seq<LocationStatus>)

  const Categories: seq<string> := ["Study Spot", "Fast Food", "Canteen", "Cafe", "Terminal", "Parking"]

  const Vibes: seq<VibeOption> := [
    VibeOption("Quiet / Chill", "waveform.path.ecg", Purple, [Quiet, JustRight]),
    VibeOption("Quick / Open", "figure.walk", Green, [NoLine, ShortLine, Available]),
    VibeOption("Busy / Full", "flame.fill", Orange, [LongLine, Noisy, InUse])
  ]

  /** `vibes.first(where: { $0.title == title })`. */
  function FirstVibe(vibes: seq<VibeOption>, title: string): (r: Option<VibeOption>)
    ensures r.None? <==> forall k :: 0 <= k < |vibes| ==> vibes[k].title != title
    ensures r.Some? ==> r.value in vibes && r.value.title == title
    ensures r.Some? ==> exists k :: (0 <= k < |vibes| && vibes[k] == r.value &&
      forall j :: 0 <= j < k ==> vibes[j].title != title)
  {
    if vibes == [] then None
    else if vibes[0].title == title then Some(vibes[0])
    else
      var r := FirstVibe(vibes[1..], title);
      assert r.Some? ==> exists k :: (0 <= k < |vibes| && vibes[k] == r.value &&
        forall j :: 0 <= j < k ==> vibes[j].title != title)
      by {
        if r.Some? {
          var k :| 0 <= k < |vibes[1..]| && vibes[1..][k] == r.value &&
            forall j :: 0 <= j < k ==> vibes[1..][j].title != title;
          assert vibes[k + 1] == r.value;
          forall j | 0 <= j < k + 1 ensures vibes[j].title != title {
            if j > 0 { assert vibes[j] == vibes[1..][j - 1]; }
          }
        }
      }
      r
  }

  /** `score(for:)`: how good a status is for a visitor; it follows the colour tier. */
  function Score(s: LocationStatus): (r: int)
    ensures 1 <= r <= 3
    ensures r == 3 <==> Color(s) == PrimaryAccent
    ensures r == 2 <==> Color(s) == Yellow
    ensures r == 1 <==> Color(s) == Red
  {
    match s
    case Quiet | NoLine | Available => 3
    case JustRight | ShortLine => 2
    case Noisy | LongLine | InUse => 1
  }

  predicate MatchesText(l: Location, text: string) {
    ContainsIgnoringCase(l.name, text) || ContainsIgnoringCase(l.category, text)
  }

  /** The vibe that filters, when the selected title names one. */
  function ActiveVibe(selectedVibe: Option<string>): Option<VibeOption> {
    if selectedVibe.Some? then FirstVibe(Vibes, selectedVibe.value) else None
  }

  /** The conjunction of the three optional filters, for one spot. */
  predicate Admits(l: Location, searchText: string, selectedCategory: Option<string>, selectedVibe: Option<string>) {
    && (searchText != "" ==> MatchesText(l, searchText))
    && (selectedCategory.Some? ==> l.category == selectedCategory.value)
    && (ActiveVibe(selectedVibe).Some? ==> l.currentStatus in ActiveVibe(selectedVibe).value.relatedStatuses)
  }

  /** Sorting key: a higher score must come first. */
  function RankKey(l: Location): int {
    -Score(l.currentStatus)
  }

  /** `filteredLocations`: text filter, then category, then vibe, then by score. */
  function FilteredLocations(
    all: seq<Location>, searchText: string, selectedCategory: Option<string>, selectedVibe: Option<string>
  ): seq<Location>
  {
    var byText := if searchText != "" then Filter(all, (l: Location) => MatchesText(l, searchText)) else all;
    var byCategory := if selectedCategory.Some? then Filter(byText, (l: Location) => l.category == selectedCategory.value) else byText;
    var vibe := ActiveVibe(selectedVibe);
    var byVibe := if vibe.Some? then Filter(byCategory, (l: Location) => l.currentStatus in vibe.value.relatedStatuses) else byCategory;
    SortBy(byVibe, RankKey)
  }

  /**
   * The result holds every spot the filters admit, as often as it occurs in
   * the input and nothing else, and it lists better scores first.
   */
  lemma FilteredLocationsSpec(
    all: seq<Location>, searchText: string, selectedCategory: Option<string>, selectedVibe: Option<string>)
    ensures var r := FilteredLocations(all, searchText, selectedCategory, selectedVibe);
      && (forall x :: multiset(r)[x] == if Admits(x, searchText, selectedCategory, selectedVibe) then multiset(all)[x] else 0)
      && (forall i, j :: 0 <= i < j < |r| ==> Score(r[i].currentStatus) >= Score(r[j].currentStatus))
  {
    var byText := if searchText != "" then Filter(all, (l: Location) => MatchesText(l, searchText)) else all;
    var byCategory := if selectedCategory.Some? then Filter(byText, (l: Location) => l.category == selectedCategory.value) else byText;
    var vibe := ActiveVibe(selectedVibe);
    var byVibe := if vibe.Some? then Filter(byCategory, (l: Location) => l.currentStatus in vibe.value.relatedStatuses) else byCategory;
    var r := SortBy(byVibe, RankKey);
    assert r == FilteredLocations(all, searchText, selectedCategory, selectedVibe);
    forall x ensures multiset(r)[x] == if Admits(x, searchText, selectedCategory, selectedVibe) then multiset(all)[x] else 0 {
      assert multiset(byText)[x] == if searchText == "" || MatchesText(x, searchText) then multiset(all)[x] else 0;
    }
    forall i, j | 0 <= i < j < |r| ensures Score(r[i].currentStatus) >= Score(r[j].currentStatus) {
      assert RankKey(r[i]) <= RankKey(r[j]);
    }
  }

  /** Every result is one of the input spots, and admitted by the filters. */
  lemma FilteredAreAdmitted(
    all: seq<Location>, searchText: string, selectedCategory: Option<string>, selectedVibe: Option<string>)
    ensures forall x :: x in FilteredLocations(all, searchText, selectedCategory, selectedVibe) ==>
      && x in all
      && (searchText != "" ==> ContainsIgnoringCase(x.name, searchText) || ContainsIgnoringCase(x.category, searchText))
      && (selectedCategory.Some? ==> x.category == selectedCategory.value)
      && (selectedVibe.Some? && FirstVibe(Vibes, selectedVibe.value).Some? ==>
            x.currentStatus in FirstVibe(Vibes, selectedVibe.value).value.relatedStatuses)
  {
    FilteredLocationsSpec(all, searchText, selectedCategory, selectedVibe);
    forall x | x in FilteredLocations(all, searchText, selectedCategory, selectedVibe)
      ensures Admits(x, searchText, selectedCategory, selectedVibe) && x in all
    {
      assert multiset(FilteredLocations(all, searchText, selectedCategory, selectedVibe))[x] > 0;
    }
  }

  /** With no filter set the screen lists every spot, only reordered. */
  lemma NoFilterIsPermutation(all: seq<Location>)
    ensures multiset(FilteredLocations(all, "", None, None)) == multiset(all)
  {
    FilteredLocationsSpec(all, "", None, None);
  }

  /** A vibe title that names no vibe filters nothing. */
  lemma UnknownVibeFiltersNothing(all: seq<Location>, searchText: string, selectedCategory: Option<string>, title: string)
    requires forall v :: v in Vibes ==> v.title != title
    ensures FilteredLocations(all, searchText, selectedCategory, Some(title))
         == FilteredLocations(all, searchText, selectedCategory, None)
  {
    assert forall k :: 0 <= k < |Vibes| ==> Vibes[k] in Vibes;
  }

  /** The vibe whose related statuses include `s`. */
  function VibeIndex(s: LocationStatus): nat {
    match s
    case Quiet | JustRight => 0
    case NoLine | ShortLine | Available => 1
    case LongLine | Noisy | InUse => 2
  }

  /** The three vibes' status lists partition the eight statuses. */
  lemma VibesPartitionStatuses(s: LocationStatus)
    ensures |Vibes| == 3 && VibeIndex(s) < 3
    ensures forall k :: 0 <= k < 3 ==> (s in Vibes[k].relatedStatuses <==> k == VibeIndex(s))
  {
    assert Vibes[0].relatedStatuses == [Quiet, JustRight];
    assert Vibes[1].relatedStatuses == [NoLine, ShortLine, Available];
    assert Vibes[2].relatedStatuses == [LongLine, Noisy, InUse];
  }

  lemma VibeTitlesDistinct()
    ensures forall i, j :: 0 <= i < j < |Vibes| ==> Vibes[i].title != Vibes[j].title
  {
  }

  /** `toggleCategory` / `toggleVibe`: deselect the argument, or select it. */
  function Toggled(selection: Option<string>, x: string): (r: Option<string>)
    ensures r.None? <==> selection == Some(x)
    ensures r.Some? ==> r.value == x
  {
    if selection == Some(x) then None else Some(x)
  }

  /** Toggling the same value twice restores an empty or matching selection. */
  lemma ToggleTwice(selection: Option<string>, x: string)
    requires selection == None || selection == Some(x)
    ensures Toggled(Toggled(selection, x), x) == selection
  {
  }

  class SearchViewModel {
    var searchText: string
    var selectedCategory: Option<string>
    var selectedVibe: Option<string>
    var allLocations: seq<Location>

    constructor ()
      ensures searchText == "" && selectedCategory == None && selectedVibe == None && allLocations == []
      ensures !IsFiltering()
    {
      searchText := "";
      selectedCategory := None;
      selectedVibe := None;
      allLocations := [];
    }

    function Filtered(): seq<Location>
      reads this
    {
      FilteredLocations(allLocations, searchText, selectedCategory, selectedVibe)
    }

    predicate IsFiltering()
      reads this
    {
      searchText != "" || selectedCategory.Some? || selectedVibe.Some?
    }

    /** `trendingLocations`: the first (at most) three synced spots, in order. */
    function TrendingLocations(): (r: seq<Location>)
      reads this
      ensures r <= allLocations
      ensures |r| == if |allLocations| < 3 then |allLocations| else 3
    {
      allLocations[..if |allLocations| < 3 then |allLocations| else 3]
    }

    /** While nothing is filtering, the results are all spots, reordered. */
    lemma NotFilteringShowsAll()
      requires !IsFiltering()
      ensures multiset(Filtered()) == multiset(allLocations)
    {
      NoFilterIsPermutation(allLocations);
    }

    /** The published locations delivered by the cloud subscription. */
    method AssignLocations(locations: seq<Location>)
      modifies this
      ensures allLocations == locations
      ensures searchText == old(searchText) && selectedCategory == old(selectedCategory) && selectedVibe == old(selectedVibe)
    {
      allLocations := locations;
    }

    method SetSearchText(text: string)
      modifies this
      ensures searchText == text
      ensures allLocations == old(allLocations) && selectedCategory == old(selectedCategory) && selectedVibe == old(selectedVibe)
    {
      searchText := text;
    }

    method ToggleCategory(category: string)
      modifies this
      ensures selectedCategory == Toggled(old(selectedCategory), category)
      ensures searchText == old(searchText) && selectedVibe == old(selectedVibe) && allLocations == old(allLocations)
    {
      selectedCategory := if selectedCategory == Some(category) then None else Some(category);
    }

    method ToggleVibe(vibeTitle: string)
      modifies this
      ensures selectedVibe == Toggled(old(selectedVibe), vibeTitle)
      ensures searchText == old(searchText) && selectedCategory == old(selectedCategory) && allLocations == old(allLocations)
    {
      selectedVibe := if selectedVibe == Some(vibeTitle) then None else Some(vibeTitle);
    }

    method ClearAll()
      modifies this
      ensures searchText == "" && selectedCategory == None && selectedVibe == None
      ensures !IsFiltering()
      ensures allLocations == old(allLocations)
      ensures multiset(Filtered()) == multiset(allLocations)
    {
      searchText := "";
      selectedCategory := None;
      selectedVibe := None;
      NotFilteringShowsAll();
    }
  }
}
