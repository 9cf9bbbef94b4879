/**
 * The vibe-tag selection shared by profile setup and profile editing: a
 * tap removes a selected tag, and adds an unselected one only while fewer
 * than three are selected.
 */
module Tags {
  const MaxTags := 3

  /** `toggleTag(_:)` on the selected set. */
  function Toggled(selected: set<string>, tag: string): (r: set<string>)
    ensures tag in r <==> tag !in selected && |selected| < MaxTags
    ensures forall t :: t != tag ==> (t in r <==> t in selected)
    ensures |selected| <= MaxTags ==> |r| <= MaxTags
  {
    if tag in selected then selected - {tag}
    else if |selected| < MaxTags then selected + {tag}
    else selected
  }

  /** From at most three tags, toggling the same tag twice gives back the selection. */
  lemma ToggleTwice(selected: set<string>, tag: string)
    requires |selected| <= MaxTags
    ensures Toggled(Toggled(selected, tag), tag) == selected
  {
    if tag in selected {
      assert |selected - {tag}| == |selected| - 1;
    }
  }

  /** Above the cap, removing a tag and tapping it again does not bring it back. */
  lemma ToggleTwiceAboveCap(selected: set<string>, tag: string)
    requires |selected| > MaxTags && tag in selected
    ensures Toggled(Toggled(selected, tag), tag) != selected
  {
    assert |selected - {tag}| == |selected| - 1;
  }

  /** The selection after a series of taps. */
  function ToggledAll(selected: set<string>, taps: seq<string>): set<string>
    decreases |taps|
  {
    if taps == [] then selected else ToggledAll(Toggled(selected, taps[0]), taps[1..])
  }

  /** No series of taps takes a selection of at most three tags above three. */
  lemma {:induction false} TapsKeepCap(selected: set<string>, taps: seq<string>)
    requires |selected| <= MaxTags
    ensures |ToggledAll(selected, taps)| <= MaxTags
    decreases |taps|
  {
    if taps != [] {
      TapsKeepCap(Toggled(selected, taps[0]), taps[1..]);
    }
  }
}
