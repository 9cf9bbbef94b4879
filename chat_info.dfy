/** The group info sheet: the member list and the shared-media gallery. */
module ChatInfo {
  import opened Wrappers
  import opened Seqs
  import opened Models

  /** `galleryImages`: the messages that carry an image, in chat order. */
  function GalleryImages(messages: seq<ChatMessage>): (r: seq<ChatMessage>)
    ensures forall m :: m in r <==> m in messages && m.imageUrl.Some?
    ensures IsSubsequence(r, messages)
    ensures forall m :: multiset(r)[m] == if m.imageUrl.Some? then multiset(messages)[m] else 0
  {
    Filter(messages, (m: ChatMessage) => m.imageUrl.Some?)
  }

  /** "No images shared yet." is shown exactly when no message carries an image. */
  predicate ShowsNoImagesText(messages: seq<ChatMessage>) {
    GalleryImages(messages) == []
  }

  lemma NoImagesTextExactly(messages: seq<ChatMessage>)
    ensures ShowsNoImagesText(messages) <==> forall i :: 0 <= i < |messages| ==> messages[i].imageUrl.None?
  {
    var r := GalleryImages(messages);
    if !ShowsNoImagesText(messages) {
      assert r[0] in messages;
    } else {
      forall i | 0 <= i < |messages| ensures messages[i].imageUrl.None? {
        assert messages[i] !in r;
      }
    }
  }

  /** A member row's label. */
  function MemberLabel(plan: Plan, userId: string): (caption: string)
    ensures caption == "Host" <==> userId == plan.hostId
    ensures caption == "Member" <==> userId != plan.hostId
  {
    if userId == plan.hostId then "Host" else "Member"
  }

  /** The member rows: one per entry of `participants`, duplicates included. */
  function MemberRows(plan: Plan): (rows: seq<(string, string)>)
    ensures |rows| == |plan.participants|
    ensures forall i :: 0 <= i < |rows| ==>
      rows[i].0 == plan.participants[i] && (rows[i].1 == "Host" <==> plan.participants[i] == plan.hostId)
  {
    seq(|plan.participants|, i requires 0 <= i < |plan.participants| =>
      (plan.participants[i], MemberLabel(plan, plan.participants[i])))
  }

  /** The count in the members header. */
  function MemberCount(plan: Plan): (n: nat)
    ensures n == |MemberRows(plan)|
  {
    |plan.participants|
  }

  /** A freshly created plan lists one member, its host, labelled "Host". */
  lemma NewPlanMembers(plan: Plan)
    requires plan.participants == [plan.hostId]
    ensures MemberCount(plan) == 1 && MemberRows(plan) == [(plan.hostId, "Host")]
  {
    assert MemberRows(plan)[0] == (plan.hostId, "Host");
  }
}
