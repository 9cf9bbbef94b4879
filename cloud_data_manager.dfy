/**
 * The cloud sync manager: the published arrays the screens observe, how the
 * store's live listeners overwrite them, and what each write does to the
 * store and to the local arrays. The store, the signed-in user id and the
 * outcome of each write (`online`) are explicit; a write's completion
 * handler runs as part of the same call.
 */
module Cloud {
  import opened Wrappers
  import opened Seqs
  import opened LocationStatusModel
  import opened Models
  import opened Store

  // ---------- listener decoding ----------

  /** A spot as the document it would be stored as. */
  function AsDocument(l: Location): SpotDocument {
    SpotDocument(l.id.uuidString, EncodeLocation(l))
  }

  function AsDocuments(ls: seq<Location>): (r: seq<SpotDocument>)
    ensures |r| == |ls| && forall i :: 0 <= i < |ls| ==> r[i] == AsDocument(ls[i])
  {
    if ls == [] then [] else [AsDocument(ls[0])] + AsDocuments(ls[1..])
  }

  /**
   * The spots listener's result: `compactMap` decoding, then dropping the
   * spots whose id string is hidden.
   */
  function VisibleSpots(docs: seq<SpotDocument>, hidden: seq<string>): (r: seq<Location>)
    ensures forall l :: l in r <==>
      (exists d :: d in docs && DecodeLocation(d) == Some(l)) && l.id.uuidString !in hidden
    ensures IsSubsequence(AsDocuments(r), docs)
  {
    if docs == [] then []
    else
      var rest := VisibleSpots(docs[1..], hidden);
      assert docs == [docs[0]] + docs[1..];
      match DecodeLocation(docs[0])
      case Some(l) =>
        if l.id.uuidString !in hidden then
          assert AsDocuments([l] + rest) == [docs[0]] + AsDocuments(rest);
          [l] + rest
        else rest
      case None => rest
  }

  /** Every element wrapped in `Some`: how a decoded list sits inside its snapshot. */
  function AsOptions<T>(s: seq<T>): (r: seq<Option<T>>)
    ensures |r| == |s| && forall i :: 0 <= i < |s| ==> r[i] == Some(s[i])
  {
    if s == [] then [] else [Some(s[0])] + AsOptions(s[1..])
  }

  /**
   * `compactMap` over a snapshot whose documents are already decoded (None
   * where decoding failed): every decoded value, as often as it occurs, in
   * snapshot order. The chat and plans listeners both run it.
   */
  function CompactMap<T(==,!new)>(docs: seq<Option<T>>): (r: seq<T>)
    ensures forall x :: x in r <==> Some(x) in docs
    ensures forall x :: multiset(r)[x] == multiset(docs)[Some(x)]
    ensures IsSubsequence(AsOptions(r), docs)
    ensures |r| <= |docs|
  {
    if docs == [] then []
    else
      var rest := CompactMap(docs[1..]);
      var r := if docs[0].Some? then [docs[0].value] + rest else rest;
      assert docs == [docs[0]] + docs[1..];
      ConsCounts(docs[0], docs[1..], rest);
      CountsGiveMembers(r, docs);
      if docs[0].Some? then
        assert AsOptions(r) == [docs[0]] + AsOptions(rest);
        SubsequenceCons(docs[0], AsOptions(rest), docs[1..]);
        r
      else
        SubsequenceSkip(docs[0], AsOptions(rest), docs[1..]);
        r
  }

  /** One more document adds its decoded value, if any, to the counts. */
  lemma ConsCounts<T(!new)>(d: Option<T>, tail: seq<Option<T>>, rest: seq<T>)
    requires forall x :: multiset(rest)[x] == multiset(tail)[Some(x)]
    ensures var r := if d.Some? then [d.value] + rest else rest;
      forall x :: multiset(r)[x] == multiset([d] + tail)[Some(x)]
  {
    assert multiset([d] + tail) == multiset{d} + multiset(tail);
    if d.Some? {
      assert multiset([d.value] + rest) == multiset{d.value} + multiset(rest);
    }
  }

  /** Equal counts give equal membership. */
  lemma CountsGiveMembers<T(!new)>(r: seq<T>, docs: seq<Option<T>>)
    requires forall x :: multiset(r)[x] == multiset(docs)[Some(x)]
    ensures forall x :: x in r <==> Some(x) in docs
  {
    forall x ensures x in r <==> Some(x) in docs {
      assert x in r <==> x in multiset(r);
      assert Some(x) in docs <==> Some(x) in multiset(docs);
    }
  }

  /** A common first element extends a subsequence. */
  lemma SubsequenceCons<T>(x: T, a: seq<T>, b: seq<T>)
    requires IsSubsequence(a, b)
    ensures IsSubsequence([x] + a, [x] + b)
  {
    assert ([x] + a)[1..] == a && ([x] + b)[1..] == b;
  }

  /** A first element that cannot start `a` can be put in front of `b`. */
  lemma SubsequenceSkip<T>(x: T, a: seq<T>, b: seq<T>)
    requires IsSubsequence(a, b) && (a == [] || a[0] != x)
    ensures IsSubsequence(a, [x] + b)
  {
    assert ([x] + b)[1..] == b;
  }

  /** The messages present in a snapshot appear in ascending timestamp order. */
  predicate TimestampsInOrder(docs: seq<Option<ChatMessage>>) {
    forall i, j :: 0 <= i < j < |docs| && docs[i].Some? && docs[j].Some? ==>
      docs[i].value.timestamp <= docs[j].value.timestamp
  }

  /** Dropping undecodable documents keeps an ordered snapshot ordered. */
  lemma {:induction false} DecodedMessagesSorted(docs: seq<Option<ChatMessage>>)
    requires TimestampsInOrder(docs)
    ensures SortedBy(CompactMap(docs), (m: ChatMessage) => m.timestamp)
  {
    if docs != [] {
      var tail := docs[1..];
      assert TimestampsInOrder(tail) by {
        forall i, j | 0 <= i < j < |tail| && tail[i].Some? && tail[j].Some?
          ensures tail[i].value.timestamp <= tail[j].value.timestamp
        {
          assert tail[i] == docs[i + 1] && tail[j] == docs[j + 1];
        }
      }
      DecodedMessagesSorted(tail);
      if docs[0].Some? {
        HeadNoLaterThanRest(docs);
        var r := CompactMap(docs);
        assert r == [docs[0].value] + CompactMap(tail);
      }
    }
  }

  /** In an ordered snapshot the first message is no later than any decoded after it. */
  lemma HeadNoLaterThanRest(docs: seq<Option<ChatMessage>>)
    requires TimestampsInOrder(docs) && docs != [] && docs[0].Some?
    ensures forall m :: m in CompactMap(docs[1..]) ==> docs[0].value.timestamp <= m.timestamp
  {
    forall m | m in CompactMap(docs[1..]) ensures docs[0].value.timestamp <= m.timestamp {
      var k :| 0 <= k < |docs[1..]| && docs[1..][k] == Some(m);
      assert docs[k + 1] == Some(m);
    }
  }

  /**
   * What the chat query delivers: the plan's messages ordered by ascending
   * timestamp (ties in an unspecified order).
   */
  function ChatQuery(messages: seq<ChatMessage>): (r: seq<Option<ChatMessage>>)
    ensures |r| == |messages| && forall i :: 0 <= i < |r| ==> r[i].Some?
  {
    var sorted := SortBy(messages, (m: ChatMessage) => m.timestamp);
    assert |sorted| == |multiset(sorted)| == |multiset(messages)| == |messages|;
    seq(|sorted|, i requires 0 <= i < |sorted| => Some(sorted[i]))
  }

  /** A chat snapshot of the stored messages lists them all, in timestamp order. */
  lemma ChatSnapshotOfStore(messages: seq<ChatMessage>)
    ensures var r := CompactMap(ChatQuery(messages));
      SortedBy(r, (m: ChatMessage) => m.timestamp) && multiset(r) == multiset(messages)
  {
    var sorted := SortBy(messages, (m: ChatMessage) => m.timestamp);
    var docs := ChatQuery(messages);
    assert forall i :: 0 <= i < |docs| ==> docs[i] == Some(sorted[i]);
    SomesDecode(sorted, docs);
  }

  lemma {:induction false} SomesDecode(ms: seq<ChatMessage>, docs: seq<Option<ChatMessage>>)
    requires |docs| == |ms| && forall i :: 0 <= i < |ms| ==> docs[i] == Some(ms[i])
    ensures CompactMap(docs) == ms
  {
    if ms != [] {
      SomesDecode(ms[1..], docs[1..]);
    }
  }

  /** One plan document as the listener reads it: decoded, then given the document's id. */
  function Stamped(d: PlanDocument): (r: Option<Plan>)
    ensures r.Some? <==> d.data.Some?
    ensures r.Some? ==> r.value.id == Some(d.documentId)
  {
    match d.data
    case Some(p) => Some(p.(id := Some(d.documentId)))
    case None => None
  }

  function StampedAll(docs: seq<PlanDocument>): (r: seq<Option<Plan>>)
    ensures |r| == |docs| && forall i :: 0 <= i < |docs| ==> r[i] == Stamped(docs[i])
  {
    if docs == [] then [] else [Stamped(docs[0])] + StampedAll(docs[1..])
  }

  /**
   * The plans listener: every decodable plan, stamped with its document id,
   * as often as it occurs, in snapshot order.
   */
  function DecodedPlans(docs: seq<PlanDocument>): (r: seq<Plan>)
    ensures |r| <= |docs|
    ensures forall p :: p in r <==> exists i :: (0 <= i < |docs| && docs[i].data.Some? &&
      p == docs[i].data.value.(id := Some(docs[i].documentId)))
    ensures forall p :: p in r ==> p.id.Some?
    ensures forall p :: multiset(r)[p] == multiset(StampedAll(docs))[Some(p)]
    ensures IsSubsequence(AsOptions(r), StampedAll(docs))
  {
    var stamped := StampedAll(docs);
    var r := CompactMap(stamped);
    assert forall p :: p in r <==> exists i :: 0 <= i < |stamped| && stamped[i] == Some(p);
    r
  }

  /** The local spots left after `removeAll { $0.id.uuidString == spotId }`. */
  function WithoutSpot(locations: seq<Location>, spotId: string): (r: seq<Location>)
    ensures forall l :: l in r <==> l in locations && l.id.uuidString != spotId
    ensures IsSubsequence(r, locations)
  {
    Filter(locations, (l: Location) => l.id.uuidString != spotId)
  }

  // ---------- store writes ----------

  /** `incrementStat(field:amount:)` when it reaches the store. */
  function StatIncremented(st: Store, uid: string, field: string, amount: int): (r: Store)
    ensures r.spots == st.spots && r.plans == st.plans && r.messages == st.messages
    ensures r.users.Keys == st.users.Keys
    ensures uid in st.users ==> IntOr(r.users[uid], field, 0) == IntOr(st.users[uid], field, 0) + amount
    ensures forall u :: u in st.users && u != uid ==> r.users[u] == st.users[u]
  {
    if uid in st.users then st.(users := st.users[uid := IncrementField(st.users[uid], field, amount)])
    else st  // updateData on a missing document fails
  }

  /** `updateStatus`'s document update: only the status string and the time change. */
  function StatusWritten(st: Store, spotId: string, status: LocationStatus, now: int): (r: Store)
    ensures r.users == st.users && r.plans == st.plans && r.messages == st.messages
    ensures r.spots.Keys == st.spots.Keys
    ensures forall k :: k in st.spots && k != spotId ==> r.spots[k] == st.spots[k]
    ensures spotId in st.spots ==>
      var d := DecodeLocation(SpotDocument(spotId, r.spots[spotId]));
      && d.Some? && d.value.currentStatus == status && d.value.lastUpdate == now
      && d.value.name == st.spots[spotId].name && d.value.category == st.spots[spotId].category
      && d.value.coordinate == st.spots[spotId].coordinate
  {
    if spotId in st.spots then
      RawValueRoundTrip(status);
      st.(spots := st.spots[spotId := st.spots[spotId].(currentStatus := RawValue(status), lastUpdate := now)])
    else st
  }

  /** A user-document `arrayUnion` on one of its id lists. */
  function UserListUnion(st: Store, uid: string, field: string, x: string): (r: Store)
    ensures r.spots == st.spots && r.plans == st.plans && r.messages == st.messages
    ensures r.users.Keys == st.users.Keys
    ensures forall u :: u in st.users && u != uid ==> r.users[u] == st.users[u]
    ensures uid in st.users ==>
      && StringListField(r.users[uid], field).Some?
      && x in StringListField(r.users[uid], field).value
      && r.users[uid].Keys == st.users[uid].Keys + {field}
      && forall k :: k in st.users[uid] && k != field ==> r.users[uid][k] == st.users[uid][k]
  {
    if uid in st.users then st.(users := st.users[uid := UnionIntoField(st.users[uid], field, x)])
    else st
  }

  /** Set-adding an id that is already listed leaves the store as it is. */
  lemma UserListUnionIdempotent(st: Store, uid: string, field: string, x: string)
    ensures UserListUnion(UserListUnion(st, uid, field, x), uid, field, x) == UserListUnion(st, uid, field, x)
  {
    if uid in st.users {
      var once := UserListUnion(st, uid, field, x);
      var items := StringListField(once.users[uid], field).value;
      assert ArrayUnion(items, x) == items;
      assert once.users[uid][field := StrList(items)] == once.users[uid];
    }
  }

  /** `joinPlan`'s `arrayUnion` on the participants. */
  function Joined(st: Store, planId: string, uid: string): (r: Store)
    ensures r.spots == st.spots && r.users == st.users && r.messages == st.messages
    ensures r.plans.Keys == st.plans.Keys
    ensures forall k :: k in st.plans && k != planId ==> r.plans[k] == st.plans[k]
    ensures planId in st.plans ==>
      && r.plans[planId] == st.plans[planId].(participants := r.plans[planId].participants)
      && forall u :: u in r.plans[planId].participants <==> u in st.plans[planId].participants || u == uid
  {
    if planId in st.plans then
      st.(plans := st.plans[planId := st.plans[planId].(participants := ArrayUnion(st.plans[planId].participants, uid))])
    else st
  }

  /** `leavePlan`'s `arrayRemove` on the participants. */
  function Left(st: Store, planId: string, uid: string): (r: Store)
    ensures r.spots == st.spots && r.users == st.users && r.messages == st.messages
    ensures r.plans.Keys == st.plans.Keys
    ensures forall k :: k in st.plans && k != planId ==> r.plans[k] == st.plans[k]
    ensures planId in st.plans ==>
      && r.plans[planId] == st.plans[planId].(participants := r.plans[planId].participants)
      && forall u :: u in r.plans[planId].participants <==> u in st.plans[planId].participants && u != uid
  {
    if planId in st.plans then
      st.(plans := st.plans[planId := st.plans[planId].(participants := ArrayRemove(st.plans[planId].participants, uid))])
    else st
  }

  /** Joining a full plan still succeeds: there is no capacity check. */
  lemma JoinIgnoresCapacity(st: Store, planId: string, uid: string)
    requires planId in st.plans
    requires |st.plans[planId].participants| >= st.plans[planId].maxParticipants
    requires uid !in st.plans[planId].participants
    ensures |Joined(st, planId, uid).plans[planId].participants| > st.plans[planId].maxParticipants
  {
  }

  /** A member who leaves and joins again is a member; one who joins and leaves is not. */
  lemma JoinLeaveMembership(st: Store, planId: string, uid: string)
    requires planId in st.plans
    ensures uid in Joined(Left(st, planId, uid), planId, uid).plans[planId].participants
    ensures uid !in Left(Joined(st, planId, uid), planId, uid).plans[planId].participants
  {
  }

  /** The host can leave their own plan: nothing keeps the host a member. */
  lemma HostCanLeave(st: Store, planId: string)
    requires planId in st.plans
    ensures st.plans[planId].hostId !in Left(st, planId, st.plans[planId].hostId).plans[planId].participants
  {
  }

  /** `addDocument` under the store-chosen `docId`, or an appended chat message. */
  function MessageAdded(st: Store, planId: string, m: ChatMessage): (r: Store)
    ensures r.spots == st.spots && r.users == st.users && r.plans == st.plans
    ensures planId in r.messages
    ensures r.messages[planId] == (if planId in st.messages then st.messages[planId] else []) + [m]
    ensures forall p :: p in st.messages && p != planId ==> p in r.messages && r.messages[p] == st.messages[p]
  {
    st.(messages := st.messages[planId := (if planId in st.messages then st.messages[planId] else []) + [m]])
  }

  class CloudDataManager {
    var locations: seq<Location>
    var activePlans: seq<Plan>
    var currentChatMessages: seq<ChatMessage>
    var hiddenSpotIds: seq<string>
    var blockedUserIds: seq<string>
    /** The remote store, as this device would read it back. */
    var store: Store
    /** `Auth.auth().currentUser?.uid`. */
    var currentUid: Option<string>
    /** The plan whose messages the chat listener follows, once started. */
    var chatPlanId: Option<string>

    constructor (initial: Store, uid: Option<string>)
      ensures locations == [] && activePlans == [] && currentChatMessages == []
      ensures hiddenSpotIds == [] && blockedUserIds == []
      ensures store == initial && currentUid == uid && chatPlanId == None
    {
      locations := [];
      activePlans := [];
      currentChatMessages := [];
      hiddenSpotIds := [];
      blockedUserIds := [];
      store := initial;
      currentUid := uid;
      chatPlanId := None;
    }

    // ---------- listener callbacks ----------

    /**
     * The user-document listener of `startListening`: replaces the hidden
     * ids when the document has a string-array `hiddenSpots`; the current
     * `locations` are not re-filtered.
     */
    method OnUserDocument(doc: Option<Fields>)
      modifies this
      ensures hiddenSpotIds ==
        if doc.Some? && StringListField(doc.value, "hiddenSpots").Some?
        then StringListField(doc.value, "hiddenSpots").value else old(hiddenSpotIds)
      ensures locations == old(locations) && blockedUserIds == old(blockedUserIds)
      ensures activePlans == old(activePlans) && currentChatMessages == old(currentChatMessages)
      ensures store == old(store) && currentUid == old(currentUid) && chatPlanId == old(chatPlanId)
    {
      if doc.Some? {
        var hidden := StringListField(doc.value, "hiddenSpots");
        if hidden.Some? {
          hiddenSpotIds := hidden.value;
        }
      }
    }

    /** The spots listener: decodable, non-hidden spots in snapshot order. */
    method OnSpotsSnapshot(docs: Option<seq<SpotDocument>>)
      modifies this
      ensures locations == if docs.Some? then VisibleSpots(docs.value, hiddenSpotIds) else old(locations)
      ensures docs.Some? ==> forall l :: l in locations ==> l.id.uuidString !in hiddenSpotIds
      ensures hiddenSpotIds == old(hiddenSpotIds) && blockedUserIds == old(blockedUserIds)
      ensures activePlans == old(activePlans) && currentChatMessages == old(currentChatMessages)
      ensures store == old(store) && currentUid == old(currentUid) && chatPlanId == old(chatPlanId)
    {
      if docs.Some? {
        locations := VisibleSpots(docs.value, hiddenSpotIds);
      }
    }

    /** The `listenForPlans` listener: the decodable plans, ids from their documents. */
    method OnPlansSnapshot(docs: Option<seq<PlanDocument>>)
      modifies this
      ensures activePlans == if docs.Some? then DecodedPlans(docs.value) else old(activePlans)
      ensures locations == old(locations) && hiddenSpotIds == old(hiddenSpotIds)
      ensures blockedUserIds == old(blockedUserIds) && currentChatMessages == old(currentChatMessages)
      ensures store == old(store) && currentUid == old(currentUid) && chatPlanId == old(chatPlanId)
    {
      if docs.Some? {
        activePlans := DecodedPlans(docs.value);
      }
    }

    /** `listenToChat(planId:)`: start following one plan's messages. */
    method ListenToChat(planId: string)
      modifies this
      ensures chatPlanId == Some(planId)
      ensures locations == old(locations) && hiddenSpotIds == old(hiddenSpotIds)
      ensures blockedUserIds == old(blockedUserIds) && activePlans == old(activePlans)
      ensures currentChatMessages == old(currentChatMessages)
      ensures store == old(store) && currentUid == old(currentUid)
    {
      chatPlanId := Some(planId);
    }

    /** The chat listener: replaces the whole message list with the decodable messages. */
    method OnChatSnapshot(docs: Option<seq<Option<ChatMessage>>>)
      modifies this
      ensures currentChatMessages == if docs.Some? then CompactMap(docs.value) else old(currentChatMessages)
      ensures locations == old(locations) && hiddenSpotIds == old(hiddenSpotIds)
      ensures blockedUserIds == old(blockedUserIds) && activePlans == old(activePlans)
      ensures store == old(store) && currentUid == old(currentUid) && chatPlanId == old(chatPlanId)
    {
      if docs.Some? {
        currentChatMessages := CompactMap(docs.value);
      }
    }

    /** The `listenForBlockedUsers` listener. */
    method OnBlockedUsersDocument(doc: Option<Fields>)
      modifies this
      ensures blockedUserIds ==
        if doc.Some? && StringListField(doc.value, "blockedUsers").Some?
        then StringListField(doc.value, "blockedUsers").value else old(blockedUserIds)
      ensures locations == old(locations) && hiddenSpotIds == old(hiddenSpotIds)
      ensures activePlans == old(activePlans) && currentChatMessages == old(currentChatMessages)
      ensures store == old(store) && currentUid == old(currentUid) && chatPlanId == old(chatPlanId)
    {
      if doc.Some? {
        var blocked := StringListField(doc.value, "blockedUsers");
        if blocked.Some? {
          blockedUserIds := blocked.value;
        }
      }
    }

    // ---------- writes ----------

    /** `incrementStat(field:amount:)`: a no-op when signed out. */
    method IncrementStat(field: string, amount: int, online: bool)
      modifies this
      ensures store == if currentUid.Some? && online then StatIncremented(old(store), currentUid.value, field, amount) else old(store)
      ensures locations == old(locations) && hiddenSpotIds == old(hiddenSpotIds)
      ensures blockedUserIds == old(blockedUserIds) && activePlans == old(activePlans)
      ensures currentChatMessages == old(currentChatMessages)
      ensures currentUid == old(currentUid) && chatPlanId == old(chatPlanId)
    {
      if currentUid.Some? && online {
        store := StatIncremented(store, currentUid.value, field, amount);
      }
    }

    /** `addLocation`: store the spot under its id and count one more spot added; no points. */
    method AddLocation(l: Location, online: bool)
      modifies this
      ensures var written := if online then old(store).(spots := old(store).spots[l.id.uuidString := EncodeLocation(l)]) else old(store);
        store == if currentUid.Some? && online then StatIncremented(written, currentUid.value, "spotsAdded", 1) else written
      ensures locations == old(locations) && hiddenSpotIds == old(hiddenSpotIds)
      ensures blockedUserIds == old(blockedUserIds) && activePlans == old(activePlans)
      ensures currentChatMessages == old(currentChatMessages)
      ensures currentUid == old(currentUid) && chatPlanId == old(chatPlanId)
    {
      if online {
        store := store.(spots := store.spots[l.id.uuidString := EncodeLocation(l)]);
      }
      IncrementStat("spotsAdded", 1, online);
    }

    /** `updateStatus(for:newStatus:)`: rewrite the spot's status and time, then award 10 points. */
    method UpdateStatus(l: Location, newStatus: LocationStatus, now: int, online: bool)
      modifies this
      ensures var written := if online then StatusWritten(old(store), l.id.uuidString, newStatus, now) else old(store);
        store == if currentUid.Some? && online then StatIncremented(written, currentUid.value, "points", 10) else written
      ensures locations == old(locations) && hiddenSpotIds == old(hiddenSpotIds)
      ensures blockedUserIds == old(blockedUserIds) && activePlans == old(activePlans)
      ensures currentChatMessages == old(currentChatMessages)
      ensures currentUid == old(currentUid) && chatPlanId == old(chatPlanId)
    {
      if online {
        store := StatusWritten(store, l.id.uuidString, newStatus, now);
      }
      IncrementStat("points", 10, online);
    }

    /** `deleteLocation`: removes the document for every viewer. */
    method DeleteLocation(l: Location, online: bool)
      modifies this
      ensures store == if online then old(store).(spots := old(store).spots - {l.id.uuidString}) else old(store)
      ensures l.id.uuidString !in store.spots || !online
      ensures locations == old(locations) && hiddenSpotIds == old(hiddenSpotIds)
      ensures blockedUserIds == old(blockedUserIds) && activePlans == old(activePlans)
      ensures currentChatMessages == old(currentChatMessages)
      ensures currentUid == old(currentUid) && chatPlanId == old(chatPlanId)
    {
      if online {
        store := store.(spots := store.spots - {l.id.uuidString});
      }
    }

    /**
     * `hideLocation(spotId:)`: set-adds the id to the user's hidden list and,
     * once that write succeeds, drops the spot from the local list.
     */
    method HideLocation(spotId: string, online: bool)
      modifies this
      ensures var ok := old(currentUid).Some? && online && old(currentUid).value in old(store).users;
        && store == (if ok then UserListUnion(old(store), old(currentUid).value, "hiddenSpots", spotId) else old(store))
        && locations == (if ok then WithoutSpot(old(locations), spotId) else old(locations))
      ensures currentUid.None? ==> store == old(store) && locations == old(locations)
      ensures hiddenSpotIds == old(hiddenSpotIds) && blockedUserIds == old(blockedUserIds)
      ensures activePlans == old(activePlans) && currentChatMessages == old(currentChatMessages)
      ensures currentUid == old(currentUid) && chatPlanId == old(chatPlanId)
    {
      if currentUid.None? {
        return;
      }
      var ok := online && currentUid.value in store.users;
      if ok {
        store := UserListUnion(store, currentUid.value, "hiddenSpots", spotId);
        locations := WithoutSpot(locations, spotId);
      }
    }

    /** `createPlan`: `addDocument` under the id the store picks. */
    method CreatePlan(plan: Plan, docId: string, online: bool)
      requires docId !in store.plans
      modifies this
      ensures store == if online then old(store).(plans := old(store).plans[docId := plan]) else old(store)
      ensures locations == old(locations) && hiddenSpotIds == old(hiddenSpotIds)
      ensures blockedUserIds == old(blockedUserIds) && activePlans == old(activePlans)
      ensures currentChatMessages == old(currentChatMessages)
      ensures currentUid == old(currentUid) && chatPlanId == old(chatPlanId)
    {
      if online {
        store := store.(plans := store.plans[docId := plan]);
      }
    }

    /** `joinPlan`: set-adds the user; no-op when signed out or the plan has no id. */
    method JoinPlan(plan: Plan, online: bool)
      modifies this
      ensures store == if currentUid.Some? && plan.id.Some? && online
                       then Joined(old(store), plan.id.value, currentUid.value) else old(store)
      ensures locations == old(locations) && hiddenSpotIds == old(hiddenSpotIds)
      ensures blockedUserIds == old(blockedUserIds) && activePlans == old(activePlans)
      ensures currentChatMessages == old(currentChatMessages)
      ensures currentUid == old(currentUid) && chatPlanId == old(chatPlanId)
    {
      if currentUid.None? || plan.id.None? {
        return;
      }
      if online {
        store := Joined(store, plan.id.value, currentUid.value);
      }
    }

    /** `leavePlan`: set-removes the user; no-op when signed out or the plan has no id. */
    method LeavePlan(plan: Plan, online: bool)
      modifies this
      ensures store == if currentUid.Some? && plan.id.Some? && online
                       then Left(old(store), plan.id.value, currentUid.value) else old(store)
      ensures locations == old(locations) && hiddenSpotIds == old(hiddenSpotIds)
      ensures blockedUserIds == old(blockedUserIds) && activePlans == old(activePlans)
      ensures currentChatMessages == old(currentChatMessages)
      ensures currentUid == old(currentUid) && chatPlanId == old(chatPlanId)
    {
      if currentUid.None? || plan.id.None? {
        return;
      }
      if online {
        store := Left(store, plan.id.value, currentUid.value);
      }
    }

    /** `deletePlan`: removes the plan document when the plan has an id. */
    method DeletePlan(plan: Plan, online: bool)
      modifies this
      ensures store == if plan.id.Some? && online then old(store).(plans := old(store).plans - {plan.id.value}) else old(store)
      ensures locations == old(locations) && hiddenSpotIds == old(hiddenSpotIds)
      ensures blockedUserIds == old(blockedUserIds) && activePlans == old(activePlans)
      ensures currentChatMessages == old(currentChatMessages)
      ensures currentUid == old(currentUid) && chatPlanId == old(chatPlanId)
    {
      if plan.id.Some? && online {
        store := store.(plans := store.plans - {plan.id.value});
      }
    }

    /** `sendMessage(planId:text:)`: appends a text message from the signed-in user. */
    method SendMessage(planId: string, text: string, senderName: string, now: int, messageId: Uuid, online: bool)
      modifies this
      ensures store == if currentUid.Some? && online
        then MessageAdded(old(store), planId, ChatMessage(Some(messageId.uuidString), currentUid.value, senderName, text, now, None))
        else old(store)
      ensures locations == old(locations) && hiddenSpotIds == old(hiddenSpotIds)
      ensures blockedUserIds == old(blockedUserIds) && activePlans == old(activePlans)
      ensures currentChatMessages == old(currentChatMessages)
      ensures currentUid == old(currentUid) && chatPlanId == old(chatPlanId)
    {
      if currentUid.None? {
        return;
      }
      var msg := ChatMessage(Some(messageId.uuidString), currentUid.value, senderName, text, now, None);
      if online {
        store := MessageAdded(store, planId, msg);
      }
    }

    /**
     * `sendImageMessage(planId:image:)`: appends an image message whose text
     * is the fallback "Sent an image"; nothing is sent when the image does not
     * encode.
     */
    method SendImageMessage(planId: string, image: Image, senderName: string, now: int, messageId: Uuid, online: bool)
      modifies this
      ensures store == if currentUid.Some? && image.jpegBase64.Some? && online
        then MessageAdded(old(store), planId,
               ChatMessage(Some(messageId.uuidString), currentUid.value, senderName, "Sent an image", now, image.jpegBase64))
        else old(store)
      ensures locations == old(locations) && hiddenSpotIds == old(hiddenSpotIds)
      ensures blockedUserIds == old(blockedUserIds) && activePlans == old(activePlans)
      ensures currentChatMessages == old(currentChatMessages)
      ensures currentUid == old(currentUid) && chatPlanId == old(chatPlanId)
    {
      if currentUid.None? || image.jpegBase64.None? {
        return;
      }
      var msg := ChatMessage(Some(messageId.uuidString), currentUid.value, senderName, "Sent an image", now, image.jpegBase64);
      if online {
        store := MessageAdded(store, planId, msg);
      }
    }

    /**
     * `blockUser(uidToBlock:)`: set-adds the id in the store, and appends it
     * to the local list whatever the write's outcome.
     */
    method BlockUser(uidToBlock: string, online: bool)
      modifies this
      ensures store == if currentUid.Some? && online
                       then UserListUnion(old(store), currentUid.value, "blockedUsers", uidToBlock) else old(store)
      ensures blockedUserIds == if currentUid.Some? then old(blockedUserIds) + [uidToBlock] else old(blockedUserIds)
      ensures locations == old(locations) && hiddenSpotIds == old(hiddenSpotIds)
      ensures activePlans == old(activePlans) && currentChatMessages == old(currentChatMessages)
      ensures currentUid == old(currentUid) && chatPlanId == old(chatPlanId)
    {
      if currentUid.None? {
        return;
      }
      if online {
        store := UserListUnion(store, currentUid.value, "blockedUsers", uidToBlock);
      }
      blockedUserIds := blockedUserIds + [uidToBlock];
    }

    /**
     * `fetchAnyUserProfile(uid:completion:)`: the user's stored fields, or
     * a stand-in profile when the document cannot be read.
     */
    function FetchAnyUserProfile(uid: string, online: bool): (data: Fields)
      reads this
      ensures online && uid in store.users ==> data == store.users[uid]
      ensures !(online && uid in store.users) ==>
        && StringField(data, "name") == Some("Unknown User") && StringField(data, "bio") == Some("No Bio")
        && "location" !in data && "points" !in data
    {
      if online && uid in store.users then store.users[uid]
      else map["name" := Str("Unknown User"), "bio" := Str("No Bio")]
    }

    /** `binding(for:)`: the index the binding reads and writes, if any. */
    function Binding(id: Uuid): (r: Option<nat>)
      reads this
      ensures r.None? <==> forall i :: 0 <= i < |locations| ==> locations[i].id != id
      ensures r.Some? ==> r.value < |locations| && locations[r.value].id == id
      ensures r.Some? ==> forall j :: 0 <= j < r.value ==> locations[j].id != id
    {
      FirstIndexOf(locations, id)
    }
  }

  /**
   * Blocking the same user twice: the local list holds the id twice while
   * the stored list holds it once.
   */
  method BlockSameUserTwice(me: string, other: string) returns (local: seq<string>, stored: seq<string>)
    ensures local == [other, other]
    ensures stored == [other]
  {
    var users: map<string, Fields> := map[me := map[]];
    var manager := new CloudDataManager(Store(map[], users, map[], map[]), Some(me));
    manager.BlockUser(other, true);
    manager.BlockUser(other, true);
    local := manager.blockedUserIds;
    stored := StringListField(manager.store.users[me], "blockedUsers").value;
  }
}
