/**
 * The remote document store, as an in-memory value. User documents are
 * untyped field maps (the app reads them with `as?` casts); spots, plans and
 * chat messages are typed documents. `arrayUnion`, `arrayRemove` and
 * `increment` are the store's atomic field updates.
 */
module Store {
  import opened Wrappers
  import opened Seqs
  import opened LocationStatusModel
  import opened Models

  /** A field value of an untyped document. */
  datatype Value = Str(s: string) | Int(i: int) | StrList(items: seq<string>) | Other

  type Fields = map<string, Value>

  /** `data[key] as? String`. */
  function StringField(data: Fields, key: string): (r: Option<string>)
    ensures r.Some? <==> key in data && data[key].Str?
  {
    if key in data && data[key].Str? then Some(data[key].s) else None
  }

  /** `data[key] as? Int`. */
  function IntField(data: Fields, key: string): (r: Option<int>)
    ensures r.Some? <==> key in data && data[key].Int?
  {
    if key in data && data[key].Int? then Some(data[key].i) else None
  }

  /** `data[key] as? [String]`. */
  function StringListField(data: Fields, key: string): (r: Option<seq<string>>)
    ensures r.Some? <==> key in data && data[key].StrList?
  {
    if key in data && data[key].StrList? then Some(data[key].items) else None
  }

  function StringOr(data: Fields, key: string, default: string): string {
    match StringField(data, key)
    case Some(s) => s
    case None => default
  }

  function IntOr(data: Fields, key: string, default: int): int {
    match IntField(data, key)
    case Some(n) => n
    case None => default
  }

  predicate NoDuplicates(a: seq<string>) {
    forall i, j :: 0 <= i < j < |a| ==> a[i] != a[j]
  }

  /** `arrayUnion([x])`: append `x` unless it is already an element. */
  function ArrayUnion(a: seq<string>, x: string): (r: seq<string>)
    ensures forall y :: y in r <==> y in a || y == x
    ensures a <= r
    ensures NoDuplicates(a) ==> NoDuplicates(r)
  {
    if x in a then a else a + [x]
  }

  /** `arrayRemove([x])`: drop every occurrence of `x`. */
  function ArrayRemove(a: seq<string>, x: string): (r: seq<string>)
    ensures forall y :: y in r <==> y in a && y != x
    ensures IsSubsequence(r, a)
  {
    Filter(a, (y: string) => y != x)
  }

  /** Adding an element that is already present changes nothing. */
  lemma ArrayUnionIdempotent(a: seq<string>, x: string)
    ensures ArrayUnion(ArrayUnion(a, x), x) == ArrayUnion(a, x)
    ensures x in ArrayUnion(a, x)
  {
  }

  /** After union the element occurs exactly once, however often it was added. */
  lemma ArrayUnionOnce(a: seq<string>, x: string)
    requires NoDuplicates(a)
    ensures multiset(ArrayUnion(a, x))[x] == 1
  {
    if x in a {
      var i :| 0 <= i < |a| && a[i] == x;
      MultiplicityOfDistinct(a, i);
    } else {
      assert multiset(a)[x] == 0;
    }
  }

  lemma {:induction false} MultiplicityOfDistinct(a: seq<string>, i: nat)
    requires NoDuplicates(a) && i < |a|
    ensures multiset(a)[a[i]] == 1
  {
    if i == 0 {
      assert a == [a[0]] + a[1..];
      assert a[0] !in a[1..];
    } else {
      assert a == [a[0]] + a[1..];
      assert a[1..][i - 1] == a[i];
      MultiplicityOfDistinct(a[1..], i - 1);
    }
  }

  /** `updateData([field: arrayUnion([x])])`; a non-array field is replaced. */
  function UnionIntoField(doc: Fields, field: string, x: string): (r: Fields)
    ensures r.Keys == doc.Keys + {field}
    ensures forall k :: k in doc && k != field ==> r[k] == doc[k]
    ensures r[field].StrList? && x in r[field].items
  {
    match StringListField(doc, field)
    case Some(items) => doc[field := StrList(ArrayUnion(items, x))]
    case None => doc[field := StrList([x])]
  }

  /** `updateData([field: arrayRemove([x])])`; a non-array field becomes empty. */
  function RemoveFromField(doc: Fields, field: string, x: string): (r: Fields)
    ensures r.Keys == doc.Keys + {field}
    ensures forall k :: k in doc && k != field ==> r[k] == doc[k]
    ensures r[field].StrList? && x !in r[field].items
  {
    match StringListField(doc, field)
    case Some(items) => doc[field := StrList(ArrayRemove(items, x))]
    case None => doc[field := StrList([])]
  }

  /** `updateData([field: increment(amount)])`; a missing or non-numeric field counts as 0. */
  function IncrementField(doc: Fields, field: string, amount: int): (r: Fields)
    ensures r.Keys == doc.Keys + {field}
    ensures forall k :: k in doc && k != field ==> r[k] == doc[k]
    ensures IntField(r, field) == Some(IntOr(doc, field, 0) + amount)
  {
    doc[field := Int(IntOr(doc, field, 0) + amount)]
  }

  /** A stored spot. The status is kept as its raw string. */
  datatype SpotDoc = SpotDoc(
    name: string,
    category: string,
    coordinate: Coordinate,
    currentStatus: string,
    lastUpdate: int)

  /** A spot document as a snapshot delivers it: its id and its data. */
  datatype SpotDocument = SpotDocument(documentId: string, data: SpotDoc)

  /** A plan document; `data` is None when it does not decode as a plan. */
  datatype PlanDocument = PlanDocument(documentId: string, data: Option<Plan>)

  function EncodeLocation(l: Location): SpotDoc {
    SpotDoc(l.name, l.category, l.coordinate, RawValue(l.currentStatus), l.lastUpdate)
  }

  /** `doc.data(as: Location.self)`: fails when the status string names no case. */
  function DecodeLocation(d: SpotDocument): (r: Option<Location>)
    ensures r.Some? <==> FromRawValue(d.data.currentStatus).Some?
    ensures r.Some? ==> r.value.id.uuidString == d.documentId && EncodeLocation(r.value) == d.data
  {
    match FromRawValue(d.data.currentStatus)
    case None => None
    case Some(status) =>
      Some(Location(Uuid(d.documentId), d.data.name, d.data.category, d.data.coordinate, status, d.data.lastUpdate))
  }

  /** A spot written under its id string reads back as the same spot. */
  lemma LocationRoundTrip(l: Location)
    ensures DecodeLocation(SpotDocument(l.id.uuidString, EncodeLocation(l))) == Some(l)
  {
    RawValueRoundTrip(l.currentStatus);
  }

  datatype Store = Store(
    spots: map<string, SpotDoc>,
    users: map<string, Fields>,
    plans: map<string, Plan>,
    messages: map<string, seq<ChatMessage>>)
}
