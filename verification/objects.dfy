/**
 The object layer over parsed JSON: resource identifiers, identifier collections and the
 relationship object of JSON:API 1.0 ("Document Structure", "Resource Objects",
 "Relationships" and "Resource Linkage"). A relationship's `data` member is its resource
 linkage: null (an empty to-one relationship), a single `{type, id}` object (a to-one
 relationship) or a list of such objects (a to-many relationship, possibly empty).
 */
module Objects {
  import opened Results
  import opened Json

  const TypeKey: string := "type"
  const IdKey: string := "id"
  const DataKey: string := "data"
  const MetaKey: string := "meta"

  // ---------------------------------------------------------------------------
  // Resource identifiers and identifier collections
  // ---------------------------------------------------------------------------

  /** A typed view over a parsed `{type, id}` object. */
  datatype ResourceIdentifier = ResourceIdentifier(proxy: Members)

  /** An ordered sequence of resource identifiers; `new ResourceIdentifierCollection()` is empty. */
  datatype ResourceIdentifierCollection = ResourceIdentifierCollection(identifiers: seq<ResourceIdentifier>)

  /** Building a collection fails on the first list element that is not an object. */
  datatype CollectionError = NotAnObject(index: nat)

  /** The parsed object `{"type": resourceType, "id": id}`, as the tests build their fixtures. */
  function IdentifierObject(resourceType: string, id: Value): Value
  {
    Object(map[TypeKey := Str(resourceType), IdKey := id])
  }

  predicate AllObjects(values: seq<Value>)
  {
    forall i :: 0 <= i < |values| ==> values[i].Object?
  }

  /** `ResourceIdentifierCollection::create`: wraps every element of a parsed list, in order. */
  function CreateCollection(values: seq<Value>): (r: Result<ResourceIdentifierCollection, CollectionError>)
    ensures r.Ok? <==> AllObjects(values)
    ensures r.Ok? ==> |r.value.identifiers| == |values|
    ensures r.Ok? ==> forall i :: 0 <= i < |values| ==> r.value.identifiers[i] == ResourceIdentifier(values[i].members)
    ensures r.Err? ==> r.error.index < |values| && !values[r.error.index].Object?
    ensures r.Err? ==> forall j :: 0 <= j < r.error.index ==> values[j].Object?
  {
    if |values| == 0 then
      Ok(ResourceIdentifierCollection([]))
    else if !values[0].Object? then
      Err(NotAnObject(0))
    else
      match CreateCollection(values[1..])
      case Ok(rest) => Ok(ResourceIdentifierCollection([ResourceIdentifier(values[0].members)] + rest.identifiers))
      case Err(NotAnObject(i)) => Err(NotAnObject(i + 1))
  }

  /** The parsed list a collection was built from. */
  function CollectionValues(c: ResourceIdentifierCollection): (vs: seq<Value>)
    ensures |vs| == |c.identifiers|
    ensures forall i :: 0 <= i < |vs| ==> vs[i] == Object(c.identifiers[i].proxy)
  {
    seq(|c.identifiers|, i requires 0 <= i < |c.identifiers| => Object(c.identifiers[i].proxy))
  }

  /** Creating a collection from a collection's own values rebuilds that collection. */
  lemma CollectionRoundTrip(c: ResourceIdentifierCollection)
    ensures CreateCollection(CollectionValues(c)) == Ok(c)
  {
    var r := CreateCollection(CollectionValues(c));
    assert r.Ok?;
    assert r.value.identifiers == c.identifiers;
  }

  /** A successfully created collection gives back the list it was created from. */
  lemma CollectionValuesRoundTrip(values: seq<Value>)
    requires AllObjects(values)
    ensures CreateCollection(values).Ok?
    ensures CollectionValues(CreateCollection(values).value) == values
  {
    var vs := CollectionValues(CreateCollection(values).value);
    assert forall i :: 0 <= i < |values| ==> vs[i] == values[i];
  }

  // ---------------------------------------------------------------------------
  // Relationship objects
  // ---------------------------------------------------------------------------

  /** A typed view over a parsed relationship object. */
  datatype Relationship = Relationship(proxy: Members)

  /** `new Relationship()`: a relationship over an empty object. */
  const EmptyRelationship := Relationship(map[])

  /** The resource linkage a relationship can hold, as `getData` returns it. */
  datatype Linkage =
    | NoData
    | One(identifier: ResourceIdentifier)
    | Many(collection: ResourceIdentifierCollection)

  /** `meta` and other free-form members are exposed as standard objects. */
  datatype StandardObject = StandardObject(members: Members)

  /** Runtime failures of the relationship accessors. */
  datatype RelationshipError =
    | InvalidData(data: Value)        // `data` is neither null, an object nor a list
    | InvalidElement(index: nat)      // a to-many list holds a non-object at this index
    | NoIdentifier                    // `getIdentifier` on an empty or to-many relationship
    | InvalidMeta(meta: Value)        // `meta` is present but is not an object

  /** The `data` member; a relationship without one reads as having null data. */
  function Data(r: Relationship): (v: Value)
    ensures DataKey in r.proxy ==> v == r.proxy[DataKey]
    ensures DataKey !in r.proxy ==> v == Null
  {
    MemberOrNull(r.proxy, DataKey)
  }

  /** To-one: the data is null or a single identifier object. */
  function IsHasOne(r: Relationship): (b: bool)
    ensures b <==> GetData(r).Ok? && !GetData(r).value.Many?
  {
    Data(r).Null? || Data(r).Object?
  }

  /** To-many: the data is a list. */
  function IsHasMany(r: Relationship): (b: bool)
    ensures b ==> !IsHasOne(r)
    ensures GetData(r).Ok? ==> (b <==> GetData(r).value.Many?)
    ensures b <==> (GetData(r).Ok? && GetData(r).value.Many?) || (GetData(r).Err? && GetData(r).error.InvalidElement?)
  {
    Data(r).List?
  }

  /** There is exactly one related resource. */
  function HasIdentifier(r: Relationship): (b: bool)
    ensures b <==> GetData(r).Ok? && GetData(r).value.One?
  {
    Data(r).Object?
  }

  /** `getData`: the linkage built from the `data` member. */
  function GetData(r: Relationship): (d: Result<Linkage, RelationshipError>)
    ensures Data(r).Null? ==> d == Ok(NoData)
    ensures Data(r).Object? ==> d == Ok(One(ResourceIdentifier(Data(r).members)))
    ensures Data(r).List? ==> (d.Ok? <==> AllObjects(Data(r).items))
    ensures Data(r).List? && d.Ok? ==> d.value.Many? && Ok(d.value.collection) == CreateCollection(Data(r).items)
    ensures d.Err? && Data(r).List? ==> d.error.InvalidElement? && d.error.index < |Data(r).items| && !Data(r).items[d.error.index].Object?
    ensures !(Data(r).Null? || Data(r).Object? || Data(r).List?) ==> d == Err(InvalidData(Data(r)))
  {
    match Data(r)
    case Null => Ok(NoData)
    case Object(members) => Ok(One(ResourceIdentifier(members)))
    case List(items) =>
      (match CreateCollection(items)
       case Ok(c) => Ok(Many(c))
       case Err(NotAnObject(i)) => Err(InvalidElement(i)))
    case _ => Err(InvalidData(Data(r)))
  }

  /** `getIdentifier`: the single related identifier; fails on empty or to-many data. */
  function GetIdentifier(r: Relationship): (i: Result<ResourceIdentifier, RelationshipError>)
    ensures i.Ok? <==> HasIdentifier(r)
    ensures i.Ok? ==> GetData(r) == Ok(One(i.value))
    ensures i.Err? ==> i.error == NoIdentifier
  {
    if Data(r).Object? then Ok(ResourceIdentifier(Data(r).members)) else Err(NoIdentifier)
  }

  /** `hasMeta`: the relationship carries a `meta` member. */
  function HasMeta(r: Relationship): (b: bool)
    ensures !b ==> MetaKey !in r.proxy && GetMeta(r) == Ok(StandardObject(map[]))
    ensures b ==> MetaKey in r.proxy && (GetMeta(r).Ok? ==> Object(GetMeta(r).value.members) == r.proxy[MetaKey])
  {
    MetaKey in r.proxy
  }

  /** `getMeta`: the `meta` member as a standard object, empty when there is none. */
  function GetMeta(r: Relationship): (m: Result<StandardObject, RelationshipError>)
    ensures MetaKey !in r.proxy ==> m == Ok(StandardObject(map[]))
    ensures MetaKey in r.proxy ==> (m.Ok? <==> r.proxy[MetaKey].Object?)
    ensures MetaKey in r.proxy && m.Ok? ==> Object(m.value.members) == r.proxy[MetaKey]
    ensures m.Err? ==> m.error == InvalidMeta(r.proxy[MetaKey])
  {
    if MetaKey !in r.proxy then Ok(StandardObject(map[]))
    else if r.proxy[MetaKey].Object? then Ok(StandardObject(r.proxy[MetaKey].members))
    else Err(InvalidMeta(r.proxy[MetaKey]))
  }

  /** `setProxy`: rebinds the relationship to another parsed object; nothing of the old one remains. */
  function SetProxy(r: Relationship, input: Members): (s: Relationship)
    ensures s.proxy == input
    ensures HasMeta(s) <==> MetaKey in input
    ensures GetData(s) == GetData(Relationship(input))
    ensures GetMeta(s) == GetMeta(Relationship(input))
  {
    Relationship(input)
  }

  // ---------------------------------------------------------------------------
  // Properties of relationships
  // ---------------------------------------------------------------------------

  /** A relationship is never both to-one and to-many. */
  lemma ShapesExclusive(r: Relationship)
    ensures !(IsHasOne(r) && IsHasMany(r))
    ensures HasIdentifier(r) ==> IsHasOne(r)
  {
  }

  /** Whenever `getData` succeeds, the shape predicates agree with the linkage it returned. */
  lemma ShapeAgreesWithLinkage(r: Relationship)
    requires GetData(r).Ok?
    ensures IsHasOne(r) <==> !GetData(r).value.Many?
    ensures IsHasMany(r) <==> GetData(r).value.Many?
    ensures HasIdentifier(r) <==> GetData(r).value.One?
    ensures GetData(r).value == NoData <==> IsHasOne(r) && !HasIdentifier(r)
  {
  }

  /** To-many data keeps the list's length and order, element by element. */
  lemma ToManyPreservesOrder(r: Relationship)
    requires IsHasMany(r) && AllObjects(Data(r).items)
    ensures GetData(r).Ok? && GetData(r).value.Many?
    ensures |GetData(r).value.collection.identifiers| == |Data(r).items|
    ensures forall i :: 0 <= i < |Data(r).items| ==>
      GetData(r).value.collection.identifiers[i] == ResourceIdentifier(Data(r).items[i].members)
  {
  }

  /** The `data` value that serialises a linkage. */
  function LinkageValue(l: Linkage): Value
  {
    match l
    case NoData => Null
    case One(identifier) => Object(identifier.proxy)
    case Many(collection) => List(CollectionValues(collection))
  }

  /** Reading back a serialised linkage yields the same linkage. */
  lemma LinkageRoundTrip(l: Linkage)
    ensures GetData(Relationship(map[DataKey := LinkageValue(l)])) == Ok(l)
  {
    var r := Relationship(map[DataKey := LinkageValue(l)]);
    assert Data(r) == LinkageValue(l);
    if l.Many? {
      CollectionRoundTrip(l.collection);
    }
  }

  /** A linkage that `getData` returns serialises back to the `data` member it was read from. */
  lemma DataRoundTrip(r: Relationship)
    requires GetData(r).Ok?
    ensures LinkageValue(GetData(r).value) == Data(r)
  {
    if Data(r).List? {
      CollectionValuesRoundTrip(Data(r).items);
    }
  }

  /** After `setProxy` with a `meta` object, the relationship has that meta and nothing else of its past. */
  lemma SetProxyAttachesMeta(r: Relationship, input: Members)
    requires MetaKey in input && input[MetaKey].Object?
    ensures HasMeta(SetProxy(r, input))
    ensures GetMeta(SetProxy(r, input)) == Ok(StandardObject(input[MetaKey].members))
  {
  }

  // ---------------------------------------------------------------------------
  // The scenarios of the relationship tests
  // ---------------------------------------------------------------------------

  /** A to-one relationship over `{type: "foo", id: 123}`. */
  lemma HasOneScenario()
    ensures var belongsTo := IdentifierObject("foo", Number(123));
            var r := Relationship(map[DataKey := belongsTo]);
            && GetData(r) == Ok(One(ResourceIdentifier(belongsTo.members)))
            && GetIdentifier(r) == Ok(ResourceIdentifier(belongsTo.members))
            && IsHasOne(r) && !IsHasMany(r) && HasIdentifier(r)
  {
  }

  /** A to-one relationship with null data, whose identifier cannot be read. */
  lemma EmptyHasOneScenario()
    ensures var r := Relationship(map[DataKey := Null]);
            && GetData(r) == Ok(NoData)
            && IsHasOne(r) && !IsHasMany(r) && !HasIdentifier(r)
            && GetIdentifier(r) == Err(NoIdentifier)
  {
  }

  /** A to-many relationship over two identifier objects. */
  lemma HasManyScenario()
    ensures var a := IdentifierObject("bar", Number(456));
            var b := IdentifierObject("baz", Number(789));
            var r := Relationship(map[DataKey := List([a, b])]);
            && GetData(r) == Ok(Many(ResourceIdentifierCollection([ResourceIdentifier(a.members), ResourceIdentifier(b.members)])))
            && IsHasMany(r) && !IsHasOne(r)
  {
    var a := IdentifierObject("bar", Number(456));
    var b := IdentifierObject("baz", Number(789));
    assert AllObjects([a, b]);
    var c := CreateCollection([a, b]).value;
    assert c.identifiers == [ResourceIdentifier(a.members), ResourceIdentifier(b.members)];
  }

  /** A to-many relationship over an empty list. */
  lemma EmptyHasManyScenario()
    ensures var r := Relationship(map[DataKey := List([])]);
            && GetData(r) == Ok(Many(ResourceIdentifierCollection([])))
            && IsHasMany(r) && !IsHasOne(r)
  {
  }

  /** Meta is empty on a new relationship and reflects a `meta` attached by `setProxy`. */
  lemma MetaScenario()
    ensures !HasMeta(EmptyRelationship)
    ensures GetMeta(EmptyRelationship) == Ok(StandardObject(map[]))
    ensures var meta := map["foo" := Str("bar")];
            var r := SetProxy(EmptyRelationship, map[MetaKey := Object(meta)]);
            HasMeta(r) && GetMeta(r) == Ok(StandardObject(meta))
  {
  }
}
