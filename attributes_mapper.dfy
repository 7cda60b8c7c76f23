/**
 * The aggregate mapper (SimpleAttributesMapper): a zero-argument constructor and the
 * declared attributes in order. Record to map starts from an empty map and runs every
 * attribute's instance-to-map direction in declaration order; map to record builds a fresh
 * record and runs every attribute's map-to-instance direction in declaration order. The
 * first exception aborts the conversion.
 */
module AttributesMapping {
  import opened Wrappers
  import opened JavaLang
  import opened AttributeValues
  import opened AttributeMapping
  import opened Attributes

  /** The names the attributes write, in any order. */
  function Names<R>(attributes: seq<Attribute<R>>): (names: set<string>)
    ensures forall i | 0 <= i < |attributes| :: attributes[i].name in names
    ensures forall name | name in names :: exists i | 0 <= i < |attributes| :: attributes[i].name == name
  {
    if attributes == [] then {}
    else
      var rest := Names(attributes[1..]);
      assert forall i | 1 <= i < |attributes| :: attributes[i] == attributes[1..][i - 1];
      {attributes[0].name} + rest
  }

  /**
   * Runs the instance-to-map direction of each attribute in order. The keys of the result
   * are the keys already present and the name of every attribute.
   */
  function StoreAll<R>(attributes: seq<Attribute<R>>, instance: R, result: map<string, AttributeValue>)
    : (r: Result<map<string, AttributeValue>, Exception>)
    ensures r.Success? ==> r.value.Keys == result.Keys + Names(attributes)
    ensures r.Success? ==> forall k | k in result && k !in Names(attributes) :: r.value[k] == result[k]
  {
    if attributes == [] then Success(result)
    else
      var next :- attributes[0].ApplyToMap(instance, result);
      StoreAll(attributes[1..], instance, next)
  }

  /** Writing a record succeeds exactly when every attribute produces its value. */
  lemma {:induction false} StoreAllSucceeds<R>(attributes: seq<Attribute<R>>, instance: R,
                                               result: map<string, AttributeValue>)
    ensures StoreAll(attributes, instance, result).Success?
            <==> forall i | 0 <= i < |attributes| :: attributes[i].Value(instance).Success?
  {
    if attributes != [] {
      var rest := attributes[1..];
      var next := attributes[0].ApplyToMap(instance, result);
      if next.Success? {
        StoreAllSucceeds(rest, instance, next.value);
        assert forall i | 1 <= i < |attributes| :: attributes[i] == rest[i - 1];
      }
    }
  }

  /**
   * A failed write fails at its first failing attribute: every attribute before it produces
   * its value, and that attribute throws the write's exception.
   */
  lemma {:induction false} StoreAllFirstFailure<R>(attributes: seq<Attribute<R>>, instance: R,
                                                   result: map<string, AttributeValue>)
    requires StoreAll(attributes, instance, result).Failure?
    ensures exists i | 0 <= i < |attributes| ::
              && (forall j | 0 <= j < i :: attributes[j].Value(instance).Success?)
              && attributes[i].Value(instance) == Failure(StoreAll(attributes, instance, result).error)
  {
    var e := StoreAll(attributes, instance, result).error;
    var next := attributes[0].ApplyToMap(instance, result);
    if next.Success? {
      var rest := attributes[1..];
      StoreAllFirstFailure(rest, instance, next.value);
      var i :| 0 <= i < |rest| && (forall j | 0 <= j < i :: rest[j].Value(instance).Success?)
               && rest[i].Value(instance) == Failure(e);
      assert forall j | 1 <= j <= i + 1 :: attributes[j] == rest[j - 1];
    }
  }

  /**
   * Later attributes overwrite earlier ones: the entry of a name holds the value written by
   * the last attribute of that name.
   */
  lemma {:induction false} StoreAllLastWins<R>(attributes: seq<Attribute<R>>, instance: R,
                                               result: map<string, AttributeValue>, j: nat)
    requires j < |attributes|
    requires forall k | j < k < |attributes| :: attributes[k].name != attributes[j].name
    requires StoreAll(attributes, instance, result).Success?
    ensures attributes[j].Value(instance).Success?
    ensures StoreAll(attributes, instance, result).value[attributes[j].name] == attributes[j].Value(instance).value
  {
    var rest := attributes[1..];
    var next := attributes[0].ApplyToMap(instance, result);
    assert next.Success?;
    assert StoreAll(attributes, instance, result) == StoreAll(rest, instance, next.value);
    if j == 0 {
      StoreAllLastWinsHead(attributes, instance, result);
    } else {
      forall k | j - 1 < k < |rest|
        ensures rest[k].name != rest[j - 1].name
      {
        assert rest[k] == attributes[k + 1];
      }
      StoreAllLastWins(rest, instance, next.value, j - 1);
    }
  }

  /** The first attribute's value survives when no later attribute shares its name. */
  lemma StoreAllLastWinsHead<R>(attributes: seq<Attribute<R>>, instance: R, result: map<string, AttributeValue>)
    requires |attributes| > 0
    requires forall k | 0 < k < |attributes| :: attributes[k].name != attributes[0].name
    requires StoreAll(attributes, instance, result).Success?
    ensures attributes[0].Value(instance).Success?
    ensures StoreAll(attributes, instance, result).value[attributes[0].name] == attributes[0].Value(instance).value
  {
    var rest := attributes[1..];
    var name := attributes[0].name;
    var next := attributes[0].ApplyToMap(instance, result);
    assert next.Success?;
    assert StoreAll(attributes, instance, result) == StoreAll(rest, instance, next.value);
    assert name !in Names(rest) by {
      forall i | 0 <= i < |rest|
        ensures rest[i].name != name
      {
        assert rest[i] == attributes[i + 1];
      }
    }
    assert next.value[name] == attributes[0].Value(instance).value;
  }

  /**
   * With pairwise distinct names, a record whose attributes all produce a value is written
   * as exactly those values, each under its attribute's name.
   */
  lemma StoreAllDistinctNames<R>(attributes: seq<Attribute<R>>, instance: R, result: map<string, AttributeValue>)
    requires forall i, j | 0 <= i < j < |attributes| :: attributes[i].name != attributes[j].name
    requires forall i | 0 <= i < |attributes| :: attributes[i].Value(instance).Success?
    ensures StoreAll(attributes, instance, result).Success?
    ensures forall i | 0 <= i < |attributes| ::
              StoreAll(attributes, instance, result).value[attributes[i].name] == attributes[i].Value(instance).value
  {
    StoreAllSucceeds(attributes, instance, result);
    forall i | 0 <= i < |attributes|
      ensures StoreAll(attributes, instance, result).value[attributes[i].name] == attributes[i].Value(instance).value
    {
      StoreAllLastWins(attributes, instance, result, i);
    }
  }

  /** The property-backed attributes among `attributes`, in order. */
  function Bounds<R>(attributes: seq<Attribute<R>>): (bounds: seq<Attribute<R>>)
    ensures forall a | a in bounds :: a in attributes && a.Bound?
    ensures forall a | a in attributes && a.Bound? :: a in bounds
    ensures |bounds| <= |attributes|
    ensures (forall i | 0 <= i < |attributes| :: attributes[i].Bound?) ==> bounds == attributes
  {
    if attributes == [] then []
    else
      var rest := attributes[1..];
      assert attributes == [attributes[0]] + rest;
      (if attributes[0].Bound? then [attributes[0]] else []) + Bounds(rest)
  }

  /**
   * Filtering keeps the order: the bound attributes of a concatenation are those of the
   * first part followed by those of the second.
   */
  lemma {:induction false} BoundsConcat<R>(first: seq<Attribute<R>>, second: seq<Attribute<R>>)
    ensures Bounds(first + second) == Bounds(first) + Bounds(second)
  {
    if first != [] {
      assert (first + second)[1..] == first[1..] + second;
      BoundsConcat(first[1..], second);
    } else {
      assert first + second == second;
    }
  }

  /**
   * Runs the map-to-instance direction of each attribute in order. Constant attributes leave
   * the record as it is.
   */
  function LoadAll<R>(attributes: seq<Attribute<R>>, attributeValues: map<string, AttributeValue>, instance: R)
    : (r: Result<R, Exception>)
    ensures (forall i | 0 <= i < |attributes| :: attributes[i].Constant?) ==> r == Success(instance)
  {
    if attributes == [] then Success(instance)
    else
      assert forall i | 1 <= i < |attributes| :: attributes[i] == attributes[1..][i - 1];
      var next :- attributes[0].ApplyToInstance(attributeValues, instance);
      LoadAll(attributes[1..], attributeValues, next)
  }

  /**
   * Reading looks only at the entries under the attributes' names: two maps that agree on
   * those names (present or absent alike) give the same record, whatever else they hold.
   */
  lemma {:induction false} LoadAllDependsOnNames<R>(attributes: seq<Attribute<R>>, attributeValues: map<string, AttributeValue>,
                                                    other: map<string, AttributeValue>, instance: R)
    requires forall i | 0 <= i < |attributes| :: Lookup(attributeValues, attributes[i].name) == Lookup(other, attributes[i].name)
    ensures LoadAll(attributes, attributeValues, instance) == LoadAll(attributes, other, instance)
  {
    if attributes != [] {
      var rest := attributes[1..];
      assert attributes[0].ApplyToInstance(attributeValues, instance) == attributes[0].ApplyToInstance(other, instance);
      var next := attributes[0].ApplyToInstance(attributeValues, instance);
      if next.Success? {
        assert forall i | 0 <= i < |rest| :: rest[i] == attributes[i + 1];
        LoadAllDependsOnNames(rest, attributeValues, other, next.value);
      }
    }
  }

  /**
   * Reading ignores constant attributes: loading through all attributes is loading through
   * the property-backed ones alone, whatever the map holds under the constants' names.
   */
  lemma {:induction false} LoadAllIgnoresConstants<R>(attributes: seq<Attribute<R>>,
                                                      attributeValues: map<string, AttributeValue>, instance: R)
    ensures LoadAll(attributes, attributeValues, instance) == LoadAll(Bounds(attributes), attributeValues, instance)
  {
    if attributes != [] {
      var first := attributes[0];
      var rest := attributes[1..];
      match first.ApplyToInstance(attributeValues, instance)
      case Failure(e) =>
        if first.Bound? {
          assert Bounds(attributes) == [first] + Bounds(rest);
          assert Bounds(attributes)[1..] == Bounds(rest);
        }
      case Success(next) =>
        LoadAllIgnoresConstants(rest, attributeValues, next);
        if first.Bound? {
          assert Bounds(attributes) == [first] + Bounds(rest);
          assert Bounds(attributes)[1..] == Bounds(rest);
        } else {
          assert Bounds(attributes) == Bounds(rest);
        }
    }
  }

  /**
   * Loading through a concatenation loads through the first part and then, from the record
   * it gives, through the second; an exception in the first part ends it.
   */
  lemma {:induction false} LoadAllConcat<R>(first: seq<Attribute<R>>, second: seq<Attribute<R>>,
                                            attributeValues: map<string, AttributeValue>, instance: R)
    ensures LoadAll(first + second, attributeValues, instance)
            == match LoadAll(first, attributeValues, instance)
               case Success(next) => LoadAll(second, attributeValues, next)
               case Failure(e) => Failure(e)
  {
    if first == [] {
      assert first + second == second;
    } else {
      assert (first + second)[1..] == first[1..] + second;
      assert (first + second)[0] == first[0];
      match first[0].ApplyToInstance(attributeValues, instance)
      case Failure(e) =>
      case Success(next) =>
        LoadAllConcat(first[1..], second, attributeValues, next);
    }
  }

  /**
   * A failed read fails at its first failing attribute: the attributes before it load, and
   * that attribute, applied to the record they give, throws the read's exception.
   */
  lemma {:induction false} LoadAllFirstFailure<R>(attributes: seq<Attribute<R>>, attributeValues: map<string, AttributeValue>,
                                                  instance: R)
    requires LoadAll(attributes, attributeValues, instance).Failure?
    ensures exists i | 0 <= i < |attributes| ::
              && LoadAll(attributes[..i], attributeValues, instance).Success?
              && attributes[i].ApplyToInstance(attributeValues, LoadAll(attributes[..i], attributeValues, instance).value)
                 == Failure(LoadAll(attributes, attributeValues, instance).error)
  {
    var e := LoadAll(attributes, attributeValues, instance).error;
    assert attributes[..0] == [];
    match attributes[0].ApplyToInstance(attributeValues, instance)
    case Failure(_) =>
    case Success(next) =>
      var rest := attributes[1..];
      LoadAllFirstFailure(rest, attributeValues, next);
      var i :| 0 <= i < |rest| && LoadAll(rest[..i], attributeValues, next).Success?
               && rest[i].ApplyToInstance(attributeValues, LoadAll(rest[..i], attributeValues, next).value) == Failure(e);
      assert attributes[..i + 1] == [attributes[0]] + rest[..i];
      LoadAllConcat([attributes[0]], rest[..i], attributeValues, instance);
      assert [attributes[0]][1..] == [];
      assert attributes[i + 1] == rest[i];
  }

  datatype AttributesMapper<!R> = AttributesMapper(newInstance: () -> R, attributes: seq<Attribute<R>>)
  {
    /** The attribute map of a record: every declared attribute contributes its key. */
    function ToItem(instance: R): (r: Result<map<string, AttributeValue>, Exception>)
      ensures r.Success? ==> r.value.Keys == Names(attributes)
    {
      StoreAll(attributes, instance, map[])
    }

    /**
     * The record read from an attribute map, starting from a freshly constructed one. With
     * only constant attributes it is the fresh record.
     */
    function FromItem(attributeValues: map<string, AttributeValue>): (r: Result<R, Exception>)
      ensures (forall i | 0 <= i < |attributes| :: attributes[i].Constant?) ==> r == Success(newInstance())
    {
      LoadAll(attributes, attributeValues, newInstance())
    }

    /** `Map<String, AttributeValue> map(T)`: a fresh map filled by each attribute in turn. */
    method MapToItem(instance: Instance<R>) returns (item: Result<AttributeMap, Exception>)
      ensures item.Success? ==> fresh(item.value) && ToItem(instance.state) == Success(item.value.entries)
      ensures item.Failure? ==> ToItem(instance.state) == Failure(item.error)
    {
      var result := new AttributeMap();
      var i := 0;
      while i < |attributes|
        invariant 0 <= i <= |attributes|
        invariant fresh(result)
        invariant ToItem(instance.state) == StoreAll(attributes[i..], instance.state, result.entries)
      {
        assert attributes[i..][1..] == attributes[i + 1..];
        var outcome := attributes[i].WriteFromInstanceToMap(instance, result);
        if outcome.Fail? {
          return Failure(outcome.error);
        }
        i := i + 1;
      }
      return Success(result);
    }

    /** `T map(Map<String, AttributeValue>)`: a fresh record updated by each attribute in turn. */
    method MapToInstance(attributeValues: map<string, AttributeValue>) returns (instance: Result<Instance<R>, Exception>)
      ensures instance.Success? ==> fresh(instance.value) && FromItem(attributeValues) == Success(instance.value.state)
      ensures instance.Failure? ==> FromItem(attributeValues) == Failure(instance.error)
    {
      var created := new Instance(newInstance());
      var i := 0;
      while i < |attributes|
        invariant 0 <= i <= |attributes|
        invariant fresh(created)
        invariant FromItem(attributeValues) == LoadAll(attributes[i..], attributeValues, created.state)
      {
        assert attributes[i..][1..] == attributes[i + 1..];
        var outcome := attributes[i].WriteFromMapToInstance(attributeValues, created);
        if outcome.Fail? {
          return Failure(outcome.error);
        }
        i := i + 1;
      }
      return Success(created);
    }
  }

  /**
   * Reading the entry `value` with this attribute, into any record, succeeds and gives a
   * record for which the attribute writes `written`. A constant attribute reads nothing and
   * qualifies for any entry.
   */
  ghost predicate Sets<R(!new)>(attribute: Attribute<R>, value: Option<AttributeValue>, written: Result<AttributeValue, Exception>) {
    attribute.Bound? ==>
      forall instance :: attribute.load(instance, value).Success?
                         && attribute.Value(attribute.load(instance, value).value) == written
  }

  /** Reading with `other` never changes what `attribute` writes: their fields are separate. */
  ghost predicate Independent<R(!new)>(attribute: Attribute<R>, other: Attribute<R>) {
    other.Bound? ==>
      forall instance, value | other.load(instance, value).Success? ::
        attribute.Value(other.load(instance, value).value) == attribute.Value(instance)
  }

  /** Every attribute's read leaves what every other attribute writes as it was. */
  ghost predicate PairwiseIndependent<R(!new)>(attributes: seq<Attribute<R>>) {
    forall i, j | 0 <= i < |attributes| && 0 <= j < |attributes| && i != j :: Independent(attributes[i], attributes[j])
  }

  /**
   * Loading from the k-th attribute on, when each attribute sets its own field to what it
   * should write and the first k already do, succeeds with every property-backed attribute
   * writing what it should.
   */
  lemma {:induction false} LoadAllSets<R(!new)>(attributes: seq<Attribute<R>>, k: nat, attributeValues: map<string, AttributeValue>,
                                          instance: R, written: seq<Result<AttributeValue, Exception>>)
    requires k <= |attributes| == |written|
    requires forall i | 0 <= i < |attributes| :: Sets(attributes[i], Lookup(attributeValues, attributes[i].name), written[i])
    requires PairwiseIndependent(attributes)
    requires forall i | 0 <= i < k && attributes[i].Bound? :: attributes[i].Value(instance) == written[i]
    ensures LoadAll(attributes[k..], attributeValues, instance).Success?
    ensures forall i | 0 <= i < |attributes| && attributes[i].Bound? ::
              attributes[i].Value(LoadAll(attributes[k..], attributeValues, instance).value) == written[i]
    decreases |attributes| - k
  {
    if k < |attributes| {
      var a := attributes[k];
      assert attributes[k..][0] == a && attributes[k..][1..] == attributes[k + 1..];
      var next := a.ApplyToInstance(attributeValues, instance);
      if a.Bound? {
        assert next == a.load(instance, Lookup(attributeValues, a.name));
        assert Sets(a, Lookup(attributeValues, a.name), written[k]);
        forall i | 0 <= i < k && attributes[i].Bound?
          ensures attributes[i].Value(next.value) == written[i]
        {
          assert Independent(attributes[i], a);
        }
      }
      LoadAllSets(attributes, k + 1, attributeValues, next.value, written);
    }
  }

  /** Two records for which every attribute writes the same value are written alike. */
  lemma {:induction false} StoreAllSameValues<R>(attributes: seq<Attribute<R>>, instance: R, other: R,
                                                 result: map<string, AttributeValue>)
    requires forall i | 0 <= i < |attributes| :: attributes[i].Value(instance) == attributes[i].Value(other)
    ensures StoreAll(attributes, instance, result) == StoreAll(attributes, other, result)
  {
    if attributes != [] {
      var next := attributes[0].ApplyToMap(instance, result);
      assert next == attributes[0].ApplyToMap(other, result);
      if next.Success? {
        assert forall i | 0 <= i < |attributes[1..]| :: attributes[1..][i] == attributes[i + 1];
        StoreAllSameValues(attributes[1..], instance, other, next.value);
      }
    }
  }

  /**
   * Writing a record and reading the item back gives a record that every attribute writes
   * exactly as it wrote the original, so writing it again gives the same item. This holds
   * when the names are distinct, each attribute produces a value and reads that value back
   * into its own field, and no attribute's read disturbs another attribute's field.
   */
  lemma AttributesRoundTrip<R(!new)>(mapper: AttributesMapper<R>, instance: R)
    requires forall i, j | 0 <= i < j < |mapper.attributes| :: mapper.attributes[i].name != mapper.attributes[j].name
    requires forall i | 0 <= i < |mapper.attributes| :: mapper.attributes[i].Value(instance).Success?
    requires forall i | 0 <= i < |mapper.attributes| ::
               Sets(mapper.attributes[i], Some(mapper.attributes[i].Value(instance).value), mapper.attributes[i].Value(instance))
    requires PairwiseIndependent(mapper.attributes)
    ensures mapper.ToItem(instance).Success?
    ensures mapper.FromItem(mapper.ToItem(instance).value).Success?
    ensures forall i | 0 <= i < |mapper.attributes| ::
              mapper.attributes[i].Value(mapper.FromItem(mapper.ToItem(instance).value).value)
              == mapper.attributes[i].Value(instance)
    ensures mapper.ToItem(mapper.FromItem(mapper.ToItem(instance).value).value) == mapper.ToItem(instance)
  {
    var attributes := mapper.attributes;
    StoreAllDistinctNames(attributes, instance, map[]);
    var item := mapper.ToItem(instance).value;
    var written := seq(|attributes|, i requires 0 <= i < |attributes| => attributes[i].Value(instance));
    forall i | 0 <= i < |attributes|
      ensures Sets(attributes[i], Lookup(item, attributes[i].name), written[i])
    {
      assert Lookup(item, attributes[i].name) == Some(attributes[i].Value(instance).value);
    }
    LoadAllSets(attributes, 0, item, mapper.newInstance(), written);
    assert attributes[0..] == attributes;
    var read := mapper.FromItem(item).value;
    forall i | 0 <= i < |attributes|
      ensures attributes[i].Value(read) == attributes[i].Value(instance)
    {
      if attributes[i].Constant? {
        assert attributes[i].Value(read) == attributes[i].supply();
      }
    }
    StoreAllSameValues(attributes, read, instance, map[]);
  }

  /**
   * Reading an empty map sets every field to null: it succeeds, and every property-backed
   * attribute writes Nul for the record it gives, when each attribute reads an absent entry
   * as a null field and no attribute's read disturbs another attribute's field.
   */
  lemma AttributesFromEmptyItem<R(!new)>(mapper: AttributesMapper<R>)
    requires forall i | 0 <= i < |mapper.attributes| :: Sets(mapper.attributes[i], None, Success(Nul))
    requires PairwiseIndependent(mapper.attributes)
    ensures mapper.FromItem(map[]).Success?
    ensures forall i | 0 <= i < |mapper.attributes| && mapper.attributes[i].Bound? ::
              mapper.attributes[i].Value(mapper.FromItem(map[]).value) == Success(Nul)
  {
    var attributes := mapper.attributes;
    var written := seq(|attributes|, i => Success(Nul));
    forall i | 0 <= i < |attributes|
      ensures Sets(attributes[i], Lookup(map[], attributes[i].name), written[i])
    {
    }
    LoadAllSets(attributes, 0, map[], mapper.newInstance(), written);
    assert attributes[0..] == attributes;
  }

  /**
   * A SimpleAttribute reads back into any record what it wrote for `instance`, when its
   * mapper round-trips the field and the getter reads what the setter stores.
   */
  lemma SimpleAttributeSets<R(!new), T(!new)>(property: Property<R, T>, mapper: AttributeMapper<T>, instance: R)
    requires mapper.RoundTripsOn(property.getter(instance))
    requires forall target :: GetterReadsSetter(property, target, property.getter(instance))
    ensures var attribute := SimpleAttribute(property, mapper);
            Sets(attribute, Some(attribute.Value(instance).value), attribute.Value(instance))
  {
    var attribute := SimpleAttribute(property, mapper);
    var value := property.getter(instance);
    var av := Some(mapper.Write(value).value);
    forall target
      ensures attribute.load(target, av).Success?
      ensures attribute.Value(attribute.load(target, av).value) == attribute.Value(instance)
    {
      assert attribute.load(target, av) == attribute.ApplyToInstance(map[property.name := av.value], target);
      assert GetterReadsSetter(property, target, value);
    }
  }

  /** A SimpleAttribute reads an absent entry as a null field, which it writes as Nul. */
  lemma SimpleAttributeSetsNull<R(!new), T(!new)>(property: Property<R, T>, mapper: AttributeMapper<T>)
    requires forall target :: GetterReadsSetter(property, target, None)
    ensures Sets(SimpleAttribute(property, mapper), None, Success(Nul))
  {
    var attribute := SimpleAttribute(property, mapper);
    forall target
      ensures attribute.load(target, None).Success?
      ensures attribute.Value(attribute.load(target, None).value) == Success(Nul)
    {
      assert attribute.load(target, None) == attribute.ApplyToInstance(map[], target);
      assert GetterReadsSetter(property, target, None);
    }
  }

  /** Two SimpleAttributes are independent when the second's setter leaves the first's getter alone. */
  lemma SimpleAttributesIndependent<R(!new), T(!new), U(!new)>(property: Property<R, T>, mapper: AttributeMapper<T>,
                                                               other: Property<R, U>, otherMapper: AttributeMapper<U>)
    requires forall target, value :: property.getter(other.setter(target, value)) == property.getter(target)
    ensures Independent(SimpleAttribute(property, mapper), SimpleAttribute(other, otherMapper))
  {
    var attribute := SimpleAttribute(property, mapper);
    var second := SimpleAttribute(other, otherMapper);
    forall target, av | second.load(target, av).Success?
      ensures attribute.Value(second.load(target, av).value) == attribute.Value(target)
    {
      var entries := if av.Some? then map[other.name := av.value] else map[];
      assert Lookup(entries, other.name) == av;
      assert second.load(target, av) == second.ApplyToInstance(entries, target);
    }
  }
}
