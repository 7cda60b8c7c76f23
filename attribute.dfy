/**
 * Attribute<R>: binds one named entry of the attribute map to a record of type R, with
 * one operation per direction. A SimpleAttribute is backed by a property (getter and
 * setter) and a mapper and works in both directions; a ConstantAttribute writes a supplied
 * value and ignores the record on reading.
 *
 * The record object is an `Instance<R>` whose `state` holds its field values; a setter
 * replaces that state. The caller's result map is an `AttributeMap` object.
 */
module Attributes {
  import opened Wrappers
  import opened JavaLang
  import opened AttributeValues
  import opened AttributeMapping

  /** A named accessor pair: the getter reads a field of R, the setter stores one into R. */
  datatype Property<!R, !T> = Property(name: string, getter: R -> Option<T>, setter: (R, Option<T>) -> R)

  /** The setter stores `value` so that the getter reads it back (a Lombok field pair). */
  ghost predicate GetterReadsSetter<R, T>(property: Property<R, T>, instance: R, value: Option<T>) {
    property.getter(property.setter(instance, value)) == value
  }

  /** A record object; setters update it in place. */
  class Instance<R> {
    var state: R

    constructor(state: R)
      ensures this.state == state
    {
      this.state := state;
    }
  }

  /** The caller's mutable Map<String, AttributeValue>. */
  class AttributeMap {
    var entries: map<string, AttributeValue>

    constructor()
      ensures entries == map[]
    {
      entries := map[];
    }

    /** Map.put: the key now holds the value, replacing any earlier one. */
    method Put(key: string, value: AttributeValue)
      modifies this
      ensures entries == old(entries)[key := value]
    {
      entries := entries[key := value];
    }
  }

  /**
   * The two attribute variants with their types erased, as Java's List<Attribute<R>> does:
   * `load` is the setter applied to the read value, `store` the mapper applied to the getter,
   * and `supply` the mapper applied to the supplied constant.
   */
  datatype Attribute<!R> =
    | Bound(name: string,
            load: (R, Option<AttributeValue>) -> Result<R, Exception>,
            store: R -> Result<AttributeValue, Exception>)
    | Constant(name: string, supply: () -> Result<AttributeValue, Exception>)
  {
    /** The record state after writeFromMapToInstance, or the exception it throws. */
    function ApplyToInstance(attributeValues: map<string, AttributeValue>, instance: R): (r: Result<R, Exception>)
      ensures Constant? ==> r == Success(instance)
    {
      match this
      case Bound(_, load, _) => load(instance, Lookup(attributeValues, name))
      case Constant(_, _) => Success(instance)
    }

    /** The attribute value this attribute puts into the map for `instance`, or the exception. */
    function Value(instance: R): Result<AttributeValue, Exception> {
      if Bound? then store(instance) else supply()
    }

    /**
     * The result map after writeFromInstanceToMap: the entry `name` holds the attribute's
     * value, replacing any earlier one, and no other entry changes.
     */
    function ApplyToMap(instance: R, result: map<string, AttributeValue>): (r: Result<map<string, AttributeValue>, Exception>)
      ensures r.Success? <==> Value(instance).Success?
      ensures r.Failure? ==> r.error == Value(instance).error
      ensures r.Success? ==> r.value.Keys == result.Keys + {name} && r.value[name] == Value(instance).value
      ensures r.Success? ==> forall k | k in result && k != name :: r.value[k] == result[k]
    {
      var value :- Value(instance);
      Success(result[name := value])
    }

    /** writeFromMapToInstance: reads the entry `name` (absent is null) and updates the record. */
    method WriteFromMapToInstance(attributeValues: map<string, AttributeValue>, instance: Instance<R>)
      returns (outcome: Outcome<Exception>)
      modifies instance
      ensures outcome.Pass? ==> ApplyToInstance(attributeValues, old(instance.state)) == Success(instance.state)
      ensures outcome.Fail? ==> ApplyToInstance(attributeValues, old(instance.state)) == Failure(outcome.error)
      ensures outcome.Fail? ==> instance.state == old(instance.state)
    {
      match this
      case Bound(_, load, _) =>
        var updated := load(instance.state, Lookup(attributeValues, name));
        if updated.Failure? {
          return Fail(updated.error);
        }
        instance.state := updated.value;
        return Pass;
      case Constant(_, _) =>
        // do nothing
        return Pass;
    }

    /** writeFromInstanceToMap: puts the converted value under `name` in the caller's map. */
    method WriteFromInstanceToMap(instance: Instance<R>, result: AttributeMap)
      returns (outcome: Outcome<Exception>)
      modifies result
      ensures outcome.Pass? ==> ApplyToMap(instance.state, old(result.entries)) == Success(result.entries)
      ensures outcome.Fail? ==> ApplyToMap(instance.state, old(result.entries)) == Failure(outcome.error)
      ensures outcome.Fail? ==> result.entries == old(result.entries)
    {
      var value := Value(instance.state);
      if value.Failure? {
        return Fail(value.error);
      }
      result.Put(name, value.value);
      return Pass;
    }
  }

  /** new SimpleAttribute(property, mapper), with its field type erased. */
  function SimpleAttribute<R(!new), T(!new)>(property: Property<R, T>, mapper: AttributeMapper<T>): (a: Attribute<R>)
    ensures a.Bound? && a.name == property.name
    ensures forall instance :: a.Value(instance) == mapper.Write(property.getter(instance))
    ensures forall attributeValues, instance | mapper.Read(Lookup(attributeValues, property.name)).Success? ::
              a.ApplyToInstance(attributeValues, instance)
              == Success(property.setter(instance, mapper.Read(Lookup(attributeValues, property.name)).value))
    ensures forall attributeValues, instance | mapper.Read(Lookup(attributeValues, property.name)).Failure? ::
              a.ApplyToInstance(attributeValues, instance)
              == Failure(mapper.Read(Lookup(attributeValues, property.name)).error)
  {
    Bound(property.name,
          (instance, av) => match mapper.Read(av)
                            case Success(value) => Success(property.setter(instance, value))
                            case Failure(e) => Failure(e),
          instance => mapper.Write(property.getter(instance)))
  }

  /** new ConstantAttribute(name, value, mapper), with its value type erased. */
  function ConstantAttribute<R(!new), T(!new)>(name: string, value: () -> Option<T>, mapper: AttributeMapper<T>): (a: Attribute<R>)
    ensures a.Constant? && a.name == name
    ensures forall instance :: a.Value(instance) == mapper.Write(value())
  {
    Constant(name, () => mapper.Write(value()))
  }

  /**
   * Map to instance through a SimpleAttribute: the setter receives the mapper's reading of
   * the entry `name`, null when the key is absent; a failing read leaves no new state.
   */
  lemma SimpleAttributeReads<R(!new), T(!new)>(property: Property<R, T>, mapper: AttributeMapper<T>,
                                         attributeValues: map<string, AttributeValue>, instance: R)
    ensures var r := SimpleAttribute(property, mapper).ApplyToInstance(attributeValues, instance);
            var read := mapper.Read(Lookup(attributeValues, property.name));
            && (r.Success? <==> read.Success?)
            && (read.Success? ==> r.value == property.setter(instance, read.value))
            && (property.name !in attributeValues ==> r == Success(property.setter(instance, None)))
  {
    var attribute := SimpleAttribute(property, mapper);
    var av := Lookup(attributeValues, property.name);
    assert attribute.ApplyToInstance(attributeValues, instance) == attribute.load(instance, av);
  }

  /** A SimpleAttribute whose mapper writes the getter's value as `v` puts `v` under its name. */
  lemma FieldWrites<R(!new), T(!new)>(property: Property<R, T>, mapper: AttributeMapper<T>, instance: R, v: AttributeValue)
    requires mapper.Write(property.getter(instance)) == Success(v)
    ensures SimpleAttribute(property, mapper).name == property.name
    ensures SimpleAttribute(property, mapper).Value(instance) == Success(v)
  {
  }

  /** A SimpleAttribute whose mapper reads the entry `name` (null when absent) as `v` hands `v` to the setter. */
  lemma FieldReads<R(!new), T(!new)>(property: Property<R, T>, mapper: AttributeMapper<T>,
                                     attributeValues: map<string, AttributeValue>, instance: R, v: Option<T>)
    requires mapper.Read(Lookup(attributeValues, property.name)) == Success(v)
    ensures SimpleAttribute(property, mapper).ApplyToInstance(attributeValues, instance) == Success(property.setter(instance, v))
  {
  }

  /** A SimpleAttribute whose mapper throws on the entry `name` throws the same exception. */
  lemma FieldFails<R(!new), T(!new)>(property: Property<R, T>, mapper: AttributeMapper<T>,
                                     attributeValues: map<string, AttributeValue>, instance: R, e: Exception)
    requires mapper.Read(Lookup(attributeValues, property.name)) == Failure(e)
    ensures SimpleAttribute(property, mapper).ApplyToInstance(attributeValues, instance) == Failure(e)
  {
  }

  /**
   * Instance to map through a SimpleAttribute: the entry `name` holds the mapper's writing
   * of the getter's value, and an explicit Nul when that value is null.
   */
  lemma SimpleAttributeWrites<R(!new), T(!new)>(property: Property<R, T>, mapper: AttributeMapper<T>,
                                          instance: R, result: map<string, AttributeValue>)
    ensures var r := SimpleAttribute(property, mapper).ApplyToMap(instance, result);
            var written := mapper.Write(property.getter(instance));
            && (r.Success? <==> written.Success?)
            && (written.Success? ==> r.value == result[property.name := written.value])
            && (property.getter(instance) == None ==> r == Success(result[property.name := Nul]))
  {
  }

  /**
   * Writing a field and reading it back into any record restores the field, when the
   * mapper round-trips its value and the getter reads what the setter stored.
   */
  lemma SimpleAttributeRoundTrip<R(!new), T(!new)>(property: Property<R, T>, mapper: AttributeMapper<T>,
                                             instance: R, target: R, result: map<string, AttributeValue>)
    requires mapper.RoundTripsOn(property.getter(instance))
    requires GetterReadsSetter(property, target, property.getter(instance))
    ensures var attribute := SimpleAttribute(property, mapper);
            var written := attribute.ApplyToMap(instance, result);
            && written.Success?
            && attribute.ApplyToInstance(written.value, target).Success?
            && property.getter(attribute.ApplyToInstance(written.value, target).value) == property.getter(instance)
  {
    var attribute := SimpleAttribute(property, mapper);
    var value := property.getter(instance);
    assert attribute.store(instance) == mapper.Write(value);
    var written := attribute.ApplyToMap(instance, result);
    assert written == Success(result[property.name := mapper.Write(value).value]);
    var av := Lookup(written.value, property.name);
    assert av == Some(mapper.Write(value).value);
    assert mapper.Read(av) == Success(value);
    assert attribute.ApplyToInstance(written.value, target) == attribute.load(target, av);
  }

  /**
   * A ConstantAttribute writes its supplied value whatever the record holds, and reading
   * leaves the record as it is even when the map holds its key.
   */
  lemma ConstantAttributeIgnoresInstance<R(!new), T(!new)>(name: string, value: () -> Option<T>, mapper: AttributeMapper<T>,
                                                     instance: R, other: R, result: map<string, AttributeValue>,
                                                     attributeValues: map<string, AttributeValue>)
    ensures var attribute: Attribute<R> := ConstantAttribute(name, value, mapper);
            && attribute.ApplyToMap(instance, result) == attribute.ApplyToMap(other, result)
            && (mapper.Write(value()).Success? ==>
                  attribute.ApplyToMap(instance, result) == Success(result[name := mapper.Write(value()).value]))
            && attribute.ApplyToInstance(attributeValues, instance) == Success(instance)
  {
  }
}
