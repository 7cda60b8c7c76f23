/**
 * AttributeMappers: the primitive mappers (STRING, NUMBER, DECIMAL), the combinators for
 * nested objects, enumerations and lists, and the fluent AttributesBuilder that collects
 * attribute declarations for a record type.
 */
module AttributeMappers {
  import opened Wrappers
  import opened JavaLang
  import opened AttributeValues
  import opened Bidirectional
  import opened AttributeMapping
  import opened Attributes
  import opened AttributesMapping

  /** processIfNotNull: null stays null; anything else goes to the processor. */
  function ProcessIfNotNull<T, R>(value: Option<T>, processor: T -> Result<R, Exception>): (r: Result<Option<R>, Exception>)
    ensures value.None? ==> r == Success(None)
    ensures value.Some? ==> (r.Success? <==> processor(value.value).Success?)
    ensures value.Some? && r.Success? ==> r.value == Some(processor(value.value).value)
    ensures value.Some? && r.Failure? ==> r.error == processor(value.value).error
  {
    match value
    case None => Success(None)
    case Some(v) =>
      match processor(v)
      case Success(result) => Success(Some(result))
      case Failure(e) => Failure(e)
  }

  /** STRING: writes S(text); reads the string payload, or null from any other shape. */
  function StringMapper(): (m: AttributeMapper<string>)
    ensures forall text :: m.Write(Some(text)) == Success(S(text))
    ensures forall av: AttributeValue :: av.S? ==> m.Read(Some(av)) == Success(Some(av.s))
    ensures forall av: AttributeValue :: !av.S? ==> m.Read(Some(av)) == Success(None)
  {
    AttributeMapper((av: AttributeValue) => Success(if av.S? then Some(av.s) else None),
                    text => Success(S(text)))
  }

  /** The number payload of an attribute value, null when it has none. */
  function NumberText(av: AttributeValue): (t: Option<string>)
    ensures t.Some? <==> av.N?
  {
    if av.N? then Some(av.n) else None
  }

  /**
   * NUMBER: writes N(decimal text of the long); reads N(text) with Long.parseLong, so
   * malformed text throws, and reads any other shape as null.
   */
  function NumberMapper(): (m: AttributeMapper<Long>)
    ensures forall n: Long :: m.Write(Some(n)) == Success(N(LongToString(n)))
    ensures forall t :: ParseLong(Some(t)).Success? ==> m.Read(Some(N(t))) == Success(Some(ParseLong(Some(t)).value))
    ensures forall t :: ParseLong(Some(t)).Failure? ==> m.Read(Some(N(t))) == Failure(NumberFormat(Some(t)))
    ensures forall av: AttributeValue :: !av.N? ==> m.Read(Some(av)) == Success(None)
  {
    AttributeMapper((av: AttributeValue) => ProcessIfNotNull(NumberText(av), t => ParseLong(Some(t))),
                    n => Success(N(LongToString(n))))
  }

  /**
   * DECIMAL, with Double.parseDouble and Double.toString as parameters: writes N(format(d));
   * reads N(text) with parse and any other shape as null.
   */
  function DecimalMapper<D(!new)>(parse: string -> Result<D, Exception>, format: D -> string): (m: AttributeMapper<D>)
    ensures forall d :: m.Write(Some(d)) == Success(N(format(d)))
    ensures forall t :: parse(t).Success? ==> m.Read(Some(N(t))) == Success(Some(parse(t).value))
    ensures forall t :: parse(t).Failure? ==> m.Read(Some(N(t))) == Failure(parse(t).error)
    ensures forall av: AttributeValue :: !av.N? ==> m.Read(Some(av)) == Success(None)
  {
    AttributeMapper((av: AttributeValue) => ProcessIfNotNull(NumberText(av), parse),
                    d => Success(N(format(d))))
  }

  /**
   * object: reads a map-valued attribute through the nested aggregate mapper and any other
   * shape as null; writes the nested attribute map wrapped in M.
   */
  function ObjectMapper<T(!new)>(mapper: AttributesMapper<T>): (m: AttributeMapper<T>)
    ensures forall item :: mapper.FromItem(item).Success? ==> m.Read(Some(M(item))) == Success(Some(mapper.FromItem(item).value))
    ensures forall item :: mapper.FromItem(item).Failure? ==> m.Read(Some(M(item))) == Failure(mapper.FromItem(item).error)
    ensures forall av: AttributeValue :: !av.M? ==> m.Read(Some(av)) == Success(None)
    ensures forall v :: mapper.ToItem(v).Success? ==> m.Write(Some(v)) == Success(M(mapper.ToItem(v).value))
    ensures forall v :: mapper.ToItem(v).Failure? ==> m.Write(Some(v)) == Failure(mapper.ToItem(v).error)
  {
    AttributeMapper((av: AttributeValue) => if av.M? then ProcessIfNotNull(Some(av.m), mapper.FromItem) else Success(None),
                    v => match mapper.ToItem(v)
                         case Success(item) => Success(M(item))
                         case Failure(e) => Failure(e))
  }

  /** A Java enum type: its constants in declaration order and Enum.name(). */
  datatype EnumType<!E> = EnumType(constants: seq<E>, name: E -> string)
  {
    /** Java guarantees that distinct constants have distinct names. */
    ghost predicate Valid() {
      forall i, j | 0 <= i < j < |constants| :: name(constants[i]) != name(constants[j])
    }

    /** Enum.valueOf: the constant with the given name, or an exception naming the unknown value. */
    function ValueOf(text: string): (r: Result<E, Exception>)
      ensures r.Success? ==> r.value in constants && name(r.value) == text
      ensures r.Failure? ==> r.error == NoEnumConstant(text) && forall c | c in constants :: name(c) != text
    {
      FindConstant(constants, name, text)
    }
  }

  /** The first of `constants` whose name is `text`. */
  function FindConstant<E>(constants: seq<E>, name: E -> string, text: string): (r: Result<E, Exception>)
    ensures r.Success? ==> r.value in constants && name(r.value) == text
    ensures r.Success? ==> exists i | 0 <= i < |constants| :: constants[i] == r.value &&
                            forall j | 0 <= j < i :: name(constants[j]) != text
    ensures r.Failure? ==> r.error == NoEnumConstant(text) && forall c | c in constants :: name(c) != text
  {
    if constants == [] then Failure(NoEnumConstant(text))
    else if name(constants[0]) == text then Success(constants[0])
    else
      var r := FindConstant(constants[1..], name, text);
      if r.Success? then
        ghost var i :| 0 <= i < |constants[1..]| && constants[1..][i] == r.value &&
                       forall j | 0 <= j < i :: name(constants[1..][j]) != text;
        assert constants[i + 1] == r.value && forall j | 0 <= j < i + 1 :: name(constants[j]) != text;
        r
      else
        assert forall c | c in constants :: c == constants[0] || c in constants[1..];
        r
  }

  /**
   * enumeration: writes a constant as S(name); reads S(text) with Enum.valueOf, so an
   * unknown name throws, and reads any other shape as null.
   */
  function EnumerationMapper<E(!new)>(enumType: EnumType<E>): (m: AttributeMapper<E>)
    ensures forall e :: m.Write(Some(e)) == Success(S(enumType.name(e)))
    ensures forall text :: enumType.ValueOf(text).Success? ==> m.Read(Some(S(text))) == Success(Some(enumType.ValueOf(text).value))
    ensures forall text :: enumType.ValueOf(text).Failure? ==> m.Read(Some(S(text))) == Failure(NoEnumConstant(text))
    ensures forall av: AttributeValue :: !av.S? ==> m.Read(Some(av)) == Success(None)
  {
    AttributeMapper((av: AttributeValue) => ProcessIfNotNull(if av.S? then Some(av.s) else None, enumType.ValueOf),
                    e => Success(S(enumType.name(e))))
  }

  /** The element-wise read of a list, in order; the first failing element aborts it. */
  function ReadAll<T(!new)>(mapper: AttributeMapper<T>, values: seq<AttributeValue>): (r: Result<seq<Option<T>>, Exception>)
    ensures r.Success? <==> forall i | 0 <= i < |values| :: mapper.Read(Some(values[i])).Success?
    ensures r.Success? ==> |r.value| == |values| &&
                           forall i | 0 <= i < |values| :: mapper.Read(Some(values[i])) == Success(r.value[i])
    ensures r.Failure? ==> exists i | 0 <= i < |values| ::
                             (forall j | 0 <= j < i :: mapper.Read(Some(values[j])).Success?) && mapper.Read(Some(values[i])) == Failure(r.error)
  {
    if values == [] then Success([])
    else
      match mapper.Read(Some(values[0]))
      case Failure(e) => Failure(e)
      case Success(head) =>
        var tail := ReadAll(mapper, values[1..]);
        assert forall i | 1 <= i < |values| :: values[i] == values[1..][i - 1];
        match tail
        case Failure(e) =>
          Failure(e)
        case Success(rest) => Success([head] + rest)
  }

  /** The element-wise write of a list, in order; the first failing element aborts it. */
  function WriteAll<T(!new)>(mapper: AttributeMapper<T>, values: seq<Option<T>>): (r: Result<seq<AttributeValue>, Exception>)
    ensures r.Success? <==> forall i | 0 <= i < |values| :: mapper.Write(values[i]).Success?
    ensures r.Success? ==> |r.value| == |values| &&
                           forall i | 0 <= i < |values| :: mapper.Write(values[i]) == Success(r.value[i])
    ensures r.Failure? ==> exists i | 0 <= i < |values| ::
                             (forall j | 0 <= j < i :: mapper.Write(values[j]).Success?) && mapper.Write(values[i]) == Failure(r.error)
  {
    if values == [] then Success([])
    else
      match mapper.Write(values[0])
      case Failure(e) => Failure(e)
      case Success(head) =>
        var tail := WriteAll(mapper, values[1..]);
        assert forall i | 1 <= i < |values| :: values[i] == values[1..][i - 1];
        match tail
        case Failure(e) =>
          Failure(e)
        case Success(rest) => Success([head] + rest)
  }

  /**
   * list: reads L(values) element by element and any other shape as null, never as an
   * empty list; writes a list as L of its elements' writings in the same order, so null is
   * the explicit Nul and an empty list is L([]).
   */
  function ListMapper<T(!new)>(mapper: AttributeMapper<T>): (m: AttributeMapper<seq<Option<T>>>)
    ensures forall av: AttributeValue :: !av.L? ==> m.Read(Some(av)) == Success(None)
    ensures forall vs :: ReadAll(mapper, vs).Success? ==> m.Read(Some(L(vs))) == Success(Some(ReadAll(mapper, vs).value))
    ensures forall vs :: ReadAll(mapper, vs).Failure? ==> m.Read(Some(L(vs))) == Failure(ReadAll(mapper, vs).error)
    ensures forall xs :: WriteAll(mapper, xs).Success? ==> m.Write(Some(xs)) == Success(L(WriteAll(mapper, xs).value))
    ensures forall xs :: WriteAll(mapper, xs).Failure? ==> m.Write(Some(xs)) == Failure(WriteAll(mapper, xs).error)
    ensures m.Write(None) == Success(Nul) && m.Write(Some([])) == Success(L([]))
  {
    AttributeMapper((av: AttributeValue) => if av.L? then ProcessIfNotNull(Some(av.l), vs => ReadAll(mapper, vs)) else Success(None),
                    xs => match WriteAll(mapper, xs)
                          case Success(values) => Success(L(values))
                          case Failure(e) => Failure(e))
  }

  /** STRING round-trips every value, null included (null is written as Nul and Nul carries no string). */
  lemma StringRoundTrip(v: Option<string>)
    ensures StringMapper().RoundTripsOn(v)
  {
  }

  /** NUMBER round-trips every long and null. */
  lemma NumberRoundTrip(v: Option<Long>)
    ensures NumberMapper().RoundTripsOn(v)
  {
    if v.Some? {
      ParseLongToString(v.value);
    }
  }

  /** NUMBER throws on numeric text holding a character that Long.parseLong does not accept. */
  lemma NumberRejectsMalformed(text: string, i: nat)
    requires i < |text| && !IsDigit(text[i])
    requires i == 0 ==> |text| == 1 || (text[0] != '-' && text[0] != '+')
    ensures NumberMapper().Read(Some(N(text))) == Failure(NumberFormat(Some(text)))
  {
    ParseLongRejectsNonDigit(text, i);
  }

  /** DECIMAL round-trips a value when its parse reads back what its print wrote. */
  lemma DecimalRoundTrip<D(!new)>(parse: string -> Result<D, Exception>, format: D -> string, d: D)
    requires parse(format(d)) == Success(d)
    ensures DecimalMapper(parse, format).RoundTripsOn(Some(d))
  {
  }

  /** object round-trips a record that the nested mapper writes and reads back unchanged. */
  lemma ObjectRoundTrip<T(!new)>(mapper: AttributesMapper<T>, v: T)
    requires mapper.ToItem(v).Success? && mapper.FromItem(mapper.ToItem(v).value) == Success(v)
    ensures ObjectMapper(mapper).RoundTripsOn(Some(v))
  {
  }

  /** enumeration round-trips every constant of the enum type, and null. */
  lemma EnumerationRoundTrip<E(!new)>(enumType: EnumType<E>, v: Option<E>)
    requires enumType.Valid()
    requires v.Some? ==> v.value in enumType.constants
    ensures EnumerationMapper(enumType).RoundTripsOn(v)
  {
    if v.Some? {
      var e := v.value;
      var found := enumType.ValueOf(enumType.name(e));
      assert found.Success?;
      var i :| 0 <= i < |enumType.constants| && enumType.constants[i] == found.value;
      var j :| 0 <= j < |enumType.constants| && enumType.constants[j] == e;
      assert i == j;
    }
  }

  /** list round-trips a list whose every element the element mapper round-trips. */
  lemma ListRoundTrip<T(!new)>(mapper: AttributeMapper<T>, xs: seq<Option<T>>)
    requires forall i | 0 <= i < |xs| :: mapper.RoundTripsOn(xs[i])
    ensures ListMapper(mapper).RoundTripsOn(Some(xs))
  {
    var written := WriteAll(mapper, xs);
    assert written.Success?;
    var read := ReadAll(mapper, written.value);
    assert forall i | 0 <= i < |written.value| :: mapper.Read(Some(written.value[i])) == Success(xs[i]);
    assert read.Success?;
    assert read.value == xs;
  }

  /**
   * Lifting twice is not lifting once through `then` on the write side: when the second
   * transform writes null, the intermediate mapper writes Nul at once, while `then` hands
   * the null to the first transform, and String.valueOf writes it as the text "null".
   */
  lemma MapTwiceDiverges()
    ensures var second := Of((x: Option<Long>) => Success(x), (y: Option<Long>) => Success(None));
            && StringMapper().Map(StringToNumeric()).Map(second).Write(Some(5)) == Success(Nul)
            && StringMapper().Map(StringToNumeric().Then(second)).Write(Some(5)) == Success(S("null"))
  {
    var second := Of((x: Option<Long>) => Success(x), (y: Option<Long>) => Success(None));
    assert StringToNumeric().Then(second).Write(Some(5)) == Success(Some("null"));
  }

  /**
   * AttributesBuilder: collects the attributes of a record type in declaration order. Every
   * declaration method appends one attribute and returns the builder itself.
   */
  class AttributesBuilder<R(!new)> {
    const newInstance: () -> R
    var attributes: seq<Attribute<R>>

    /** AttributeMappers.builder(constructor): a builder with no attributes yet. */
    constructor(newInstance: () -> R)
      ensures this.newInstance == newInstance && attributes == []
    {
      this.newInstance := newInstance;
      attributes := [];
    }

    /** attribute(Attribute): appends the attribute. */
    method Append(attribute: Attribute<R>) returns (self: AttributesBuilder<R>)
      modifies this
      ensures self == this && attributes == old(attributes) + [attribute]
    {
      attributes := attributes + [attribute];
      return this;
    }

    /** constant(name, supplier, mapper): appends a ConstantAttribute. */
    method Constant<T(!new)>(name: string, value: () -> Option<T>, mapper: AttributeMapper<T>)
      returns (self: AttributesBuilder<R>)
      modifies this
      ensures self == this && attributes == old(attributes) + [ConstantAttribute(name, value, mapper)]
    {
      self := Append(ConstantAttribute(name, value, mapper));
    }

    /** constantValue(name, value, mapper): a constant whose supplier always gives `value`. */
    method ConstantValue<T(!new)>(name: string, value: Option<T>, mapper: AttributeMapper<T>)
      returns (self: AttributesBuilder<R>)
      modifies this
      ensures self == this && attributes == old(attributes) + [ConstantAttribute(name, Supplying(value), mapper)]
    {
      self := Constant(name, Supplying(value), mapper);
    }

    /** string(name, getter, setter): a property attribute through STRING. */
    method String(name: string, getter: R -> Option<string>, setter: (R, Option<string>) -> R)
      returns (self: AttributesBuilder<R>)
      modifies this
      ensures self == this &&
              attributes == old(attributes) + [SimpleAttribute(Property(name, getter, setter), StringMapper())]
    {
      self := AttributeFor(name, getter, setter, StringMapper());
    }

    /** enumeration(name, getter, setter, enumType): a property attribute through enumeration. */
    method Enumeration<E(!new)>(name: string, getter: R -> Option<E>, setter: (R, Option<E>) -> R, enumType: EnumType<E>)
      returns (self: AttributesBuilder<R>)
      modifies this
      ensures self == this &&
              attributes == old(attributes) + [SimpleAttribute(Property(name, getter, setter), EnumerationMapper(enumType))]
    {
      self := AttributeFor(name, getter, setter, EnumerationMapper(enumType));
    }

    /** number(name, getter, setter): a property attribute through NUMBER. */
    method Number(name: string, getter: R -> Option<Long>, setter: (R, Option<Long>) -> R)
      returns (self: AttributesBuilder<R>)
      modifies this
      ensures self == this &&
              attributes == old(attributes) + [SimpleAttribute(Property(name, getter, setter), NumberMapper())]
    {
      self := AttributeFor(name, getter, setter, NumberMapper());
    }

    /** decimal(name, getter, setter): a property attribute through DECIMAL. */
    method Decimal<D(!new)>(name: string, getter: R -> Option<D>, setter: (R, Option<D>) -> R,
                            parse: string -> Result<D, Exception>, format: D -> string)
      returns (self: AttributesBuilder<R>)
      modifies this
      ensures self == this &&
              attributes == old(attributes) + [SimpleAttribute(Property(name, getter, setter), DecimalMapper(parse, format))]
    {
      self := AttributeFor(name, getter, setter, DecimalMapper(parse, format));
    }

    /** object(name, getter, setter, mapper): a property attribute through object(mapper). */
    method Object<T(!new)>(name: string, getter: R -> Option<T>, setter: (R, Option<T>) -> R, mapper: AttributesMapper<T>)
      returns (self: AttributesBuilder<R>)
      modifies this
      ensures self == this &&
              attributes == old(attributes) + [SimpleAttribute(Property(name, getter, setter), ObjectMapper(mapper))]
    {
      self := AttributeFor(name, getter, setter, ObjectMapper(mapper));
    }

    /** list(name, getter, setter, mapper): a property attribute through list(mapper). */
    method List<T(!new)>(name: string, getter: R -> Option<seq<Option<T>>>, setter: (R, Option<seq<Option<T>>>) -> R,
                         mapper: AttributeMapper<T>)
      returns (self: AttributesBuilder<R>)
      modifies this
      ensures self == this &&
              attributes == old(attributes) + [SimpleAttribute(Property(name, getter, setter), ListMapper(mapper))]
    {
      self := AttributeFor(name, getter, setter, ListMapper(mapper));
    }

    /** attribute(name, getter, setter, mapper): a property attribute with the given mapper. */
    method AttributeFor<T(!new)>(name: string, getter: R -> Option<T>, setter: (R, Option<T>) -> R, mapper: AttributeMapper<T>)
      returns (self: AttributesBuilder<R>)
      modifies this
      ensures self == this && attributes == old(attributes) + [SimpleAttribute(Property(name, getter, setter), mapper)]
    {
      self := PropertyAttribute(Property(name, getter, setter), mapper);
    }

    /** attribute(property, mapper): appends a SimpleAttribute. */
    method PropertyAttribute<T(!new)>(property: Property<R, T>, mapper: AttributeMapper<T>)
      returns (self: AttributesBuilder<R>)
      modifies this
      ensures self == this && attributes == old(attributes) + [SimpleAttribute(property, mapper)]
    {
      self := Append(SimpleAttribute(property, mapper));
    }

    /** build(): the aggregate mapper over the constructor and the attributes in declaration order. */
    method Build() returns (mapper: AttributesMapper<R>)
      ensures mapper.newInstance == newInstance && mapper.attributes == attributes
    {
      mapper := AttributesMapper(newInstance, attributes);
    }
  }

  /** The supplier `() -> value` of constantValue. */
  function Supplying<T>(value: Option<T>): (supplier: () -> Option<T>)
    ensures supplier() == value
  {
    () => value
  }
}
