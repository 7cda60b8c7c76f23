/**
 * The two records of the mapper's test suite and their aggregate mappers: a Pet keyed by
 * a constant partition key "PET" and a sort key "PET#<id>", owning a nested Person.
 * The Pet's dateOfBirth and cost fields are not part of this model.
 */
module MapperExamples {
  import opened Wrappers
  import opened JavaLang
  import opened AttributeValues
  import opened Bidirectional
  import opened AttributeMapping
  import opened Attributes
  import opened AttributesMapping
  import opened AttributeMappers

  datatype PersonType = ADULT | CHILD

  /** The enum PersonType with its constants in declaration order. */
  function PersonTypes(): (e: EnumType<PersonType>)
    ensures e.Valid()
  {
    EnumType([ADULT, CHILD], PersonTypeName)
  }

  function PersonTypeName(t: PersonType): string {
    match t
    case ADULT => "ADULT"
    case CHILD => "CHILD"
  }

  datatype Person = Person(name: Option<string>, externalId: Option<Long>, phoneNumber: Option<Long>,
                           personType: Option<PersonType>, address: Option<seq<Option<string>>>)

  datatype Pet = Pet(id: Option<Long>, name: Option<string>, owner: Option<Person>)

  /** new Person(): every field null. */
  function NewPerson(): Person {
    Person(None, None, None, None, None)
  }

  /** new Pet(): every field null. */
  function NewPet(): Pet {
    Pet(None, None, None)
  }

  // Lombok accessors of Person.
  function GetPersonName(p: Person): Option<string> { p.name }
  function SetPersonName(p: Person, v: Option<string>): Person { p.(name := v) }
  function GetAddress(p: Person): Option<seq<Option<string>>> { p.address }
  function SetAddress(p: Person, v: Option<seq<Option<string>>>): Person { p.(address := v) }
  function GetPhoneNumber(p: Person): Option<Long> { p.phoneNumber }
  function SetPhoneNumber(p: Person, v: Option<Long>): Person { p.(phoneNumber := v) }
  function GetPersonType(p: Person): Option<PersonType> { p.personType }
  function SetPersonType(p: Person, v: Option<PersonType>): Person { p.(personType := v) }
  function GetExternalId(p: Person): Option<Long> { p.externalId }
  function SetExternalId(p: Person, v: Option<Long>): Person { p.(externalId := v) }

  // Lombok accessors of Pet.
  function GetId(p: Pet): Option<Long> { p.id }
  function SetId(p: Pet, v: Option<Long>): Pet { p.(id := v) }
  function GetPetName(p: Pet): Option<string> { p.name }
  function SetPetName(p: Pet, v: Option<string>): Pet { p.(name := v) }
  function GetOwner(p: Pet): Option<Person> { p.owner }
  function SetOwner(p: Pet, v: Option<Person>): Pet { p.(owner := v) }

  /** The externalId codec: STRING, then the prefix "C_", then the decimal text of a long. */
  function ExternalIdMapper(): AttributeMapper<Long> {
    StringMapper().Map(WithPrefix("C_").Then(StringToNumeric()))
  }

  /** The sort key codec: STRING, then the prefix "PET#", then the decimal text of a long. */
  function SortKeyMapper(): AttributeMapper<Long> {
    StringMapper().Map(Hashed("PET")).Map(StringToNumeric())
  }

  /** The attributes of PERSON_MAPPER, one per field. */
  function PersonNameAttribute(): Attribute<Person> {
    SimpleAttribute(Property("name", GetPersonName, SetPersonName), StringMapper())
  }
  function AddressAttribute(): Attribute<Person> {
    SimpleAttribute(Property("address", GetAddress, SetAddress), ListMapper(StringMapper()))
  }
  function PhoneNumberAttribute(): Attribute<Person> {
    SimpleAttribute(Property("phoneNumber", GetPhoneNumber, SetPhoneNumber), NumberMapper())
  }
  function PersonTypeAttribute(): Attribute<Person> {
    SimpleAttribute(Property("type", GetPersonType, SetPersonType), EnumerationMapper(PersonTypes()))
  }
  function ExternalIdAttribute(): Attribute<Person> {
    SimpleAttribute(Property("externalId", GetExternalId, SetExternalId), ExternalIdMapper())
  }

  /** PERSON_MAPPER: name, address, phoneNumber, type and externalId, in that order. */
  function PersonMapper(): AttributesMapper<Person> {
    AttributesMapper(NewPerson, [PersonNameAttribute(), AddressAttribute(), PhoneNumberAttribute(),
                                 PersonTypeAttribute(), ExternalIdAttribute()])
  }

  /** The attributes of PET_MAPPER; id and sk are both bound to the field id. */
  function PartitionKeyAttribute(): Attribute<Pet> {
    ConstantAttribute("pk", Supplying(Some("PET")), StringMapper())
  }
  function IdAttribute(): Attribute<Pet> {
    SimpleAttribute(Property("id", GetId, SetId), NumberMapper())
  }
  function PetNameAttribute(): Attribute<Pet> {
    SimpleAttribute(Property("name", GetPetName, SetPetName), StringMapper())
  }
  function SortKeyAttribute(): Attribute<Pet> {
    SimpleAttribute(Property("sk", GetId, SetId), SortKeyMapper())
  }
  function OwnerAttribute(ownerMapper: AttributesMapper<Person>): Attribute<Pet> {
    SimpleAttribute(Property("owner", GetOwner, SetOwner), ObjectMapper(ownerMapper))
  }

  /** The Pet mapper over a given mapper for the owner: pk, id, name, sk and owner, in that order. */
  function PetMapperOver(ownerMapper: AttributesMapper<Person>): AttributesMapper<Pet> {
    AttributesMapper(NewPet, [PartitionKeyAttribute(), IdAttribute(), PetNameAttribute(),
                              SortKeyAttribute(), OwnerAttribute(ownerMapper)])
  }

  /** PET_MAPPER: the owner is written and read through PERSON_MAPPER. */
  function PetMapper(): AttributesMapper<Pet> {
    PetMapperOver(PersonMapper())
  }

  // The attribute maps the test suite expects, written out field by field.

  /** A nullable string field: Nul, or its text. */
  function StringItem(v: Option<string>): AttributeValue {
    if v.None? then Nul else S(v.value)
  }

  /** A nullable long field: Nul, or its decimal text. */
  function LongItem(v: Option<Long>): AttributeValue {
    if v.None? then Nul else N(LongToString(v.value))
  }

  /** A nullable long field stored as prefixed text: Nul, or the prefix and the decimal text. */
  function KeyItem(prefix: string, v: Option<Long>): AttributeValue {
    if v.None? then Nul else S(prefix + LongToString(v.value))
  }

  /** A nullable list of nullable strings: Nul, or the list of the elements' items. */
  function AddressItem(v: Option<seq<Option<string>>>): AttributeValue {
    if v.None? then Nul else L(seq(|v.value|, i requires 0 <= i < |v.value| => StringItem(v.value[i])))
  }

  /** A nullable PersonType: Nul, or the constant's name. */
  function PersonTypeItem(v: Option<PersonType>): AttributeValue {
    if v.None? then Nul else S(PersonTypeName(v.value))
  }

  /** The attribute map of a Person: one entry per field, null fields as Nul. */
  function PersonItem(p: Person): map<string, AttributeValue> {
    map["name" := StringItem(p.name), "address" := AddressItem(p.address), "phoneNumber" := LongItem(p.phoneNumber),
        "type" := PersonTypeItem(p.personType), "externalId" := KeyItem("C_", p.externalId)]
  }

  /** A nullable owner: Nul, or the owner's expected map. */
  function OwnerItem(v: Option<Person>): AttributeValue {
    if v.None? then Nul else M(PersonItem(v.value))
  }

  /** The attribute map of a Pet: the constant key, both keys for id, and the owner's own map. */
  function PetItem(p: Pet): map<string, AttributeValue> {
    map["pk" := S("PET"), "id" := LongItem(p.id), "name" := StringItem(p.name), "sk" := KeyItem("PET#", p.id),
        "owner" := OwnerItem(p.owner)]
  }

  /** `item` holds every entry of `expected`, and possibly more. */
  ghost predicate Extends(item: map<string, AttributeValue>, expected: map<string, AttributeValue>) {
    forall k | k in expected :: k in item && item[k] == expected[k]
  }

  // Codecs: each writes a field value as the expected map holds it and reads that entry back.

  /** STRING writes a string as S and reads it back; null is written as Nul and read back as null. */
  lemma StringCodec(v: Option<string>)
    ensures StringMapper().Write(v) == Success(StringItem(v))
    ensures StringMapper().Read(Some(StringItem(v))) == Success(v)
  {
    StringRoundTrip(v);
  }

  /** NUMBER writes a long as its decimal text and reads it back; likewise null. */
  lemma NumberCodec(v: Option<Long>)
    ensures NumberMapper().Write(v) == Success(LongItem(v))
    ensures NumberMapper().Read(Some(LongItem(v))) == Success(v)
  {
    NumberRoundTrip(v);
  }

  /** The codec of address writes a list element by element, null elements as Nul, and reads it back. */
  lemma AddressCodec(v: Option<seq<Option<string>>>)
    ensures ListMapper(StringMapper()).Write(v) == Success(AddressItem(v))
    ensures ListMapper(StringMapper()).Read(Some(AddressItem(v))) == Success(v)
  {
    if v.Some? {
      var xs := v.value;
      var written := WriteAll(StringMapper(), xs);
      assert written.value == seq(|xs|, i requires 0 <= i < |xs| => StringItem(xs[i]));
      forall i | 0 <= i < |xs| {
        StringRoundTrip(xs[i]);
      }
      ListRoundTrip(StringMapper(), xs);
    }
  }

  /** The codec of type writes a constant as its name and reads it back; likewise null. */
  lemma PersonTypeCodec(v: Option<PersonType>)
    ensures EnumerationMapper(PersonTypes()).Write(v) == Success(PersonTypeItem(v))
    ensures EnumerationMapper(PersonTypes()).Read(Some(PersonTypeItem(v))) == Success(v)
  {
    if v.Some? {
      assert v.value in PersonTypes().constants by {
        match v.value
        case ADULT => assert PersonTypes().constants[0] == ADULT;
        case CHILD => assert PersonTypes().constants[1] == CHILD;
      }
    }
    EnumerationRoundTrip(PersonTypes(), v);
  }

  /** The codec of externalId writes a long as "C_" and its decimal text, and null as Nul. */
  lemma ExternalIdWrites(v: Option<Long>)
    ensures ExternalIdMapper().Write(v) == Success(KeyItem("C_", v))
  {
    if v.Some? {
      var transform := WithPrefix("C_").Then(StringToNumeric());
      assert transform.Write(v) == Success(Some("C_" + LongToString(v.value)));
    }
  }

  /** The codec of externalId round-trips every long and reads "C_" and its decimal text back. */
  lemma ExternalIdRoundTrip(n: Long)
    ensures ExternalIdMapper().RoundTripsOn(Some(n))
    ensures ExternalIdMapper().Read(Some(KeyItem("C_", Some(n)))) == Success(Some(n))
  {
    var transform := WithPrefix("C_").Then(StringToNumeric());
    StringToNumericRoundTrip(n);
    WithPrefixRoundTrip("C_", StringToNumeric().Write(Some(n)).value);
    ThenRoundTrip(WithPrefix("C_"), StringToNumeric(), Some(n));
    StringRoundTrip(transform.Write(Some(n)).value);
    MapRoundTrip(StringMapper(), transform, n);
    ExternalIdWrites(Some(n));
  }

  /** The codec of externalId as the Person attribute uses it: a null externalId is written but does not read back. */
  lemma ExternalIdCodec(v: Option<Long>)
    ensures ExternalIdMapper().Write(v) == Success(KeyItem("C_", v))
    ensures v.Some? ==> ExternalIdMapper().Read(Some(KeyItem("C_", v))) == Success(v)
    ensures v.None? ==> ExternalIdMapper().Read(Some(KeyItem("C_", v))) == Failure(NumberFormat(None))
  {
    ExternalIdWrites(v);
    if v.Some? {
      ExternalIdRoundTrip(v.value);
    } else {
      ExternalIdRejectsNul();
    }
  }

  /** The codec of sk writes a long as "PET#" and its decimal text, and null as Nul. */
  lemma SortKeyWrites(v: Option<Long>)
    ensures SortKeyMapper().Write(v) == Success(KeyItem("PET#", v))
  {
    if v.Some? {
      assert "PET" + "#" == "PET#";
      assert StringToNumeric().Write(v) == Success(Some(LongToString(v.value)));
      assert StringMapper().Map(Hashed("PET")).Write(Some(LongToString(v.value)))
             == Success(S("PET#" + LongToString(v.value)));
    }
  }

  /** The codec of sk round-trips every long and reads "PET#" and its decimal text back. */
  lemma SortKeyRoundTrip(n: Long)
    ensures SortKeyMapper().RoundTripsOn(Some(n))
    ensures SortKeyMapper().Read(Some(KeyItem("PET#", Some(n)))) == Success(Some(n))
  {
    var text := LongToString(n);
    StringToNumericRoundTrip(n);
    assert StringToNumeric().Write(Some(n)) == Success(Some(text));
    PrefixedBidirectional.RoundTrip("PET#", Some(text));
    assert Hashed("PET").RoundTripsOn(Some(text));
    StringRoundTrip(Hashed("PET").Write(Some(text)).value);
    MapRoundTrip(StringMapper(), Hashed("PET"), text);
    MapRoundTrip(StringMapper().Map(Hashed("PET")), StringToNumeric(), n);
    SortKeyWrites(Some(n));
  }

  /**
   * A Nul externalId does not read back: STRING reads it as null, the prefix mapper passes
   * null on, and Long.parseLong(null) throws.
   */
  lemma ExternalIdRejectsNul()
    ensures ExternalIdMapper().Read(Some(Nul)) == Failure(NumberFormat(None))
  {
    var transform := WithPrefix("C_").Then(StringToNumeric());
    assert StringMapper().Read(Some(Nul)) == Success(None);
    assert WithPrefix("C_").Read(None) == Success(None);
  }

  /** The codec of sk as the Pet attribute uses it: a null id is written but does not read back. */
  lemma SortKeyCodec(v: Option<Long>)
    ensures SortKeyMapper().Write(v) == Success(KeyItem("PET#", v))
    ensures v.Some? ==> SortKeyMapper().Read(Some(KeyItem("PET#", v))) == Success(v)
    ensures v.None? ==> SortKeyMapper().Read(Some(KeyItem("PET#", v))) == Failure(NumberFormat(None))
  {
    SortKeyWrites(v);
    if v.Some? {
      SortKeyRoundTrip(v.value);
    } else {
      SortKeyRejectsNul();
    }
  }

  /**
   * A Nul sort key does not read back: STRING reads it as null, the prefix mapper passes null
   * on, and Long.parseLong(null) throws.
   */
  lemma SortKeyRejectsNul()
    ensures SortKeyMapper().Read(Some(Nul)) == Failure(NumberFormat(None))
  {
    var hashed := StringMapper().Map(Hashed("PET"));
    assert hashed.Read(Some(Nul)) == Success(None);
  }

  // The attributes of PERSON_MAPPER: each writes its field as the expected map holds it and
  // reads the field back from that entry into any record.

  lemma PersonNameWrites(p: Person)
    ensures PersonNameAttribute().name == "name" && PersonNameAttribute().Value(p) == Success(StringItem(p.name))
  {
    StringCodec(p.name);
  }

  lemma PersonNameReads(p: Person, item: map<string, AttributeValue>, q: Person)
    requires "name" in item && item["name"] == StringItem(p.name)
    ensures PersonNameAttribute().ApplyToInstance(item, q) == Success(q.(name := p.name))
  {
    StringCodec(p.name);
    FieldReads(Property("name", GetPersonName, SetPersonName), StringMapper(), item, q, p.name);
  }

  lemma AddressWrites(p: Person)
    ensures AddressAttribute().name == "address" && AddressAttribute().Value(p) == Success(AddressItem(p.address))
  {
    AddressCodec(p.address);
  }

  lemma AddressReads(p: Person, item: map<string, AttributeValue>, q: Person)
    requires "address" in item && item["address"] == AddressItem(p.address)
    ensures AddressAttribute().ApplyToInstance(item, q) == Success(q.(address := p.address))
  {
    AddressCodec(p.address);
    FieldReads(Property("address", GetAddress, SetAddress), ListMapper(StringMapper()), item, q, p.address);
  }

  lemma PhoneNumberWrites(p: Person)
    ensures PhoneNumberAttribute().name == "phoneNumber"
    ensures PhoneNumberAttribute().Value(p) == Success(LongItem(p.phoneNumber))
  {
    NumberCodec(p.phoneNumber);
  }

  lemma PhoneNumberReads(p: Person, item: map<string, AttributeValue>, q: Person)
    requires "phoneNumber" in item && item["phoneNumber"] == LongItem(p.phoneNumber)
    ensures PhoneNumberAttribute().ApplyToInstance(item, q) == Success(q.(phoneNumber := p.phoneNumber))
  {
    NumberCodec(p.phoneNumber);
    FieldReads(Property("phoneNumber", GetPhoneNumber, SetPhoneNumber), NumberMapper(), item, q, p.phoneNumber);
  }

  lemma PersonTypeWrites(p: Person)
    ensures PersonTypeAttribute().name == "type"
    ensures PersonTypeAttribute().Value(p) == Success(PersonTypeItem(p.personType))
  {
    PersonTypeCodec(p.personType);
  }

  lemma PersonTypeReads(p: Person, item: map<string, AttributeValue>, q: Person)
    requires "type" in item && item["type"] == PersonTypeItem(p.personType)
    ensures PersonTypeAttribute().ApplyToInstance(item, q) == Success(q.(personType := p.personType))
  {
    PersonTypeCodec(p.personType);
    FieldReads(Property("type", GetPersonType, SetPersonType), EnumerationMapper(PersonTypes()), item, q, p.personType);
  }

  lemma ExternalIdAttributeWrites(p: Person)
    ensures ExternalIdAttribute().name == "externalId"
    ensures ExternalIdAttribute().Value(p) == Success(KeyItem("C_", p.externalId))
  {
    ExternalIdWrites(p.externalId);
    FieldWrites(Property("externalId", GetExternalId, SetExternalId), ExternalIdMapper(), p, KeyItem("C_", p.externalId));
  }

  /** externalId is read back only when it is not null (see ExternalIdCodec). */
  lemma ExternalIdReads(p: Person, item: map<string, AttributeValue>, q: Person)
    requires p.externalId.Some?
    requires "externalId" in item && item["externalId"] == KeyItem("C_", p.externalId)
    ensures ExternalIdAttribute().ApplyToInstance(item, q) == Success(q.(externalId := p.externalId))
  {
    ExternalIdCodec(p.externalId);
    FieldReads(Property("externalId", GetExternalId, SetExternalId), ExternalIdMapper(), item, q, p.externalId);
  }

  /** Writing through five attributes puts each one's value under its name, later names winning. */
  lemma StoreFive<R>(a1: Attribute<R>, a2: Attribute<R>, a3: Attribute<R>, a4: Attribute<R>, a5: Attribute<R>,
                     instance: R, v1: AttributeValue, v2: AttributeValue, v3: AttributeValue,
                     v4: AttributeValue, v5: AttributeValue)
    requires a1.Value(instance) == Success(v1) && a2.Value(instance) == Success(v2) && a3.Value(instance) == Success(v3)
    requires a4.Value(instance) == Success(v4) && a5.Value(instance) == Success(v5)
    ensures StoreAll([a1, a2, a3, a4, a5], instance, map[])
            == Success(map[a1.name := v1][a2.name := v2][a3.name := v3][a4.name := v4][a5.name := v5])
  {
    var m1 := map[a1.name := v1];
    var m2 := m1[a2.name := v2];
    var m3 := m2[a3.name := v3];
    var m4 := m3[a4.name := v4];
    var m5 := m4[a5.name := v5];
    assert StoreAll([a5], instance, m4) == Success(m5) by {
      assert StoreAll([a5], instance, m4) == StoreAll([], instance, m5);
    }
    assert StoreAll([a4, a5], instance, m3) == Success(m5) by {
      assert [a4, a5][1..] == [a5];
    }
    assert StoreAll([a3, a4, a5], instance, m2) == Success(m5) by {
      assert [a3, a4, a5][1..] == [a4, a5];
    }
    assert StoreAll([a2, a3, a4, a5], instance, m1) == Success(m5) by {
      assert [a2, a3, a4, a5][1..] == [a3, a4, a5];
    }
    assert [a1, a2, a3, a4, a5][1..] == [a2, a3, a4, a5];
  }

  /** Reading through five attributes whose steps all succeed ends in the last step's record. */
  lemma LoadFive<R>(a1: Attribute<R>, a2: Attribute<R>, a3: Attribute<R>, a4: Attribute<R>, a5: Attribute<R>,
                    item: map<string, AttributeValue>, s0: R, s1: R, s2: R, s3: R, s4: R, s5: R)
    requires a1.ApplyToInstance(item, s0) == Success(s1) && a2.ApplyToInstance(item, s1) == Success(s2)
    requires a3.ApplyToInstance(item, s2) == Success(s3) && a4.ApplyToInstance(item, s3) == Success(s4)
    requires a5.ApplyToInstance(item, s4) == Success(s5)
    ensures LoadAll([a1, a2, a3, a4, a5], item, s0) == Success(s5)
  {
    assert LoadAll([a5], item, s4) == Success(s5) by {
      assert LoadAll([a5], item, s4) == LoadAll([], item, s5);
    }
    assert LoadAll([a4, a5], item, s3) == Success(s5) by {
      assert [a4, a5][1..] == [a5];
    }
    assert LoadAll([a3, a4, a5], item, s2) == Success(s5) by {
      assert [a3, a4, a5][1..] == [a4, a5];
    }
    assert LoadAll([a2, a3, a4, a5], item, s1) == Success(s5) by {
      assert [a2, a3, a4, a5][1..] == [a3, a4, a5];
    }
    assert [a1, a2, a3, a4, a5][1..] == [a2, a3, a4, a5];
  }

  /** PERSON_MAPPER writes every Person as its expected map. */
  lemma PersonToItem(p: Person)
    ensures PersonMapper().ToItem(p) == Success(PersonItem(p))
  {
    PersonNameWrites(p);
    AddressWrites(p);
    PhoneNumberWrites(p);
    PersonTypeWrites(p);
    ExternalIdAttributeWrites(p);
    StoreFive(PersonNameAttribute(), AddressAttribute(), PhoneNumberAttribute(), PersonTypeAttribute(),
              ExternalIdAttribute(), p, StringItem(p.name), AddressItem(p.address), LongItem(p.phoneNumber),
              PersonTypeItem(p.personType), KeyItem("C_", p.externalId));
  }

  /** The entries of a map that extends a Person's expected map. */
  lemma PersonEntries(p: Person, item: map<string, AttributeValue>)
    requires Extends(item, PersonItem(p))
    ensures "name" in item && item["name"] == StringItem(p.name)
    ensures "address" in item && item["address"] == AddressItem(p.address)
    ensures "phoneNumber" in item && item["phoneNumber"] == LongItem(p.phoneNumber)
    ensures "type" in item && item["type"] == PersonTypeItem(p.personType)
    ensures "externalId" in item && item["externalId"] == KeyItem("C_", p.externalId)
  {
    assert "name" in PersonItem(p) && "address" in PersonItem(p) && "phoneNumber" in PersonItem(p);
    assert "type" in PersonItem(p) && "externalId" in PersonItem(p);
  }

  /**
   * PERSON_MAPPER reads a Person back from any map holding its expected entries, when its
   * externalId is not null; other keys are ignored.
   */
  lemma PersonFromItem(p: Person, item: map<string, AttributeValue>)
    requires p.externalId.Some?
    requires Extends(item, PersonItem(p))
    ensures PersonMapper().FromItem(item) == Success(p)
  {
    var s0 := NewPerson();
    var s1 := s0.(name := p.name);
    var s2 := s1.(address := p.address);
    var s3 := s2.(phoneNumber := p.phoneNumber);
    var s4 := s3.(personType := p.personType);
    PersonEntries(p, item);
    PersonNameReads(p, item, s0);
    AddressReads(p, item, s1);
    PhoneNumberReads(p, item, s2);
    PersonTypeReads(p, item, s3);
    ExternalIdReads(p, item, s4);
    LoadFive(PersonNameAttribute(), AddressAttribute(), PhoneNumberAttribute(), PersonTypeAttribute(),
             ExternalIdAttribute(), item, s0, s1, s2, s3, s4, p);
  }

  // The attributes of PET_MAPPER, likewise.

  lemma PartitionKeyWrites(pet: Pet)
    ensures PartitionKeyAttribute().name == "pk" && PartitionKeyAttribute().Value(pet) == Success(S("PET"))
  {
  }

  lemma IdWrites(pet: Pet)
    ensures IdAttribute().name == "id" && IdAttribute().Value(pet) == Success(LongItem(pet.id))
  {
    NumberCodec(pet.id);
  }

  lemma IdReads(pet: Pet, item: map<string, AttributeValue>, q: Pet)
    requires "id" in item && item["id"] == LongItem(pet.id)
    ensures IdAttribute().ApplyToInstance(item, q) == Success(q.(id := pet.id))
  {
    NumberCodec(pet.id);
    FieldReads(Property("id", GetId, SetId), NumberMapper(), item, q, pet.id);
  }

  lemma PetNameWrites(pet: Pet)
    ensures PetNameAttribute().name == "name" && PetNameAttribute().Value(pet) == Success(StringItem(pet.name))
  {
    StringCodec(pet.name);
  }

  lemma PetNameReads(pet: Pet, item: map<string, AttributeValue>, q: Pet)
    requires "name" in item && item["name"] == StringItem(pet.name)
    ensures PetNameAttribute().ApplyToInstance(item, q) == Success(q.(name := pet.name))
  {
    StringCodec(pet.name);
    FieldReads(Property("name", GetPetName, SetPetName), StringMapper(), item, q, pet.name);
  }

  lemma SortKeyAttributeWrites(pet: Pet)
    ensures SortKeyAttribute().name == "sk" && SortKeyAttribute().Value(pet) == Success(KeyItem("PET#", pet.id))
  {
    SortKeyWrites(pet.id);
    FieldWrites(Property("sk", GetId, SetId), SortKeyMapper(), pet, KeyItem("PET#", pet.id));
  }

  /** sk is read back only when id is not null (see SortKeyCodec). */
  lemma SortKeyReads(pet: Pet, item: map<string, AttributeValue>, q: Pet)
    requires pet.id.Some?
    requires "sk" in item && item["sk"] == KeyItem("PET#", pet.id)
    ensures SortKeyAttribute().ApplyToInstance(item, q) == Success(q.(id := pet.id))
  {
    SortKeyCodec(pet.id);
    FieldReads(Property("sk", GetId, SetId), SortKeyMapper(), item, q, pet.id);
  }

  /** A Nul sort key makes reading the Pet throw, whatever the record. */
  lemma SortKeyRejectsNulEntry(item: map<string, AttributeValue>, q: Pet)
    requires "sk" in item && item["sk"] == Nul
    ensures SortKeyAttribute().ApplyToInstance(item, q) == Failure(NumberFormat(None))
  {
    SortKeyRejectsNul();
    FieldFails(Property("sk", GetId, SetId), SortKeyMapper(), item, q, NumberFormat(None));
  }

  lemma OwnerWrites(ownerMapper: AttributesMapper<Person>, pet: Pet)
    requires pet.owner.Some? ==> ownerMapper.ToItem(pet.owner.value) == Success(PersonItem(pet.owner.value))
    ensures OwnerAttribute(ownerMapper).name == "owner"
    ensures OwnerAttribute(ownerMapper).Value(pet) == Success(OwnerItem(pet.owner))
  {
  }

  lemma OwnerReads(ownerMapper: AttributesMapper<Person>, pet: Pet, item: map<string, AttributeValue>, q: Pet)
    requires pet.owner.Some? ==> ownerMapper.FromItem(PersonItem(pet.owner.value)) == Success(pet.owner.value)
    requires "owner" in item && item["owner"] == OwnerItem(pet.owner)
    ensures OwnerAttribute(ownerMapper).ApplyToInstance(item, q) == Success(q.(owner := pet.owner))
  {
    FieldReads(Property("owner", GetOwner, SetOwner), ObjectMapper(ownerMapper), item, q, pet.owner);
  }

  /** The Pet mapper writes every Pet as its expected map, given an owner mapper that does so for the owner. */
  lemma PetOverToItem(ownerMapper: AttributesMapper<Person>, pet: Pet)
    requires pet.owner.Some? ==> ownerMapper.ToItem(pet.owner.value) == Success(PersonItem(pet.owner.value))
    ensures PetMapperOver(ownerMapper).ToItem(pet) == Success(PetItem(pet))
  {
    PartitionKeyWrites(pet);
    IdWrites(pet);
    PetNameWrites(pet);
    SortKeyAttributeWrites(pet);
    OwnerWrites(ownerMapper, pet);
    StoreFive(PartitionKeyAttribute(), IdAttribute(), PetNameAttribute(), SortKeyAttribute(),
              OwnerAttribute(ownerMapper), pet, S("PET"), LongItem(pet.id), StringItem(pet.name),
              KeyItem("PET#", pet.id), OwnerItem(pet.owner));
  }

  /** The entries of a map that extends a Pet's expected map. */
  lemma PetEntries(pet: Pet, item: map<string, AttributeValue>)
    requires Extends(item, PetItem(pet))
    ensures "id" in item && item["id"] == LongItem(pet.id)
    ensures "name" in item && item["name"] == StringItem(pet.name)
    ensures "sk" in item && item["sk"] == KeyItem("PET#", pet.id)
    ensures "owner" in item && item["owner"] == OwnerItem(pet.owner)
  {
    assert "id" in PetItem(pet) && "name" in PetItem(pet) && "sk" in PetItem(pet) && "owner" in PetItem(pet);
  }

  /**
   * The Pet mapper reads a Pet back from any map holding its expected entries, when its id is
   * not null and the owner mapper reads the owner back from the owner's expected map.
   */
  lemma PetOverFromItem(ownerMapper: AttributesMapper<Person>, pet: Pet, item: map<string, AttributeValue>)
    requires pet.id.Some?
    requires pet.owner.Some? ==> ownerMapper.FromItem(PersonItem(pet.owner.value)) == Success(pet.owner.value)
    requires Extends(item, PetItem(pet))
    ensures PetMapperOver(ownerMapper).FromItem(item) == Success(pet)
  {
    var s0 := NewPet();
    var s2 := s0.(id := pet.id);
    var s3 := s2.(name := pet.name);
    PetEntries(pet, item);
    IdReads(pet, item, s0);
    PetNameReads(pet, item, s2);
    SortKeyReads(pet, item, s3);
    OwnerReads(ownerMapper, pet, item, s3);
    LoadFive(PartitionKeyAttribute(), IdAttribute(), PetNameAttribute(), SortKeyAttribute(),
             OwnerAttribute(ownerMapper), item, s0, s0, s2, s3, s3, pet);
  }

  /** Reading through five attributes whose first three steps succeed and fourth throws throws that. */
  lemma LoadFiveFailsAtFour<R>(a1: Attribute<R>, a2: Attribute<R>, a3: Attribute<R>, a4: Attribute<R>, a5: Attribute<R>,
                               item: map<string, AttributeValue>, s0: R, s1: R, s2: R, s3: R, e: Exception)
    requires a1.ApplyToInstance(item, s0) == Success(s1) && a2.ApplyToInstance(item, s1) == Success(s2)
    requires a3.ApplyToInstance(item, s2) == Success(s3) && a4.ApplyToInstance(item, s3) == Failure(e)
    ensures LoadAll([a1, a2, a3, a4, a5], item, s0) == Failure(e)
  {
    assert LoadAll([a4, a5], item, s3) == Failure(e);
    assert LoadAll([a3, a4, a5], item, s2) == Failure(e) by {
      assert [a3, a4, a5][1..] == [a4, a5];
    }
    assert LoadAll([a2, a3, a4, a5], item, s1) == Failure(e) by {
      assert [a2, a3, a4, a5][1..] == [a3, a4, a5];
    }
    assert [a1, a2, a3, a4, a5][1..] == [a2, a3, a4, a5];
  }

  // The scenarios of the mapper's test suite.

  /** The test suite's owner: name "test2", externalId 28, no phone number, ADULT, address ["test4"]. */
  function TestOwner(): Person {
    Person(Some("test2"), Some(28), None, Some(ADULT), Some([Some("test4")]))
  }

  /** The test suite's Pet: id 1, name "test1", owned by TestOwner(). */
  function TestPet(): Pet {
    Pet(Some(1), Some("test1"), Some(TestOwner()))
  }

  /** The test suite's attribute map, with the dateOfBirth and cost entries this model does not read. */
  function TestMap(): map<string, AttributeValue> {
    map["pk" := S("PET"), "sk" := S("PET#1"), "id" := N("1"), "name" := S("test1"),
        "dateOfBirth" := S("2000-01-01"), "cost" := N("10.0"),
        "owner" := M(map["name" := S("test2"), "phoneNumber" := Nul, "type" := S("ADULT"),
                         "externalId" := S("C_28"), "address" := L([S("test4")])])]
  }

  /** The expected map of the test owner: "test2", the one-element address, a Nul phone number, "ADULT", "C_28". */
  lemma TestOwnerItem()
    ensures PersonItem(TestOwner())
            == map["name" := S("test2"), "address" := L([S("test4")]), "phoneNumber" := Nul,
                   "type" := S("ADULT"), "externalId" := S("C_28")]
  {
    assert LongToString(28) == "28";
    assert KeyItem("C_", Some(28)) == S("C_28");
    var address := [Some("test4")];
    assert AddressItem(Some(address)) == L([S("test4")]) by {
      assert StringItem(address[0]) == S("test4");
    }
  }

  /** The expected map of the test Pet: pk "PET", id "1", name "test1", sk "PET#1" and the owner's map. */
  lemma TestPetItem()
    ensures PetItem(TestPet())
            == map["pk" := S("PET"), "id" := N("1"), "name" := S("test1"), "sk" := S("PET#1"),
                   "owner" := M(PersonItem(TestOwner()))]
  {
    var pet := TestPet();
    assert LongItem(pet.id) == N("1") && KeyItem("PET#", pet.id) == S("PET#1") by {
      LongTextOfOne();
    }
    assert StringItem(pet.name) == S("test1");
    assert OwnerItem(pet.owner) == M(PersonItem(TestOwner()));
  }

  /** Long.toString(1) is "1". */
  lemma LongTextOfOne()
    ensures LongToString(1) == "1"
  {
    assert NatToString(1) == [DigitChar(1)];
  }

  /** The test suite's map holds every entry of the test Pet's expected map, and dateOfBirth and cost besides. */
  lemma TestMapExtends()
    ensures Extends(TestMap(), PetItem(TestPet()))
    ensures TestMap().Keys == PetItem(TestPet()).Keys + {"dateOfBirth", "cost"}
  {
    TestOwnerItem();
    TestPetItem();
  }

  /** Mapping the test Pet gives the test suite's map less dateOfBirth and cost. */
  lemma TestPetToItem(ownerMapper: AttributesMapper<Person>)
    requires ownerMapper.ToItem(TestOwner()) == Success(PersonItem(TestOwner()))
    ensures PetMapperOver(ownerMapper).ToItem(TestPet()).Success?
    ensures Extends(TestMap(), PetMapperOver(ownerMapper).ToItem(TestPet()).value)
  {
    PetOverToItem(ownerMapper, TestPet());
    TestMapExtends();
  }

  /** Mapping the test suite's map gives the test Pet. */
  lemma TestMapFromItem(ownerMapper: AttributesMapper<Person>)
    requires ownerMapper.FromItem(PersonItem(TestOwner())) == Success(TestOwner())
    ensures PetMapperOver(ownerMapper).FromItem(TestMap()) == Success(TestPet())
  {
    TestMapExtends();
    PetOverFromItem(ownerMapper, TestPet(), TestMap());
  }

  /** Mapping an empty map gives a Pet whose every field is null. */
  lemma EmptyMapFromItem(ownerMapper: AttributesMapper<Person>)
    ensures PetMapperOver(ownerMapper).FromItem(map[]) == Success(NewPet())
  {
    var empty: map<string, AttributeValue> := map[];
    var pet := NewPet();
    FieldReads(Property("id", GetId, SetId), NumberMapper(), empty, pet, None);
    FieldReads(Property("name", GetPetName, SetPetName), StringMapper(), empty, pet, None);
    FieldReads(Property("sk", GetId, SetId), SortKeyMapper(), empty, pet, None);
    FieldReads(Property("owner", GetOwner, SetOwner), ObjectMapper(ownerMapper), empty, pet, None);
    LoadFive(PartitionKeyAttribute(), IdAttribute(), PetNameAttribute(), SortKeyAttribute(),
             OwnerAttribute(ownerMapper), empty, pet, pet, pet, pet, pet, pet);
  }

  /** Mapping a Pet whose every field is null gives pk "PET" and Nul under every other key. */
  lemma NewPetToItem(ownerMapper: AttributesMapper<Person>)
    ensures PetMapperOver(ownerMapper).ToItem(NewPet())
            == Success(map["pk" := S("PET"), "id" := Nul, "name" := Nul, "sk" := Nul, "owner" := Nul])
  {
    PetOverToItem(ownerMapper, NewPet());
  }

  /**
   * That map does not read back: the Nul under sk reaches Long.parseLong as null, which
   * throws, so a Pet with a null id does not survive a round trip.
   */
  lemma NewPetDoesNotReadBack(ownerMapper: AttributesMapper<Person>)
    ensures PetMapperOver(ownerMapper).FromItem(PetItem(NewPet())) == Failure(NumberFormat(None))
  {
    var pet := NewPet();
    var item := PetItem(pet);
    PetEntries(pet, item);
    IdReads(pet, item, pet);
    PetNameReads(pet, item, pet);
    SortKeyRejectsNulEntry(item, pet);
    LoadFiveFailsAtFour(PartitionKeyAttribute(), IdAttribute(), PetNameAttribute(), SortKeyAttribute(),
                        OwnerAttribute(ownerMapper), item, pet, pet, pet, pet, NumberFormat(None));
  }

  /**
   * id and sk are both bound to the field id: sk comes later, so its value wins on reading
   * a map whose two entries disagree.
   */
  lemma SortKeyWinsOverId(ownerMapper: AttributesMapper<Person>, item: map<string, AttributeValue>,
                          idValue: Long, skValue: Long)
    requires "id" in item && item["id"] == LongItem(Some(idValue))
    requires "sk" in item && item["sk"] == KeyItem("PET#", Some(skValue))
    requires "name" !in item && "owner" !in item
    ensures PetMapperOver(ownerMapper).FromItem(item) == Success(Pet(Some(skValue), None, None))
  {
    var s0 := NewPet();
    var s1 := Pet(Some(idValue), None, None);
    var s3 := Pet(Some(skValue), None, None);
    IdReads(s1, item, s0);
    FieldReads(Property("name", GetPetName, SetPetName), StringMapper(), item, s1, None);
    SortKeyReads(s3, item, s1);
    FieldReads(Property("owner", GetOwner, SetOwner), ObjectMapper(ownerMapper), item, s3, None);
    LoadFive(PartitionKeyAttribute(), IdAttribute(), PetNameAttribute(), SortKeyAttribute(),
             OwnerAttribute(ownerMapper), item, s0, s0, s1, s1, s3, s3);
  }

  /** Five appends to an empty sequence give the five appended elements in order. */
  lemma AppendFive<R>(s0: seq<Attribute<R>>, s1: seq<Attribute<R>>, s2: seq<Attribute<R>>, s3: seq<Attribute<R>>,
                      s4: seq<Attribute<R>>, s5: seq<Attribute<R>>, a1: Attribute<R>, a2: Attribute<R>,
                      a3: Attribute<R>, a4: Attribute<R>, a5: Attribute<R>)
    requires s0 == [] && s1 == s0 + [a1] && s2 == s1 + [a2] && s3 == s2 + [a3] && s4 == s3 + [a4] && s5 == s4 + [a5]
    ensures s5 == [a1, a2, a3, a4, a5]
  {
  }

  /** PERSON_MAPPER as the builder chain declares it. */
  method BuildPersonMapper() returns (mapper: AttributesMapper<Person>)
    ensures mapper == PersonMapper()
  {
    var stringMapper, personTypes, externalIdMapper := StringMapper(), PersonTypes(), ExternalIdMapper();
    var builder := new AttributesBuilder(NewPerson);
    ghost var declared0 := builder.attributes;
    var b := builder.String("name", GetPersonName, SetPersonName);
    ghost var declared1 := b.attributes;
    b := b.List("address", GetAddress, SetAddress, stringMapper);
    ghost var declared2 := b.attributes;
    b := b.Number("phoneNumber", GetPhoneNumber, SetPhoneNumber);
    ghost var declared3 := b.attributes;
    b := b.Enumeration("type", GetPersonType, SetPersonType, personTypes);
    ghost var declared4 := b.attributes;
    b := b.AttributeFor("externalId", GetExternalId, SetExternalId, externalIdMapper);
    AppendFive(declared0, declared1, declared2, declared3, declared4, b.attributes, PersonNameAttribute(),
               AddressAttribute(), PhoneNumberAttribute(), PersonTypeAttribute(), ExternalIdAttribute());
    mapper := b.Build();
  }

  /** PET_MAPPER as the builder chain declares it, over the owner mapper it is given. */
  method BuildPetMapper(ownerMapper: AttributesMapper<Person>) returns (mapper: AttributesMapper<Pet>)
    ensures mapper == PetMapperOver(ownerMapper)
    ensures ownerMapper == PersonMapper() ==> mapper == PetMapper()
  {
    var builder := new AttributesBuilder(NewPet);
    ghost var declared0 := builder.attributes;
    var b := builder.ConstantValue("pk", Some("PET"), StringMapper());
    ghost var declared1 := b.attributes;
    b := b.Number("id", GetId, SetId);
    ghost var declared2 := b.attributes;
    b := b.String("name", GetPetName, SetPetName);
    ghost var declared3 := b.attributes;
    b := b.AttributeFor("sk", GetId, SetId, SortKeyMapper());
    ghost var declared4 := b.attributes;
    b := b.Object("owner", GetOwner, SetOwner, ownerMapper);
    AppendFive(declared0, declared1, declared2, declared3, declared4, b.attributes, PartitionKeyAttribute(),
               IdAttribute(), PetNameAttribute(), SortKeyAttribute(), OwnerAttribute(ownerMapper));
    mapper := b.Build();
    PetMapperIsOverPersonMapper(ownerMapper, mapper);
  }

  /** PET_MAPPER is the Pet mapper over PERSON_MAPPER. */
  lemma PetMapperIsOverPersonMapper(ownerMapper: AttributesMapper<Person>, mapper: AttributesMapper<Pet>)
    requires mapper == PetMapperOver(ownerMapper)
    ensures ownerMapper == PersonMapper() ==> mapper == PetMapper()
  {
  }
}
