# dynamodb-mapper, modelled in Dafny

This project models the conversion engine of the `dynamodb-mapper` module of aws-utils. The
engine turns a Java record into a DynamoDB attribute map (`Map<String, AttributeValue>`) and
back. It has three layers:

* **Bidirectional mappers** (`Bidirectional`, `PrefixedBidirectional`). These are pairs of
  functions `read: T -> R` and `write: R -> T`.
  * `of` wraps two functions.
  * `then` composes two mappers.
  * `withPrefix` and `hashed` add a key prefix.
  * `STRING_TO_NUMERIC` converts between `String` and `Long`.
* **Attribute mappers** (`AttributeMapping`, `AttributeMappers`). These convert one Java value
  to and from one `AttributeValue`.
  * The built-in ones are `STRING`, `NUMBER`, `DECIMAL`, `object`, `enumeration` and `list`.
  * `map` lifts a mapper through a bidirectional mapper.
* **Attributes and the record mapper** (`Attributes`, `AttributesMapping`, `AttributeMappers.AttributesBuilder`).
  * A `SimpleAttribute` binds a named property (getter and setter) to an attribute mapper.
  * A `ConstantAttribute` always writes a supplied value and never reads.
  * The builder collects attributes in declaration order.
  * The built record mapper runs them in that order, in both directions.

`MapperExamples` rebuilds the `Pet` and `Person` mappers of the repository's own test. It proves
the test's expectations on them.

Conventions used throughout:

* **Null.** Java `null` is `Option.None`.
* **Exceptions.** A call that may throw returns `Result<_, Exception>`. `Exception` has two
  cases:
  * `NumberFormat` is what `Long.parseLong` throws;
  * `NoEnumConstant` is what `Enum.valueOf` throws.
* **Void calls.** A void call that may throw returns `Outcome`.
* **Long.** `long` is the subset type `Long` of 64-bit integers.

The source of three classes is not available: `SimpleAttributeMapper`, `SimpleAttributesMapper`
and `Property`. They are modelled from their uses, as stated once here.

* **`SimpleAttributeMapper(reader, writer)`.**
  * It applies `reader` only to a non-null `AttributeValue`. An absent map entry reads as null.
  * It applies `writer` only to a non-null value. A null value is written as the NUL
    attribute value.
  * This is `AttributeMapping.AttributeMapper.Read`/`Write`. It is what the test's
    expectations for `new Pet()` and for an empty map require.
  * An explicit NUL value *is* passed to the reader. Every accessor of the reader then sees
    null: `s()`, `n()`, `hasM()`, `hasL()`. This is an assumption: the uses do not decide
    whether the missing class also maps an explicit NUL to null without calling the reader.
    These lemmas depend on it: `MapperExamples.NewPetDoesNotReadBack`,
    `MapperExamples.ExternalIdRejectsNul`, `MapperExamples.SortKeyRejectsNul`,
    `MapperExamples.SortKeyRejectsNulEntry`, and the null-value cases of
    `MapperExamples.ExternalIdCodec` and `MapperExamples.SortKeyCodec`.
    `MapperExamples.NewPetToItem` does not: it is about writing only.
* **`SimpleAttributesMapper(constructor, attributes)`.**
  * Record to map starts from an empty map. It runs `writeFromInstanceToMap` of every
    attribute in order.
  * Map to record starts from `constructor.get()`. It runs `writeFromMapToInstance` of every
    attribute in order.
  * The first exception aborts the conversion.
* **`Property`.** It is a name, a getter and a setter. The setter is modelled as a function
  that returns the updated record. The record itself lives in an `Attributes.Instance` object
  that the imperative methods update in place.

Consequences proved here:

* A record whose `Long` key field is null writes NUL under the hashed sort key.
* Reading that NUL back throws `NumberFormatException`, because `Long.parseLong(null)` throws.
  The lemmas are `MapperExamples.NewPetToItem` and `MapperExamples.NewPetDoesNotReadBack`.
* Reading the sort key and the id of a `Pet` both set the id field. The one declared later,
  `sk`, wins (`MapperExamples.SortKeyWinsOverId`).
* `withPrefix` strips everything up to the *first occurrence* of the prefix, wherever it
  is. Text without the prefix passes through unchanged.
* A record mapper whose attributes have distinct names, each read back what it wrote into its
  own field, and do not disturb each other's fields, writes the record it reads from its own
  item exactly as it wrote the original (`AttributesMapping.AttributesRoundTrip`).

The `Pet` mapper's `owner` attribute uses the `Person` mapper. The `Pet` lemmas are stated
for `MapperExamples.PetMapperOver(ownerMapper)`, an arbitrary owner mapper. Their premises say
what that owner mapper does on the owner at hand. `MapperExamples.PersonToItem` and
`MapperExamples.PersonFromItem` discharge those premises for the test's `PERSON_MAPPER`.
`MapperExamples.BuildPetMapper` shows that the builder calls of `PET_MAPPER` produce exactly
`PetMapperOver(PersonMapper())`.

## Model

| member | source | states |
|---|---|---|
| JavaLang.LongToString | dynamodb-mapper/src/main/java/ru/nobirds/aws/dynamodb/mapper/AttributeMappers.java:26 | Long.toString: a leading '-' exactly for negative values; for both signs the digits have no leading zero (only 0 is "0") and their value is \|n\|; the text parses as decimal text of value n |
| JavaLang.ValueOf | dynamodb-mapper/src/main/java/ru/nobirds/aws/dynamodb/mapper/BidirectionalMapper.java:31 | String.valueOf on a Long: "null" for null, Long.toString otherwise |
| JavaLang.ParseLong | dynamodb-mapper/src/main/java/ru/nobirds/aws/dynamodb/mapper/BidirectionalMapper.java:31 | Long.parseLong: succeeds iff the text is non-null, an optional '-' or '+' followed by at least one digit, and its value lies in the 64-bit range; then it returns that value; otherwise NumberFormatException carrying the input, null included |
| JavaLang.ParseLongToString | dynamodb-mapper/src/main/java/ru/nobirds/aws/dynamodb/mapper/BidirectionalMapper.java:31 | Long.parseLong(Long.toString(n)) == n for every 64-bit n |
| JavaLang.ParseLongRejectsNonDigit | dynamodb-mapper/src/main/java/ru/nobirds/aws/dynamodb/mapper/AttributeMappers.java:25 | text with a character that is neither a digit nor a leading sign followed by more text is rejected |
| JavaLang.ParseLongLeadingZeros | dynamodb-mapper/src/main/java/ru/nobirds/aws/dynamodb/mapper/BidirectionalMapper.java:31 | leading zeros are accepted: "007" parses as 7 |
| JavaLang.ParseLongPlusSign | dynamodb-mapper/src/main/java/ru/nobirds/aws/dynamodb/mapper/BidirectionalMapper.java:31 | a leading '+' is accepted: "+12" parses as 12 |
| JavaLang.ParseLongNoDigits | dynamodb-mapper/src/main/java/ru/nobirds/aws/dynamodb/mapper/BidirectionalMapper.java:31 | "", "-" and "+" are rejected with NumberFormatException carrying the text |
| JavaLang.IndexOf | dynamodb-mapper/src/main/java/ru/nobirds/aws/dynamodb/mapper/PrefixedBidirectionalMapper.java:16 | String.indexOf: -1 iff the pattern occurs nowhere; otherwise an occurrence with no earlier one |
| AttributeValues.Lookup | dynamodb-mapper/src/main/java/ru/nobirds/aws/dynamodb/mapper/SimpleAttribute.java:15 | Map.get: present iff the key is in the map, and then the stored value |
| PrefixedBidirectional.Read | dynamodb-mapper/src/main/java/ru/nobirds/aws/dynamodb/mapper/PrefixedBidirectionalMapper.java:11-19 | null iff the input is null; text without the prefix is returned unchanged; otherwise the text after the first occurrence of the prefix |
| PrefixedBidirectional.Write | dynamodb-mapper/src/main/java/ru/nobirds/aws/dynamodb/mapper/PrefixedBidirectionalMapper.java:22-28 | null iff the input is null; otherwise the prefix followed by the value, nothing else |
| PrefixedBidirectional.RoundTrip | dynamodb-mapper/src/main/java/ru/nobirds/aws/dynamodb/mapper/PrefixedBidirectionalMapper.java:11-28 | read(write(v)) == v for every prefix and every value, null included |
| PrefixedBidirectional.ReadIsNotAnchored | dynamodb-mapper/src/main/java/ru/nobirds/aws/dynamodb/mapper/PrefixedBidirectionalMapper.java:16-18 | the prefix is searched anywhere: "xPET#1" reads as "1", "PET#2PET#3" as "2PET#3" |
| PrefixedBidirectional.ReadWithoutPrefix | dynamodb-mapper/src/main/java/ru/nobirds/aws/dynamodb/mapper/PrefixedBidirectionalMapper.java:18 | text without the prefix passes through ("1" stays "1"); "C_28" under "C_" reads as "28" |
| Bidirectional.BidirectionalMapper.Then | dynamodb-mapper/src/main/java/ru/nobirds/aws/dynamodb/mapper/BidirectionalMapper.java:13-15 | read runs this mapper then the next, write the next then this; an exception of either stage propagates |
| Bidirectional.BidirectionalMapper.Read | dynamodb-mapper/src/main/java/ru/nobirds/aws/dynamodb/mapper/SimpleBidirectionalMapper.java:14-16 | read is exactly the stored reader applied to the value, null included: SimpleBidirectionalMapper adds no null guard |
| Bidirectional.BidirectionalMapper.Write | dynamodb-mapper/src/main/java/ru/nobirds/aws/dynamodb/mapper/SimpleBidirectionalMapper.java:19-21 | write is exactly the stored writer applied to the value, null included: SimpleBidirectionalMapper adds no null guard |
| Bidirectional.Of | dynamodb-mapper/src/main/java/ru/nobirds/aws/dynamodb/mapper/BidirectionalMapper.java:17-19 | the mapper's read and write are exactly the given functions (SimpleBidirectionalMapper) |
| Bidirectional.WithPrefix | dynamodb-mapper/src/main/java/ru/nobirds/aws/dynamodb/mapper/BidirectionalMapper.java:25-27 | read and write are those of PrefixedBidirectionalMapper with the given prefix and never throw |
| Bidirectional.Hashed | dynamodb-mapper/src/main/java/ru/nobirds/aws/dynamodb/mapper/BidirectionalMapper.java:21-23 | the prefixed mapper with prefix + "#" |
| Bidirectional.StringToNumeric | dynamodb-mapper/src/main/java/ru/nobirds/aws/dynamodb/mapper/BidirectionalMapper.java:31 | read is Long.parseLong, throwing NumberFormatException on null or malformed text; write is String.valueOf |
| Bidirectional.ThenAssociative | dynamodb-mapper/src/main/java/ru/nobirds/aws/dynamodb/mapper/BidirectionalMapper.java:13-15 | (a then b) then c reads and writes as a then (b then c) |
| Bidirectional.ThenRoundTrip | dynamodb-mapper/src/main/java/ru/nobirds/aws/dynamodb/mapper/BidirectionalMapper.java:13-15 | composition preserves round trips: if each stage reads back what it wrote, so does the composite |
| Bidirectional.WithPrefixRoundTrip | dynamodb-mapper/src/main/java/ru/nobirds/aws/dynamodb/mapper/BidirectionalMapper.java:25-27 | withPrefix(p) reads back every value it writes, null included |
| Bidirectional.StringToNumericRoundTrip | dynamodb-mapper/src/main/java/ru/nobirds/aws/dynamodb/mapper/BidirectionalMapper.java:31 | STRING_TO_NUMERIC reads back every non-null long it writes |
| Bidirectional.StringToNumericNull | dynamodb-mapper/src/main/java/ru/nobirds/aws/dynamodb/mapper/BidirectionalMapper.java:31 | null is written as the text "null", which does not parse back; reading null throws NumberFormatException |
| Bidirectional.HashedExample | dynamodb-mapper/src/main/java/ru/nobirds/aws/dynamodb/mapper/BidirectionalMapper.java:21-23 | hashed("PET") writes "1" as "PET#1", reads "PET#1" as "1", and reads unprefixed "1" as "1" |
| AttributeMapping.AttributeMapper.Read | dynamodb-mapper/src/main/java/ru/nobirds/aws/dynamodb/mapper/AttributeMapper.java:8 | an absent attribute value reads as null without calling the reader; a present one (NUL included) goes to the reader |
| AttributeMapping.AttributeMapper.Write | dynamodb-mapper/src/main/java/ru/nobirds/aws/dynamodb/mapper/AttributeMapper.java:10 | a null value is written as NUL without calling the writer; others go to the writer |
| AttributeMapping.AttributeMapper.Map | dynamodb-mapper/src/main/java/ru/nobirds/aws/dynamodb/mapper/AttributeMapper.java:16-19 | the lifted mapper reads through the base then the bidirectional mapper, and writes through the bidirectional mapper then the base, propagating exceptions |
| AttributeMapping.AttributeMapper.MapWith | dynamodb-mapper/src/main/java/ru/nobirds/aws/dynamodb/mapper/AttributeMapper.java:12-14 | null and absent values are guarded (read gives null, write gives NUL); a present value read by the base is passed to reader, and the base's exception propagates; a non-null value goes to writer and its result to the base's write, and writer's exception propagates |
| AttributeMapping.MapRoundTrip | dynamodb-mapper/src/main/java/ru/nobirds/aws/dynamodb/mapper/AttributeMapper.java:16-19 | lifting preserves round trips |
| AttributeMapping.MapWithRoundTrip | dynamodb-mapper/src/main/java/ru/nobirds/aws/dynamodb/mapper/AttributeMapper.java:12-14 | map(reader, writer) reads back a value when writer then the base write it, and the base and reader read it back |
| AttributeMapping.SameWritingSameField | dynamodb-mapper/src/main/java/ru/nobirds/aws/dynamodb/mapper/AttributeMapper.java:8-10 | a mapper that round-trips two values and writes them alike was given equal values |
| AttributeMapping.MapTwiceReads | dynamodb-mapper/src/main/java/ru/nobirds/aws/dynamodb/mapper/AttributeMapper.java:16-19 | lifting twice reads like lifting once through then |
| AttributeMapping.MapTwiceWrites | dynamodb-mapper/src/main/java/ru/nobirds/aws/dynamodb/mapper/AttributeMapper.java:16-19 | lifting twice writes like lifting once through then, when the first transform writes null as null |
| AttributeMappers.MapTwiceDiverges | dynamodb-mapper/src/main/java/ru/nobirds/aws/dynamodb/mapper/AttributeMapper.java:16-19 | without that premise they differ: STRING.map(STRING_TO_NUMERIC).map(m) writes NUL where STRING.map(STRING_TO_NUMERIC.then(m)) writes "null" |
| AttributeMappers.ProcessIfNotNull | dynamodb-mapper/src/main/java/ru/nobirds/aws/dynamodb/mapper/AttributeMappers.java:15-17 | null gives null without calling the processor; otherwise the processor's value or exception |
| AttributeMappers.StringMapper | dynamodb-mapper/src/main/java/ru/nobirds/aws/dynamodb/mapper/AttributeMappers.java:19-22 | writes S(text); reads the S text, and null from any other kind of value |
| AttributeMappers.NumberMapper | dynamodb-mapper/src/main/java/ru/nobirds/aws/dynamodb/mapper/AttributeMappers.java:24-27 | writes N(Long.toString); reads Long.parseLong of the N text, throwing on malformed text; null from a non-N value |
| AttributeMappers.DecimalMapper | dynamodb-mapper/src/main/java/ru/nobirds/aws/dynamodb/mapper/AttributeMappers.java:29-32 | writes N(format(d)); reads parse of the N text, with its exception; null from a non-N value |
| AttributeMappers.ObjectMapper | dynamodb-mapper/src/main/java/ru/nobirds/aws/dynamodb/mapper/AttributeMappers.java:34-38 | writes M(nested item) or the nested exception; reads the nested record from an M value, null from any other |
| AttributeMappers.EnumType.ValueOf | dynamodb-mapper/src/main/java/ru/nobirds/aws/dynamodb/mapper/AttributeMappers.java:42 | Enum.valueOf: a declared constant with that name, or NoEnumConstant when there is none |
| AttributeMappers.FindConstant | dynamodb-mapper/src/main/java/ru/nobirds/aws/dynamodb/mapper/AttributeMappers.java:42 | the first declared constant with the name, or the exception when no constant has it |
| AttributeMappers.EnumerationMapper | dynamodb-mapper/src/main/java/ru/nobirds/aws/dynamodb/mapper/AttributeMappers.java:40-44 | writes S(name()); reads Enum.valueOf of the S text, throwing for an unknown name; null from a non-S value |
| AttributeMappers.ReadAll | dynamodb-mapper/src/main/java/ru/nobirds/aws/dynamodb/mapper/AttributeMappers.java:48-49 | succeeds iff every element reads; then the element-wise reads, in order and of the same length; on failure, the exception of the first element that fails, all before it having read |
| AttributeMappers.WriteAll | dynamodb-mapper/src/main/java/ru/nobirds/aws/dynamodb/mapper/AttributeMappers.java:50-51 | succeeds iff every element writes; then the element-wise writes, in order and of the same length; on failure, the exception of the first element that fails, all before it having written |
| AttributeMappers.ListMapper | dynamodb-mapper/src/main/java/ru/nobirds/aws/dynamodb/mapper/AttributeMappers.java:46-52 | writes L(element-wise writes) and NUL for null; reads element-wise from an L value, null from any other; element exceptions propagate |
| AttributeMappers.StringRoundTrip | dynamodb-mapper/src/main/java/ru/nobirds/aws/dynamodb/mapper/AttributeMappers.java:19-22 | STRING reads back every value it writes, null included |
| AttributeMappers.NumberRoundTrip | dynamodb-mapper/src/main/java/ru/nobirds/aws/dynamodb/mapper/AttributeMappers.java:24-27 | NUMBER reads back every long it writes, null included |
| AttributeMappers.NumberRejectsMalformed | dynamodb-mapper/src/main/java/ru/nobirds/aws/dynamodb/mapper/AttributeMappers.java:25 | an N value holding a non-digit character throws NumberFormatException |
| AttributeMappers.DecimalRoundTrip | dynamodb-mapper/src/main/java/ru/nobirds/aws/dynamodb/mapper/AttributeMappers.java:29-32 | DECIMAL round-trips whenever parse inverts format |
| AttributeMappers.ObjectRoundTrip | dynamodb-mapper/src/main/java/ru/nobirds/aws/dynamodb/mapper/AttributeMappers.java:34-38 | object(m) round-trips whenever the nested record mapper does |
| AttributeMappers.EnumerationRoundTrip | dynamodb-mapper/src/main/java/ru/nobirds/aws/dynamodb/mapper/AttributeMappers.java:40-44 | with distinct constant names, enumeration reads back every constant it writes, null included |
| AttributeMappers.ListRoundTrip | dynamodb-mapper/src/main/java/ru/nobirds/aws/dynamodb/mapper/AttributeMappers.java:46-52 | list(m) reads back a list whose every element m reads back |
| AttributeMappers.Supplying | dynamodb-mapper/src/main/java/ru/nobirds/aws/dynamodb/mapper/AttributeMappers.java:73-75 | the supplier () -> value returns value |
| AttributeMappers.AttributesBuilder.constructor | dynamodb-mapper/src/main/java/ru/nobirds/aws/dynamodb/mapper/AttributeMappers.java:54-62 | a builder holds the constructor and an empty attribute list |
| AttributeMappers.AttributesBuilder.Append | dynamodb-mapper/src/main/java/ru/nobirds/aws/dynamodb/mapper/AttributeMappers.java:64-67 | appends the attribute at the end and returns the same builder |
| AttributeMappers.AttributesBuilder.Constant | dynamodb-mapper/src/main/java/ru/nobirds/aws/dynamodb/mapper/AttributeMappers.java:69-71 | appends a ConstantAttribute with the name, supplier and mapper |
| AttributeMappers.AttributesBuilder.ConstantValue | dynamodb-mapper/src/main/java/ru/nobirds/aws/dynamodb/mapper/AttributeMappers.java:73-75 | appends a ConstantAttribute whose supplier returns the value |
| AttributeMappers.AttributesBuilder.String | dynamodb-mapper/src/main/java/ru/nobirds/aws/dynamodb/mapper/AttributeMappers.java:77-79 | appends a SimpleAttribute over STRING |
| AttributeMappers.AttributesBuilder.Enumeration | dynamodb-mapper/src/main/java/ru/nobirds/aws/dynamodb/mapper/AttributeMappers.java:81-84 | appends a SimpleAttribute over enumeration(enumType) |
| AttributeMappers.AttributesBuilder.Number | dynamodb-mapper/src/main/java/ru/nobirds/aws/dynamodb/mapper/AttributeMappers.java:86-88 | appends a SimpleAttribute over NUMBER |
| AttributeMappers.AttributesBuilder.Decimal | dynamodb-mapper/src/main/java/ru/nobirds/aws/dynamodb/mapper/AttributeMappers.java:90-92 | appends a SimpleAttribute over DECIMAL |
| AttributeMappers.AttributesBuilder.Object | dynamodb-mapper/src/main/java/ru/nobirds/aws/dynamodb/mapper/AttributeMappers.java:94-97 | appends a SimpleAttribute over object(mapper) |
| AttributeMappers.AttributesBuilder.List | dynamodb-mapper/src/main/java/ru/nobirds/aws/dynamodb/mapper/AttributeMappers.java:99-102 | appends a SimpleAttribute over list(mapper) |
| AttributeMappers.AttributesBuilder.AttributeFor | dynamodb-mapper/src/main/java/ru/nobirds/aws/dynamodb/mapper/AttributeMappers.java:104-110 | appends a SimpleAttribute over the property (name, getter, setter) |
| AttributeMappers.AttributesBuilder.PropertyAttribute | dynamodb-mapper/src/main/java/ru/nobirds/aws/dynamodb/mapper/AttributeMappers.java:112-114 | appends a SimpleAttribute over the property |
| AttributeMappers.AttributesBuilder.Build | dynamodb-mapper/src/main/java/ru/nobirds/aws/dynamodb/mapper/AttributeMappers.java:116-118 | the record mapper has the builder's constructor and its attributes in declaration order |
| Attributes.Instance.constructor | dynamodb-mapper/src/main/java/ru/nobirds/aws/dynamodb/mapper/SimpleAttribute.java:14-16 | a record object holding the given state |
| Attributes.AttributeMap.constructor | dynamodb-mapper/src/main/java/ru/nobirds/aws/dynamodb/mapper/SimpleAttribute.java:20-22 | an empty result map |
| Attributes.AttributeMap.Put | dynamodb-mapper/src/main/java/ru/nobirds/aws/dynamodb/mapper/SimpleAttribute.java:22 | Map.put: the key now holds the value and every other entry is unchanged |
| Attributes.Attribute.ApplyToInstance | dynamodb-mapper/src/main/java/ru/nobirds/aws/dynamodb/mapper/ConstantAttribute.java:16-18 | a constant attribute leaves the record unchanged |
| Attributes.Attribute.ApplyToMap | dynamodb-mapper/src/main/java/ru/nobirds/aws/dynamodb/mapper/SimpleAttribute.java:20-23 | succeeds iff the attribute's value can be computed; then the name holds that value, the keys gain only the name, and every other entry is unchanged |
| Attributes.Attribute.WriteFromMapToInstance | dynamodb-mapper/src/main/java/ru/nobirds/aws/dynamodb/mapper/Attribute.java:8 | the record's new state is the one ApplyToInstance gives, or the exception is reported and the record is unchanged |
| Attributes.Attribute.WriteFromInstanceToMap | dynamodb-mapper/src/main/java/ru/nobirds/aws/dynamodb/mapper/Attribute.java:10 | the map's new entries are those ApplyToMap gives, or the exception is reported and the map is unchanged |
| Attributes.SimpleAttribute | dynamodb-mapper/src/main/java/ru/nobirds/aws/dynamodb/mapper/SimpleAttribute.java:14-23 | writes the mapper's value of the getter under the property name; reads the entry under that name (absent is null) and applies the setter, propagating the mapper's exception |
| Attributes.ConstantAttribute | dynamodb-mapper/src/main/java/ru/nobirds/aws/dynamodb/mapper/ConstantAttribute.java:16-23 | writes the mapper's value of the supplied value, whatever the record; reading does nothing |
| Attributes.SimpleAttributeReads | dynamodb-mapper/src/main/java/ru/nobirds/aws/dynamodb/mapper/SimpleAttribute.java:14-17 | reading sets the property to the mapper's reading of the entry, or throws the mapper's exception |
| Attributes.SimpleAttributeWrites | dynamodb-mapper/src/main/java/ru/nobirds/aws/dynamodb/mapper/SimpleAttribute.java:20-23 | writing puts the mapper's value of the property under its name and leaves other entries alone |
| Attributes.SimpleAttributeRoundTrip | dynamodb-mapper/src/main/java/ru/nobirds/aws/dynamodb/mapper/SimpleAttribute.java:14-23 | writing a property and reading the entry back restores the property when the mapper round-trips it |
| Attributes.ConstantAttributeIgnoresInstance | dynamodb-mapper/src/main/java/ru/nobirds/aws/dynamodb/mapper/ConstantAttribute.java:16-23 | a constant attribute writes the same value for any two records and never changes a record |
| AttributesMapping.Names | dynamodb-mapper/src/main/java/ru/nobirds/aws/dynamodb/mapper/AttributeMappers.java:116-118 | the set of the attributes' names |
| AttributesMapping.StoreAll | dynamodb-mapper/src/main/java/ru/nobirds/aws/dynamodb/mapper/SimpleAttribute.java:20-23 | after all attributes write, the keys are the old keys plus every attribute's name and the other entries are unchanged |
| AttributesMapping.StoreAllSucceeds | dynamodb-mapper/src/main/java/ru/nobirds/aws/dynamodb/mapper/SimpleAttribute.java:20-23 | writing a record succeeds iff every attribute's value can be computed |
| AttributesMapping.StoreAllFirstFailure | dynamodb-mapper/src/main/java/ru/nobirds/aws/dynamodb/mapper/SimpleAttribute.java:20-23 | a failed write carries the exception of the first attribute whose value fails, every earlier one having succeeded |
| AttributesMapping.StoreAllLastWins | dynamodb-mapper/src/main/java/ru/nobirds/aws/dynamodb/mapper/SimpleAttribute.java:22 | the entry of a name holds the value of the last attribute declaring it |
| AttributesMapping.StoreAllDistinctNames | dynamodb-mapper/src/main/java/ru/nobirds/aws/dynamodb/mapper/SimpleAttribute.java:20-23 | with distinct names, every attribute's value lands under its own name |
| AttributesMapping.Bounds | dynamodb-mapper/src/main/java/ru/nobirds/aws/dynamodb/mapper/AttributeMappers.java:116-118 | the property-backed attributes of the built mapper: a list of only property-backed attributes is kept whole |
| AttributesMapping.BoundsConcat | dynamodb-mapper/src/main/java/ru/nobirds/aws/dynamodb/mapper/AttributeMappers.java:116-118 | selecting the property-backed attributes distributes over concatenation, so their declaration order is kept |
| AttributesMapping.LoadAll | dynamodb-mapper/src/main/java/ru/nobirds/aws/dynamodb/mapper/ConstantAttribute.java:16-18 | reading with constant attributes only leaves the record as it is: a constant attribute reads nothing |
| AttributesMapping.LoadAllDependsOnNames | dynamodb-mapper/src/main/java/ru/nobirds/aws/dynamodb/mapper/SimpleAttribute.java:14-17 | reading looks only at the entries under the attributes' names |
| AttributesMapping.LoadAllIgnoresConstants | dynamodb-mapper/src/main/java/ru/nobirds/aws/dynamodb/mapper/ConstantAttribute.java:16-18 | reading with the constant attributes equals reading without them |
| AttributesMapping.LoadAllConcat | dynamodb-mapper/src/main/java/ru/nobirds/aws/dynamodb/mapper/SimpleAttribute.java:14-17 | reading with two lists of attributes is reading with the first, then with the second into its result; an exception of the first stops the read |
| AttributesMapping.LoadAllFirstFailure | dynamodb-mapper/src/main/java/ru/nobirds/aws/dynamodb/mapper/SimpleAttribute.java:14-17 | a failed read carries the exception of the first attribute whose read fails, on the record the earlier attributes produced |
| AttributesMapping.LoadAllSets | dynamodb-mapper/src/main/java/ru/nobirds/aws/dynamodb/mapper/SimpleAttribute.java:14-17 | when every attribute reads its entry into its own field and no read disturbs another field, reading succeeds and every property-backed attribute then writes what it should |
| AttributesMapping.StoreAllSameValues | dynamodb-mapper/src/main/java/ru/nobirds/aws/dynamodb/mapper/SimpleAttribute.java:20-23 | two records for which every attribute writes the same value are written as the same map |
| AttributesMapping.AttributesMapper.ToItem | dynamodb-mapper/src/main/java/ru/nobirds/aws/dynamodb/mapper/AttributeMappers.java:116-118 | the keys of a written record are exactly the attributes' names |
| AttributesMapping.AttributesMapper.FromItem | dynamodb-mapper/src/main/java/ru/nobirds/aws/dynamodb/mapper/AttributeMappers.java:116-118 | a mapper with constant attributes only reads every map as a fresh record from the constructor |
| AttributesMapping.AttributesRoundTrip | dynamodb-mapper/src/main/java/ru/nobirds/aws/dynamodb/mapper/AttributeMappers.java:116-118 | with distinct names, attributes that each read back their own value and reads that leave other fields alone, writing, reading and writing again gives the first item, and every attribute writes the read record as it wrote the original |
| AttributesMapping.AttributesFromEmptyItem | dynamodb-mapper/src/main/java/ru/nobirds/aws/dynamodb/mapper/AttributeMappers.java:116-118 | when each attribute reads an absent entry as a null field, reading an empty map succeeds and every property-backed attribute writes NUL for the result |
| AttributesMapping.SimpleAttributeSets | dynamodb-mapper/src/main/java/ru/nobirds/aws/dynamodb/mapper/SimpleAttribute.java:14-23 | a SimpleAttribute reads what it wrote back into any record when its mapper round-trips the field and the getter returns what the setter stored |
| AttributesMapping.SimpleAttributeSetsNull | dynamodb-mapper/src/main/java/ru/nobirds/aws/dynamodb/mapper/SimpleAttribute.java:14-23 | a SimpleAttribute reads an absent entry as a null field, written again as NUL |
| AttributesMapping.SimpleAttributesIndependent | dynamodb-mapper/src/main/java/ru/nobirds/aws/dynamodb/mapper/SimpleAttribute.java:14-23 | two SimpleAttributes do not disturb each other when one setter leaves the other getter's field alone |
| AttributesMapping.AttributesMapper.MapToItem | dynamodb-mapper/src/main/java/ru/nobirds/aws/dynamodb/mapper/SimpleAttribute.java:20-23 | the loop over the attributes yields a fresh map equal to ToItem, or ToItem's exception |
| AttributesMapping.AttributesMapper.MapToInstance | dynamodb-mapper/src/main/java/ru/nobirds/aws/dynamodb/mapper/SimpleAttribute.java:14-17 | the loop over the attributes yields a fresh record equal to FromItem, or FromItem's exception |
| MapperExamples.PersonTypes | dynamodb-mapper/src/test/java/ru/nobirds/aws/dynamodb/mapper/MapperTest.java:163-165 | the enum ADULT, CHILD has distinct constant names |
| MapperExamples.StringCodec | dynamodb-mapper/src/main/java/ru/nobirds/aws/dynamodb/mapper/AttributeMappers.java:19-22 | STRING writes a string as S and reads that S back |
| MapperExamples.NumberCodec | dynamodb-mapper/src/main/java/ru/nobirds/aws/dynamodb/mapper/AttributeMappers.java:24-27 | NUMBER writes a long as N(Long.toString) and reads it back |
| MapperExamples.AddressCodec | dynamodb-mapper/src/test/java/ru/nobirds/aws/dynamodb/mapper/MapperTest.java:149 | list(STRING) writes an address as L of S values and reads it back |
| MapperExamples.PersonTypeCodec | dynamodb-mapper/src/test/java/ru/nobirds/aws/dynamodb/mapper/MapperTest.java:151 | enumeration(PersonType) writes ADULT or CHILD as its name and reads it back |
| MapperExamples.ExternalIdWrites | dynamodb-mapper/src/test/java/ru/nobirds/aws/dynamodb/mapper/MapperTest.java:152-154 | STRING.map(withPrefix("C_").then(STRING_TO_NUMERIC)) writes n as S("C_" + n) |
| MapperExamples.ExternalIdRoundTrip | dynamodb-mapper/src/test/java/ru/nobirds/aws/dynamodb/mapper/MapperTest.java:152-154 | that externalId mapper reads back every long it writes |
| MapperExamples.ExternalIdCodec | dynamodb-mapper/src/test/java/ru/nobirds/aws/dynamodb/mapper/MapperTest.java:152-154 | writes S("C_" + n), or NUL for null; a non-null externalId reads back, the NUL of a null one throws NumberFormatException |
| MapperExamples.ExternalIdRejectsNul | dynamodb-mapper/src/test/java/ru/nobirds/aws/dynamodb/mapper/MapperTest.java:152-154 | reading NUL through the externalId mapper throws NumberFormatException |
| MapperExamples.SortKeyWrites | dynamodb-mapper/src/test/java/ru/nobirds/aws/dynamodb/mapper/MapperTest.java:125-127 | STRING.map(hashed("PET")).map(STRING_TO_NUMERIC) writes n as S("PET#" + n) |
| MapperExamples.SortKeyRoundTrip | dynamodb-mapper/src/test/java/ru/nobirds/aws/dynamodb/mapper/MapperTest.java:125-127 | that sort-key mapper reads back every long it writes |
| MapperExamples.SortKeyCodec | dynamodb-mapper/src/test/java/ru/nobirds/aws/dynamodb/mapper/MapperTest.java:125-127 | writes S("PET#" + n), or NUL for null; a non-null id reads back, the NUL of a null one throws NumberFormatException |
| MapperExamples.SortKeyRejectsNul | dynamodb-mapper/src/test/java/ru/nobirds/aws/dynamodb/mapper/MapperTest.java:125-127 | reading NUL through the sort-key mapper throws NumberFormatException |
| MapperExamples.PersonNameWrites | dynamodb-mapper/src/test/java/ru/nobirds/aws/dynamodb/mapper/MapperTest.java:148 | the name attribute writes S(name) under "name" |
| MapperExamples.PersonNameReads | dynamodb-mapper/src/test/java/ru/nobirds/aws/dynamodb/mapper/MapperTest.java:148 | the name attribute sets the name from an S entry |
| MapperExamples.AddressWrites | dynamodb-mapper/src/test/java/ru/nobirds/aws/dynamodb/mapper/MapperTest.java:149 | the address attribute writes L of S values under "address" |
| MapperExamples.AddressReads | dynamodb-mapper/src/test/java/ru/nobirds/aws/dynamodb/mapper/MapperTest.java:149 | the address attribute sets the address from that L entry |
| MapperExamples.PhoneNumberWrites | dynamodb-mapper/src/test/java/ru/nobirds/aws/dynamodb/mapper/MapperTest.java:150 | the phoneNumber attribute writes N or NUL under "phoneNumber" |
| MapperExamples.PhoneNumberReads | dynamodb-mapper/src/test/java/ru/nobirds/aws/dynamodb/mapper/MapperTest.java:150 | the phoneNumber attribute sets the phone number from that entry |
| MapperExamples.PersonTypeWrites | dynamodb-mapper/src/test/java/ru/nobirds/aws/dynamodb/mapper/MapperTest.java:151 | the type attribute writes S(name()) or NUL under "type" |
| MapperExamples.PersonTypeReads | dynamodb-mapper/src/test/java/ru/nobirds/aws/dynamodb/mapper/MapperTest.java:151 | the type attribute sets the type from that entry |
| MapperExamples.ExternalIdAttributeWrites | dynamodb-mapper/src/test/java/ru/nobirds/aws/dynamodb/mapper/MapperTest.java:152-154 | the externalId attribute writes S("C_" + n) or NUL under "externalId" |
| MapperExamples.ExternalIdReads | dynamodb-mapper/src/test/java/ru/nobirds/aws/dynamodb/mapper/MapperTest.java:152-154 | the externalId attribute sets a non-null external id from S("C_" + n) |
| MapperExamples.PersonToItem | dynamodb-mapper/src/test/java/ru/nobirds/aws/dynamodb/mapper/MapperTest.java:146-155 | PERSON_MAPPER writes every person as the five-entry item of its fields |
| MapperExamples.PersonFromItem | dynamodb-mapper/src/test/java/ru/nobirds/aws/dynamodb/mapper/MapperTest.java:146-155 | PERSON_MAPPER reads that item back into the person, from any map that extends it, when externalId is not null |
| MapperExamples.PartitionKeyWrites | dynamodb-mapper/src/test/java/ru/nobirds/aws/dynamodb/mapper/MapperTest.java:122 | the constant pk attribute writes S("PET") for every pet |
| MapperExamples.IdWrites | dynamodb-mapper/src/test/java/ru/nobirds/aws/dynamodb/mapper/MapperTest.java:123 | the id attribute writes N or NUL under "id" |
| MapperExamples.IdReads | dynamodb-mapper/src/test/java/ru/nobirds/aws/dynamodb/mapper/MapperTest.java:123 | the id attribute sets the id from that entry |
| MapperExamples.PetNameWrites | dynamodb-mapper/src/test/java/ru/nobirds/aws/dynamodb/mapper/MapperTest.java:124 | the pet name attribute writes S or NUL under "name" |
| MapperExamples.PetNameReads | dynamodb-mapper/src/test/java/ru/nobirds/aws/dynamodb/mapper/MapperTest.java:124 | the pet name attribute sets the name from that entry |
| MapperExamples.SortKeyAttributeWrites | dynamodb-mapper/src/test/java/ru/nobirds/aws/dynamodb/mapper/MapperTest.java:125-127 | the sk attribute writes S("PET#" + id) or NUL under "sk" |
| MapperExamples.SortKeyReads | dynamodb-mapper/src/test/java/ru/nobirds/aws/dynamodb/mapper/MapperTest.java:125-127 | the sk attribute sets a non-null id from S("PET#" + id) |
| MapperExamples.SortKeyRejectsNulEntry | dynamodb-mapper/src/test/java/ru/nobirds/aws/dynamodb/mapper/MapperTest.java:125-127 | an sk entry holding NUL makes the read throw NumberFormatException |
| MapperExamples.OwnerWrites | dynamodb-mapper/src/test/java/ru/nobirds/aws/dynamodb/mapper/MapperTest.java:131 | the owner attribute writes M(owner item) or NUL under "owner" |
| MapperExamples.OwnerReads | dynamodb-mapper/src/test/java/ru/nobirds/aws/dynamodb/mapper/MapperTest.java:131 | the owner attribute sets the owner from that entry |
| MapperExamples.PetOverToItem | dynamodb-mapper/src/test/java/ru/nobirds/aws/dynamodb/mapper/MapperTest.java:120-132 | the pet mapper writes every pet as the five-entry item pk, id, name, sk, owner, given what the owner mapper writes |
| MapperExamples.PetOverFromItem | dynamodb-mapper/src/test/java/ru/nobirds/aws/dynamodb/mapper/MapperTest.java:120-132 | the pet mapper reads that item, or any map extending it, back into the pet when the id is not null, given what the owner mapper reads |
| MapperExamples.TestOwnerItem | dynamodb-mapper/src/test/java/ru/nobirds/aws/dynamodb/mapper/MapperTest.java:42-48 | the expected owner item is the owner map of the test |
| MapperExamples.TestPetItem | dynamodb-mapper/src/test/java/ru/nobirds/aws/dynamodb/mapper/MapperTest.java:35-49 | the expected pet item is the test's map without dateOfBirth and cost |
| MapperExamples.TestMapExtends | dynamodb-mapper/src/test/java/ru/nobirds/aws/dynamodb/mapper/MapperTest.java:35-49 | the test's map extends the expected pet item with exactly dateOfBirth and cost |
| MapperExamples.TestPetToItem | dynamodb-mapper/src/test/java/ru/nobirds/aws/dynamodb/mapper/MapperTest.java:67-88 | writing the test's pet succeeds and the test's map extends the result: pk "PET", sk "PET#1", id "1", name "test1" and the owner map |
| MapperExamples.TestMapFromItem | dynamodb-mapper/src/test/java/ru/nobirds/aws/dynamodb/mapper/MapperTest.java:90-94 | reading the test's map gives the test's pet |
| MapperExamples.EmptyMapFromItem | dynamodb-mapper/src/test/java/ru/nobirds/aws/dynamodb/mapper/MapperTest.java:96-104 | reading an empty map gives a pet with every field null |
| MapperExamples.NewPetToItem | dynamodb-mapper/src/test/java/ru/nobirds/aws/dynamodb/mapper/MapperTest.java:106-113 | writing a new pet gives pk "PET" and NUL under every other key |
| MapperExamples.NewPetDoesNotReadBack | dynamodb-mapper/src/test/java/ru/nobirds/aws/dynamodb/mapper/MapperTest.java:125-127 | the item of a new pet does not read back: its NUL sort key throws NumberFormatException |
| MapperExamples.SortKeyWinsOverId | dynamodb-mapper/src/test/java/ru/nobirds/aws/dynamodb/mapper/MapperTest.java:123-127 | when id and sk disagree, the later-declared sk decides the id |
| MapperExamples.BuildPersonMapper | dynamodb-mapper/src/test/java/ru/nobirds/aws/dynamodb/mapper/MapperTest.java:146-155 | the builder calls of PERSON_MAPPER produce the Person mapper of this model |
| MapperExamples.BuildPetMapper | dynamodb-mapper/src/test/java/ru/nobirds/aws/dynamodb/mapper/MapperTest.java:120-132 | the builder calls of PET_MAPPER produce PetMapperOver of the owner mapper, and PetMapper over PERSON_MAPPER |

## Left out

- DynamoDbMapper and every call to DynamoDB. That is network I/O; the model covers only the conversions.
- STRING_TO_DATE, STRING_TO_INSTANT and STRING_TO_DECIMAL. They are `of` applied to java.time and Double parsing and printing, and those libraries are not part of this model. `Bidirectional.Of` covers their shape.
- AttributeMappers.DecimalMapper: Double.parseDouble and Double.toString are parameters (`parse`, `format`), because floating-point text conversion is not modelled.
- The Pet fields dateOfBirth and cost. They are omitted from the example mapper because they need date and floating-point conversion. The test's map still carries both entries, and `MapperExamples.TestMapExtends` shows that reading ignores them.
- JavaLang.ParseLong accepts ASCII digits only. Long.parseLong also accepts other Unicode decimal digits.
- SimpleAttributeMapper, SimpleAttributesMapper and Property: their source is not available. They are modelled from their uses, as stated at the top of this file. That an explicit NUL reaches the reader is an assumption; the lemmas that depend on it are named there.
- AttributesMapping.AttributesRoundTrip states the record round trip through what the attributes write, not as equality of records. The attribute list erases the field types, so equality of each field follows per attribute from `AttributeMapping.SameWritingSameField` or `Attributes.SimpleAttributeRoundTrip`.
- AttributeMappers.AttributesBuilder.Build: it hands the current attribute list to the record mapper by value. Java shares the builder's live ArrayList, so later appends to the builder would also change an already built mapper.
- Aliasing of a record between attributes. The setter is a function that returns the new record, so two attributes cannot share mutable sub-objects.
- Lombok-generated equals and hashCode. Record equality is Dafny's structural equality on the datatypes.
- The Attribute interface is a closed datatype with the two implementations of the core, SimpleAttribute and ConstantAttribute. User-written Attribute classes are not covered.
- MapperExamples has no lemma about the literal PET_MAPPER (`MapperExamples.PetMapper`). The Pet lemmas are stated for `PetMapperOver(ownerMapper)`, with premises on the owner mapper. `PersonToItem` and `PersonFromItem` discharge those premises for PERSON_MAPPER, and `BuildPetMapper` identifies `PetMapper` with `PetMapperOver(PersonMapper())`.
- MapperExamples.PetOverFromItem and MapperExamples.PersonFromItem require a non-null id or externalId. A null one is written as NUL and does not read back (`NewPetDoesNotReadBack`, `ExternalIdCodec`).
