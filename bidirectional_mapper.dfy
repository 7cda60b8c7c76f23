/**
 * BidirectionalMapper<T, R>: a pair of value transforms, read from T to R and write back
 * from R to T, both seeing Java nulls and both allowed to throw. SimpleBidirectionalMapper
 * is this pair with no behaviour of its own; the combinators of the interface build new
 * pairs from old ones.
 */
module Bidirectional {
  import opened Wrappers
  import opened JavaLang
  import PrefixedBidirectional

  datatype BidirectionalMapper<!T(!new), !R(!new)> = BidirectionalMapper(
    reader: Option<T> -> Result<Option<R>, Exception>,
    writer: Option<R> -> Result<Option<T>, Exception>)
  {
    /** SimpleBidirectionalMapper.read: exactly what the stored reader returns; null is not guarded. */
    function Read(value: Option<T>): (r: Result<Option<R>, Exception>)
      ensures r == reader(value)
    {
      reader(value)
    }

    /** SimpleBidirectionalMapper.write: exactly what the stored writer returns; null is not guarded. */
    function Write(value: Option<R>): (r: Result<Option<T>, Exception>)
      ensures r == writer(value)
    {
      writer(value)
    }

    /** Writing `value` succeeds and reading the written value gives `value` back. */
    ghost predicate RoundTripsOn(value: Option<R>) {
      Write(value).Success? && Read(Write(value).value) == Success(value)
    }

    /**
     * `then`: read runs this mapper first and `next` second; write runs them in reverse
     * order. An exception from the first stage is propagated and the second never runs.
     */
    function Then<NR(!new)>(next: BidirectionalMapper<R, NR>): (m: BidirectionalMapper<T, NR>)
      ensures forall x :: Read(x).Success? ==> m.Read(x) == next.Read(Read(x).value)
      ensures forall x :: Read(x).Failure? ==> m.Read(x) == Failure(Read(x).error)
      ensures forall y :: next.Write(y).Success? ==> m.Write(y) == Write(next.Write(y).value)
      ensures forall y :: next.Write(y).Failure? ==> m.Write(y) == Failure(next.Write(y).error)
    {
      Of(x => var v :- Read(x); next.Read(v),
         y => var v :- next.Write(y); Write(v))
    }
  }

  /** BidirectionalMapper.of: wrap a reader and a writer, unchanged, as a SimpleBidirectionalMapper. */
  function Of<T(!new), R(!new)>(reader: Option<T> -> Result<Option<R>, Exception>,
                    writer: Option<R> -> Result<Option<T>, Exception>): (m: BidirectionalMapper<T, R>)
    ensures forall x :: m.Read(x) == reader(x)
    ensures forall y :: m.Write(y) == writer(y)
  {
    BidirectionalMapper(reader, writer)
  }

  /** withPrefix: the PrefixedBidirectionalMapper for `prefix`; it never throws. */
  function WithPrefix(prefix: string): (m: BidirectionalMapper<string, string>)
    ensures forall x :: m.Read(x) == Success(PrefixedBidirectional.Read(prefix, x))
    ensures forall y :: m.Write(y) == Success(PrefixedBidirectional.Write(prefix, y))
  {
    Of(x => Success(PrefixedBidirectional.Read(prefix, x)),
       y => Success(PrefixedBidirectional.Write(prefix, y)))
  }

  /** hashed: a prefix codec for `prefix` followed by '#', the composite sort-key style "PET#1". */
  function Hashed(prefix: string): (m: BidirectionalMapper<string, string>)
    ensures forall y :: m.Write(y) == Success(PrefixedBidirectional.Write(prefix + "#", y))
    ensures forall x :: m.Read(x) == Success(PrefixedBidirectional.Read(prefix + "#", x))
  {
    WithPrefix(prefix + "#")
  }

  /** STRING_TO_NUMERIC: Long.parseLong to read, String.valueOf to write (null is written as "null"). */
  function StringToNumeric(): (m: BidirectionalMapper<string, Long>)
    ensures forall x :: ParseLong(x).Success? ==> m.Read(x) == Success(Some(ParseLong(x).value))
    ensures forall x :: ParseLong(x).Failure? ==> m.Read(x) == Failure(NumberFormat(x))
    ensures forall y :: m.Write(y) == Success(Some(ValueOf(y)))
  {
    Of(x => var n :- ParseLong(x); Success(Some(n)),
       y => Success(Some(ValueOf(y))))
  }

  /** `then` is associative, in both directions. */
  lemma ThenAssociative<A(!new), B(!new), C(!new), D(!new)>(a: BidirectionalMapper<A, B>, b: BidirectionalMapper<B, C>,
                                    c: BidirectionalMapper<C, D>, x: Option<A>, y: Option<D>)
    ensures a.Then(b).Then(c).Read(x) == a.Then(b.Then(c)).Read(x)
    ensures a.Then(b).Then(c).Write(y) == a.Then(b.Then(c)).Write(y)
  {
  }

  /** A composition of round-tripping stages round-trips. */
  lemma ThenRoundTrip<A(!new), B(!new), C(!new)>(a: BidirectionalMapper<A, B>, b: BidirectionalMapper<B, C>, y: Option<C>)
    requires b.RoundTripsOn(y) && a.RoundTripsOn(b.Write(y).value)
    ensures a.Then(b).RoundTripsOn(y)
  {
  }

  /** Every prefix codec round-trips, null included. */
  lemma WithPrefixRoundTrip(prefix: string, y: Option<string>)
    ensures WithPrefix(prefix).RoundTripsOn(y)
  {
    PrefixedBidirectional.RoundTrip(prefix, y);
  }

  /** STRING_TO_NUMERIC round-trips every 64-bit value. */
  lemma StringToNumericRoundTrip(n: Long)
    ensures StringToNumeric().RoundTripsOn(Some(n))
  {
    ParseLongToString(n);
  }

  /** A null long does not round-trip: it is written as the text "null", which does not parse. */
  lemma StringToNumericNull()
    ensures StringToNumeric().Write(None) == Success(Some("null"))
    ensures StringToNumeric().Read(Some("null")).Failure?
    ensures StringToNumeric().Read(None) == Failure(NumberFormat(None))
  {
    ParseLongRejectsNonDigit("null", 0);
  }

  /** hashed("PET") writes 1 as "PET#1" and reads both "PET#1" and a bare "1" back as "1". */
  lemma HashedExample()
    ensures Hashed("PET").Write(Some("1")) == Success(Some("PET#1"))
    ensures Hashed("PET").Read(Some("PET#1")) == Success(Some("1"))
    ensures Hashed("PET").Read(Some("1")) == Success(Some("1"))
  {
    assert "PET" + "#" == "PET#" && "PET#" + "1" == "PET#1";
    PrefixedBidirectional.RoundTrip("PET#", Some("1"));
    PrefixedBidirectional.ReadWithoutPrefix();
  }
}
