/**
 * PrefixedBidirectionalMapper: writing prepends a fixed prefix; reading strips everything
 * up to and including the FIRST occurrence of the prefix anywhere in the text, and leaves
 * text without the prefix unchanged. Both directions pass null through.
 */
module PrefixedBidirectional {
  import opened Wrappers
  import opened JavaLang

  /** k is the lowest index at which p occurs in s. */
  ghost predicate FirstOccurrence(s: string, p: string, k: int) {
    OccursAt(s, p, k) && forall j | 0 <= j < k :: !OccursAt(s, p, j)
  }

  function Read(prefix: string, value: Option<string>): (r: Option<string>)
    ensures value.None? <==> r.None?
    ensures value.Some? && (forall k :: !OccursAt(value.value, prefix, k)) ==> r == value
    ensures forall k | value.Some? && FirstOccurrence(value.value, prefix, k) ::
      r == Some(value.value[k + |prefix|..])
  {
    match value
    case None => None
    case Some(text) =>
      var index := IndexOf(text, prefix);
      if index > -1 then Some(text[index + |prefix|..]) else Some(text)
  }

  function Write(prefix: string, value: Option<string>): (r: Option<string>)
    ensures value.None? <==> r.None?
    ensures value.Some? ==> |r.value| == |prefix| + |value.value|
    ensures value.Some? ==> r.value[..|prefix|] == prefix && r.value[|prefix|..] == value.value
  {
    match value
    case None => None
    case Some(text) => Some(prefix + text)
  }

  /** Reading what was written gives the value back, null included. */
  lemma RoundTrip(prefix: string, value: Option<string>)
    ensures Read(prefix, Write(prefix, value)) == value
  {
    if value.Some? {
      var text := Write(prefix, value).value;
      assert OccursAt(text, prefix, 0);
      assert FirstOccurrence(text, prefix, 0);
    }
  }

  /** The read is not anchored at the start: a prefix in the middle is stripped too. */
  lemma ReadIsNotAnchored()
    ensures Read("PET#", Some("xPET#1")) == Some("1")
    ensures Read("PET#", Some("PET#2PET#3")) == Some("2PET#3")
  {
    var s := "xPET#1";
    assert s[0..4][0] == 'x';
    assert OccursAt(s, "PET#", 1);
    assert FirstOccurrence(s, "PET#", 1);
    var t := "PET#2PET#3";
    assert OccursAt(t, "PET#", 0);
    assert FirstOccurrence(t, "PET#", 0);
  }

  /** Text without the prefix is returned unchanged rather than rejected. */
  lemma ReadWithoutPrefix()
    ensures Read("PET#", Some("1")) == Some("1")
    ensures Read("C_", Some("C_28")) == Some("28")
  {
    assert forall k :: !OccursAt("1", "PET#", k);
    assert OccursAt("C_28", "C_", 0);
    assert FirstOccurrence("C_28", "C_", 0);
  }
}
