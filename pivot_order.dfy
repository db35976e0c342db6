/** The order of the category view's stacked bars, stated independently
    of the loops that build it. */
module PivotOrder {
  import opened Js
  import opened SpecialCase

  /** Every category's distribution keys, category after category. */
  function AllKeys(summary: Entries<Group>): seq<string>
    decreases |summary|
  {
    if summary == [] then []
    else AllKeys(summary[..|summary| - 1]) + Keys(DistOf(summary[|summary| - 1].1))
  }

  /** A sequence with every repeat of an earlier element dropped. */
  function FirstOccurrences(s: seq<string>): seq<string>
    decreases |s|
  {
    if s == [] then [] else Add(FirstOccurrences(s[..|s| - 1]), s[|s| - 1])
  }

  lemma {:induction false} AddAllFirstOccurrences(a: seq<string>, b: seq<string>)
    ensures AddAll(FirstOccurrences(a), b) == FirstOccurrences(a + b)
    decreases |b|
  {
    if b == [] {
      assert a + b == a;
    } else {
      var front := b[..|b| - 1];
      AddAllFirstOccurrences(a, front);
      assert (a + b)[..|a + b| - 1] == a + front;
    }
  }

  /** The compare values, and so the order of the stacked bars, are the
      distribution keys in the order the loops meet them, each kept where it
      first appears. */
  lemma {:induction false} CompareValuesOrder(summary: Entries<Group>)
    ensures CompareValues(summary) == FirstOccurrences(AllKeys(summary))
    decreases |summary|
  {
    if summary != [] {
      var front := summary[..|summary| - 1];
      CompareValuesOrder(front);
      AddAllFirstOccurrences(AllKeys(front), Keys(DistOf(summary[|summary| - 1].1)));
    }
  }
}
