/** Java, Guava and collection-library behaviour that the plugin relies on,
    restated over Dafny values. */
module Jvm {

  /** A Java reference that may be null. */
  datatype Option<+T> = None | Some(value: T)

  /** A Java call that returns a value or throws. */
  datatype Result<+T, +E> = Success(value: T) | Failure(error: E)

  /** A void Java call: it completes normally or throws. */
  datatype Outcome<+E> = Pass | Fail(error: E)

  /** Guava's Strings.nullToEmpty: a string is kept, null reads as the empty string. */
  function NullToEmpty(s: Option<string>): (r: string)
    ensures s.Some? ==> r == s.value
    ensures r == "" <==> s.None? || s.value == ""
  {
    if s.Some? then s.value else ""
  }

  /** What Java string concatenation appends for a String that may be null (section 5.1.11
      of the Java Language Specification): the string itself, or the four letters "null". */
  function ConcatForm(s: Option<string>): (r: string)
    ensures s.Some? ==> r == s.value
    ensures s.None? ==> r == "null"
  {
    if s.Some? then s.value else "null"
  }

  /** The elements of a list separated by ", ", as AbstractCollection.toString writes them. */
  function Join(xs: seq<string>): string
  {
    if xs == [] then ""
    else if |xs| == 1 then xs[0]
    else xs[0] + ", " + Join(xs[1..])
  }

  /** AbstractCollection.toString of a list of strings: "[a, b, c]". */
  function ListToString(xs: seq<string>): (s: string)
    ensures |s| >= 2 && s[0] == '[' && s[|s| - 1] == ']'
    ensures xs == [] ==> s == "[]"
    ensures |xs| == 1 ==> s == "[" + xs[0] + "]"
    ensures |xs| >= 2 ==> s == "[" + xs[0] + ", " + Join(xs[1..]) + "]"
  {
    "[" + Join(xs) + "]"
  }

  /** A two-element list prints as "[a, b]". */
  lemma ListToStringPair(a: string, b: string)
    ensures ListToString([a, b]) == "[" + a + ", " + b + "]"
  {
    assert [a, b][1..] == [b];
  }

  /** `t` occurs in `s` starting at index `k`. */
  predicate OccursAt(t: string, s: string, k: int)
  {
    0 <= k && k + |t| <= |s| && s[k..k + |t|] == t
  }

  ghost predicate OccursIn(t: string, s: string)
  {
    exists k :: OccursAt(t, s, k)
  }

  /** An occurrence survives putting text in front of or behind the string. */
  lemma OccursShift(t: string, s: string, k: int, before: string, after: string)
    requires OccursAt(t, s, k)
    ensures OccursAt(t, before + s + after, |before| + k)
  {
  }

  /** Every element of the list can be read back from the joined text. */
  lemma {:induction false} JoinContains(xs: seq<string>, i: nat)
    requires i < |xs|
    ensures OccursIn(xs[i], Join(xs))
  {
    if |xs| == 1 {
      assert OccursAt(xs[0], Join(xs), 0);
    } else if i == 0 {
      OccursShift(xs[0], xs[0], 0, "", ", " + Join(xs[1..]));
      assert "" + xs[0] + (", " + Join(xs[1..])) == Join(xs);
    } else {
      JoinContains(xs[1..], i - 1);
      var k :| OccursAt(xs[1..][i - 1], Join(xs[1..]), k);
      OccursShift(xs[i], Join(xs[1..]), k, xs[0] + ", ", "");
      assert xs[0] + ", " + Join(xs[1..]) + "" == Join(xs);
    }
  }

  /** Every element of the list can be read back from its toString. */
  lemma ListToStringContains(xs: seq<string>, i: nat)
    requires i < |xs|
    ensures OccursIn(xs[i], ListToString(xs))
  {
    JoinContains(xs, i);
    var k :| OccursAt(xs[i], Join(xs), k);
    OccursShift(xs[i], Join(xs), k, "[", "]");
  }
}
