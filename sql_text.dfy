/**
 * Text helpers for the SQL the relational adapter builds: lists written with
 * a comma after every element (what its StringBuilder loops append), the
 * same lists with the trailing comma cut off, and placeholder counting.
 */
module SqlText {

  /** Every element followed by a comma: "a,b,c,". */
  function CommaTerminated(xs: seq<string>): string
    decreases |xs|
  {
    if xs == [] then "" else CommaTerminated(xs[..|xs| - 1]) + xs[|xs| - 1] + ","
  }

  /** The elements separated by commas: "a,b,c". */
  function CommaJoined(xs: seq<string>): string
    decreases |xs|
  {
    if xs == [] then ""
    else if |xs| == 1 then xs[0]
    else CommaJoined(xs[..|xs| - 1]) + "," + xs[|xs| - 1]
  }

  /** Cutting the last character off a non-empty comma-terminated list leaves the comma-joined list. */
  lemma {:induction false} DropTrailingComma(xs: seq<string>)
    requires xs != []
    ensures CommaTerminated(xs) == CommaJoined(xs) + ","
    ensures |CommaTerminated(xs)| >= 1
    ensures CommaTerminated(xs)[..|CommaTerminated(xs)| - 1] == CommaJoined(xs)
    decreases |xs|
  {
    if |xs| == 1 {
      assert xs[..0] == [];
    } else {
      var init := xs[..|xs| - 1];
      DropTrailingComma(init);
      assert CommaTerminated(xs) == CommaJoined(init) + "," + xs[|xs| - 1] + ",";
    }
    var t := CommaTerminated(xs);
    assert t[..|t| - 1] == CommaJoined(xs);
  }

  /** The number of occurrences of `c` in `s`. */
  function Occurrences(s: string, c: char): nat
    decreases |s|
  {
    if s == [] then 0 else (if s[0] == c then 1 else 0) + Occurrences(s[1..], c)
  }

  lemma {:induction false} OccurrencesConcat(a: string, b: string, c: char)
    ensures Occurrences(a + b, c) == Occurrences(a, c) + Occurrences(b, c)
    decreases |a|
  {
    if a == [] {
      assert a + b == b;
    } else {
      assert (a + b)[0] == a[0];
      assert (a + b)[1..] == a[1..] + b;
      OccurrencesConcat(a[1..], b, c);
    }
  }

  lemma {:induction false} OccurrencesAbsent(s: string, c: char)
    requires c !in s
    ensures Occurrences(s, c) == 0
    decreases |s|
  {
    if s != [] {
      OccurrencesAbsent(s[1..], c);
    }
  }

  /** A JDBC placeholder. */
  const Placeholder: char := '?'

  /** The number of placeholders of a comma-terminated list is the sum over its elements. */
  lemma {:induction false} PlaceholdersOfList(xs: seq<string>, each: nat)
    requires forall i :: 0 <= i < |xs| ==> Occurrences(xs[i], Placeholder) == each
    ensures Occurrences(CommaTerminated(xs), Placeholder) == each * |xs|
    decreases |xs|
  {
    if xs != [] {
      var init, last := xs[..|xs| - 1], xs[|xs| - 1];
      PlaceholdersOfList(init, each);
      var t := CommaTerminated(init);
      assert CommaTerminated(xs) == t + last + ",";
      assert Occurrences(last, Placeholder) == each;
      assert Occurrences(",", Placeholder) == 0 by {
        OccurrencesAbsent(",", Placeholder);
      }
      OccurrencesOfThree(t, last, ",", Placeholder);
      MulSucc(each, |init|);
    }
  }

  lemma MulSucc(a: nat, n: nat)
    ensures a * (n + 1) == a * n + a
  {
  }

  lemma {:induction false} PlaceholdersOfJoined(xs: seq<string>, each: nat)
    requires xs != []
    requires forall i :: 0 <= i < |xs| ==> Occurrences(xs[i], Placeholder) == each
    ensures Occurrences(CommaJoined(xs), Placeholder) == each * |xs|
  {
    DropTrailingComma(xs);
    PlaceholdersOfList(xs, each);
    OccurrencesConcat(CommaJoined(xs), ",", Placeholder);
    OccurrencesAbsent(",", Placeholder);
  }

  lemma OccurrencesOfThree(a: string, b: string, c: string, ch: char)
    ensures Occurrences(a + b + c, ch) == Occurrences(a, ch) + Occurrences(b, ch) + Occurrences(c, ch)
  {
    OccurrencesConcat(a, b, ch);
    OccurrencesConcat(a + b, c, ch);
  }

  /** Text whose only placeholder is its last character has exactly one. */
  lemma EndsWithOnlyPlaceholder(s: string)
    requires s != [] && s[|s| - 1] == Placeholder && Placeholder !in s[..|s| - 1]
    ensures Occurrences(s, Placeholder) == 1
  {
    var init := s[..|s| - 1];
    assert s == init + [Placeholder];
    OccurrencesAbsent(init, Placeholder);
    OccurrencesConcat(init, [Placeholder], Placeholder);
    assert [Placeholder][1..] == [];
  }
}
