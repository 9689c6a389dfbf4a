/** Sequences with items left out. */
module Sequences {
  ghost predicate Distinct<T>(items: seq<T>) {
    forall i, j | 0 <= i < j < |items| :: items[i] != items[j]
  }

  /** `part` is `whole` with some items left out. */
  ghost predicate Subsequence<T>(part: seq<T>, whole: seq<T>) {
    part == [] ||
    (whole != [] && ((part[0] == whole[0] && Subsequence(part[1..], whole[1..])) || Subsequence(part, whole[1..])))
  }

  lemma {:induction false} LongerWhole<T>(part: seq<T>, before: seq<T>, whole: seq<T>)
    requires Subsequence(part, whole)
    ensures Subsequence(part, before + whole)
  {
    if before != [] {
      LongerWhole(part, before[1..], whole);
      assert (before + whole)[1..] == before[1..] + whole;
    } else {
      assert before + whole == whole;
    }
  }

  lemma {:induction false} SubsequencesJoin<T>(a: seq<T>, b: seq<T>, c: seq<T>, d: seq<T>)
    requires Subsequence(a, b) && Subsequence(c, d)
    ensures Subsequence(a + c, b + d)
    decreases |b|
  {
    if a == [] {
      LongerWhole(c, b, d);
      assert a + c == c;
    } else {
      assert (b + d)[1..] == b[1..] + d;
      assert (a + c)[1..] == a[1..] + c;
      if a[0] == b[0] && Subsequence(a[1..], b[1..]) {
        SubsequencesJoin(a[1..], b[1..], c, d);
      } else {
        SubsequencesJoin(a, b[1..], c, d);
      }
    }
  }

  lemma {:induction false} PartOf<T>(part: seq<T>, whole: seq<T>)
    requires Subsequence(part, whole)
    ensures forall x | x in part :: x in whole
  {
    if part != [] {
      if part[0] == whole[0] && Subsequence(part[1..], whole[1..]) {
        PartOf(part[1..], whole[1..]);
        assert part == [part[0]] + part[1..];
      } else {
        PartOf(part, whole[1..]);
      }
    }
  }

  lemma {:induction false} PartIsDistinct<T>(part: seq<T>, whole: seq<T>)
    requires Subsequence(part, whole) && Distinct(whole)
    ensures Distinct(part)
  {
    if part != [] {
      assert forall i, j | 0 <= i < j < |whole[1..]| :: whole[1..][i] == whole[i + 1] && whole[1..][j] == whole[j + 1];
      if part[0] == whole[0] && Subsequence(part[1..], whole[1..]) {
        PartIsDistinct(part[1..], whole[1..]);
        PartOf(part[1..], whole[1..]);
        assert whole[0] !in whole[1..];
        forall i, j | 0 <= i < j < |part| ensures part[i] != part[j] {
          assert part[1..][j - 1] == part[j];
          if i > 0 {
            assert part[1..][i - 1] == part[i];
          }
        }
      } else {
        PartIsDistinct(part, whole[1..]);
      }
    }
  }

  /** One more item in front, kept or left out. */
  lemma OneInFront<T>(x: T, part: seq<T>, whole: seq<T>)
    requires Subsequence(part, whole)
    ensures Subsequence([x] + part, [x] + whole) && Subsequence(part, [x] + whole)
    ensures multiset([x] + whole) == multiset{x} + multiset(whole)
        && multiset([x] + part) == multiset{x} + multiset(part)
  {
    assert ([x] + part)[1..] == part && ([x] + whole)[1..] == whole;
  }
}
