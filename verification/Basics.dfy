/** Shared vocabulary: options, the string order used for tie-breaking, and ranks. */
module Basics {

  datatype Option<+T> = None | Some(value: T)

  /** Strict lexicographic order on identifiers. */
  predicate Less(a: string, b: string) {
    |b| > 0 && (|a| == 0 || a[0] < b[0] || (a[0] == b[0] && Less(a[1..], b[1..])))
  }

  /** `a` ends, or has the smaller character, where the two first differ. */
  predicate DifferAt(a: string, b: string, k: nat) {
    k <= |a| && k < |b| && a[..k] == b[..k] && (k == |a| || a[k] < b[k])
  }

  /** It is the order of a dictionary. */
  lemma {:induction false} LessIsLexicographic(a: string, b: string)
    ensures Less(a, b) <==> exists k: nat :: DifferAt(a, b, k)
  {
    if |a| > 0 && |b| > 0 && a[0] == b[0] {
      LessIsLexicographic(a[1..], b[1..]);
      forall k: nat | DifferAt(a[1..], b[1..], k) ensures DifferAt(a, b, k + 1) {
        assert a[..k + 1] == [a[0]] + a[1..][..k] && b[..k + 1] == [b[0]] + b[1..][..k];
      }
      forall k: nat | DifferAt(a, b, k) && k > 0 ensures DifferAt(a[1..], b[1..], k - 1) {
        assert a[1..][..k - 1] == a[..k][1..] && b[1..][..k - 1] == b[..k][1..];
      }
    } else if |b| > 0 {
      assert DifferAt(a, b, 0) <==> Less(a, b);
    }
  }

  lemma {:induction false} LessIsTotal(a: string, b: string)
    ensures Less(a, b) || Less(b, a) || a == b
    ensures !(Less(a, b) && Less(b, a))
  {
    if |a| > 0 && |b| > 0 {
      LessIsTotal(a[1..], b[1..]);
      if a[0] == b[0] && a[1..] == b[1..] {
        assert a == [a[0]] + a[1..] == b;
      }
    }
  }

  lemma {:induction false} LessIsTransitive(a: string, b: string, c: string)
    requires Less(a, b) && Less(b, c)
    ensures Less(a, c)
  {
    if |a| > 0 && a[0] == b[0] == c[0] {
      LessIsTransitive(a[1..], b[1..], c[1..]);
    }
  }

  /** A sort key: lower priority first, ties broken by identifier. */
  datatype Rank = Rank(priority: int, id: string)

  predicate Before(a: Rank, b: Rank) {
    a.priority < b.priority || (a.priority == b.priority && Less(a.id, b.id))
  }

  lemma BeforeIsTotal(a: Rank, b: Rank)
    ensures Before(a, b) || Before(b, a) || a == b
    ensures !(Before(a, b) && Before(b, a))
    ensures !Before(a, a)
  {
    LessIsTotal(a.id, b.id);
    LessIsTotal(a.id, a.id);
  }

  lemma BeforeIsTransitive(a: Rank, b: Rank, c: Rank)
    requires Before(a, b) && Before(b, c)
    ensures Before(a, c)
  {
    if a.priority == b.priority == c.priority {
      LessIsTransitive(a.id, b.id, c.id);
    }
  }

  lemma SubsetSize<T>(a: set<T>, b: set<T>)
    requires a <= b
    ensures |a| <= |b|
  {
    assert b == a + (b - a);
  }
}
