/** The claim order: creation time, then name. */
module Order {
  import opened Types

  /** Go's string comparison. */
  predicate LexLess(a: string, b: string)
    decreases |a|
  {
    if b == [] then false
    else if a == [] then true
    else if a[0] != b[0] then a[0] < b[0]
    else LexLess(a[1..], b[1..])
  }

  lemma {:induction false} LexTrichotomy(a: string, b: string)
    ensures a == b ==> !LexLess(a, b)
    ensures a != b ==> LexLess(a, b) != LexLess(b, a)
    decreases |a|
  {
    if a != [] && b != [] && a[0] == b[0] {
      LexTrichotomy(a[1..], b[1..]);
      assert a == [a[0]] + a[1..] && b == [b[0]] + b[1..];
    }
  }

  lemma {:induction false} LexTransitive(a: string, b: string, c: string)
    requires LexLess(a, b) && LexLess(b, c)
    ensures LexLess(a, c)
    decreases |a|
  {
    if a != [] && a[0] == b[0] == c[0] {
      LexTransitive(a[1..], b[1..], c[1..]);
    }
  }

  /** a, stored as `an`, wins a claim over b, stored as `bn`. */
  predicate Precedes(an: string, a: InferenceService, bn: string, b: InferenceService) {
    if a.created != b.created then a.created < b.created else LexLess(an, bn)
  }

  /** On distinct names the order is a strict total order, so a claim has one winner. */
  lemma PrecedesIsStrictTotal(an: string, a: InferenceService, bn: string, b: InferenceService, cn: string,
                              c: InferenceService)
    ensures !Precedes(an, a, an, a)
    ensures an != bn ==> Precedes(an, a, bn, b) != Precedes(bn, b, an, a)
    ensures Precedes(an, a, bn, b) && Precedes(bn, b, cn, c) ==> Precedes(an, a, cn, c)
  {
    LexTrichotomy(an, an);
    LexTrichotomy(an, bn);
    if Precedes(an, a, bn, b) && Precedes(bn, b, cn, c) && a.created == b.created == c.created {
      LexTransitive(an, bn, cn);
    }
  }
}
