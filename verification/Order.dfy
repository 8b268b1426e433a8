/** The byte-wise order in which the database compares text keys. */
module Order {

  predicate Less(a: string, b: string) {
    b != [] && (a == [] || a[0] < b[0] || (a[0] == b[0] && Less(a[1..], b[1..])))
  }

  lemma {:induction false} LessIrreflexive(a: string)
    ensures !Less(a, a)
  {
    if a != [] { LessIrreflexive(a[1..]); }
  }

  lemma {:induction false} LessTotal(a: string, b: string)
    ensures Less(a, b) || a == b || Less(b, a)
  {
    if a != [] && b != [] && a[0] == b[0] {
      LessTotal(a[1..], b[1..]);
      if a[1..] == b[1..] { assert a == [a[0]] + a[1..] == b; }
    }
  }

  lemma {:induction false} LessTransitive(a: string, b: string, c: string)
    requires Less(a, b) && Less(b, c)
    ensures Less(a, c)
  {
    if a != [] && a[0] == b[0] == c[0] { LessTransitive(a[1..], b[1..], c[1..]); }
  }

  /** The order is decided by the first difference, and a proper prefix comes first. */
  lemma {:induction false} LessByFirstDifference(common: string, x: char, y: char, a: string, b: string)
    requires x < y
    ensures Less(common + [x] + a, common + [y] + b) && Less(common, common + [y] + b)
  {
    var s, t := common + [x] + a, common + [y] + b;
    if common == "" {
      assert s[0] == x && t[0] == y;
    } else {
      assert s[1..] == common[1..] + [x] + a && t[1..] == common[1..] + [y] + b;
      LessByFirstDifference(common[1..], x, y, a, b);
    }
  }
}
