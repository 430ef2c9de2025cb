/** The order in which Ruby's `Array#sort` puts strings. Ruby compares strings byte by
    byte; on UTF-8 text that is the lexicographic order of code points, with a proper
    prefix before any longer string. */
module StringOrder {

  /** `a` sorts no later than `b`. */
  predicate Below(a: string, b: string)
    decreases |a|
  {
    |a| == 0 || (|b| > 0 && (a[0] < b[0] || (a[0] == b[0] && Below(a[1..], b[1..]))))
  }

  lemma {:induction false} BelowReflexive(a: string)
    ensures Below(a, a)
    decreases |a|
  {
    if |a| > 0 { BelowReflexive(a[1..]); }
  }

  lemma {:induction false} BelowAntisymmetric(a: string, b: string)
    requires Below(a, b) && Below(b, a)
    ensures a == b
    decreases |a|
  {
    if |a| > 0 {
      BelowAntisymmetric(a[1..], b[1..]);
      assert a == [a[0]] + a[1..] && b == [b[0]] + b[1..];
    }
  }

  lemma {:induction false} BelowTransitive(a: string, b: string, c: string)
    requires Below(a, b) && Below(b, c)
    ensures Below(a, c)
    decreases |a|
  {
    if |a| > 0 && a[0] == b[0] && b[0] == c[0] {
      BelowTransitive(a[1..], b[1..], c[1..]);
    }
  }

  lemma {:induction false} BelowTotal(a: string, b: string)
    ensures Below(a, b) || Below(b, a)
    decreases |a|
  {
    if |a| > 0 && |b| > 0 && a[0] == b[0] {
      BelowTotal(a[1..], b[1..]);
    }
  }

  /** The least element of a finite non-empty set of strings. */
  lemma {:induction false} LeastOf(s: set<string>) returns (m: string)
    requires s != {}
    ensures m in s && forall x :: x in s ==> Below(m, x)
    decreases |s|
  {
    var y :| y in s;
    var t := s - {y};
    if t == {} {
      BelowReflexive(y);
      m := y;
      forall x | x in s ensures Below(m, x) {
        assert x !in t;
      }
    } else {
      var n := LeastOf(t);
      BelowTotal(n, y);
      if Below(n, y) {
        m := n;
        forall x | x in s ensures Below(m, x) {
          if x != y { assert x in t; }
        }
      } else {
        BelowReflexive(y);
        m := y;
        forall x | x in s ensures Below(m, x) {
          if x != y {
            assert x in t;
            BelowTransitive(y, n, x);
          }
        }
      }
    }
  }

  /** Every finite non-empty set of strings has a least element, so taking the least
      remaining element again and again visits a set in sorted order. */
  lemma LeastExists(s: set<string>)
    requires s != {}
    ensures exists m :: m in s && forall x :: x in s ==> Below(m, x)
  {
    var m := LeastOf(s);
  }

  /** The least element is unique. */
  lemma LeastIsUnique(s: set<string>, m: string, n: string)
    requires m in s && forall x :: x in s ==> Below(m, x)
    requires n in s && forall x :: x in s ==> Below(n, x)
    ensures m == n
  {
    BelowAntisymmetric(m, n);
  }
}
