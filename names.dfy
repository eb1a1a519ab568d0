/**
 * File-name order. Go's os.ReadDir returns a directory's entries sorted by
 * file name, comparing names byte by byte; UTF-8 preserves code point order,
 * so comparing characters gives the same order.
 */
module FileNames {

  /** Go's `a <= b` on strings: lexicographic, a proper prefix first. */
  predicate NameLe(a: string, b: string)
    decreases |a|
  {
    |a| == 0 || (|b| > 0 && (a[0] < b[0] || (a[0] == b[0] && NameLe(a[1..], b[1..]))))
  }

  predicate NameLt(a: string, b: string) {
    NameLe(a, b) && a != b
  }

  /** Strictly increasing, hence also free of duplicates. */
  predicate Ascending(s: seq<string>) {
    forall i, j :: 0 <= i < j < |s| ==> NameLt(s[i], s[j])
  }

  lemma {:induction false} NameLeTotal(a: string, b: string)
    ensures NameLe(a, b) || NameLe(b, a)
    decreases |a|
  {
    if |a| > 0 && |b| > 0 && a[0] == b[0] {
      NameLeTotal(a[1..], b[1..]);
    }
  }

  lemma {:induction false} NameLeAntisymmetric(a: string, b: string)
    requires NameLe(a, b) && NameLe(b, a)
    ensures a == b
    decreases |a|
  {
    if |a| > 0 {
      NameLeAntisymmetric(a[1..], b[1..]);
      assert a == [a[0]] + a[1..];
      assert b == [b[0]] + b[1..];
    }
  }

  lemma {:induction false} NameLeTransitive(a: string, b: string, c: string)
    requires NameLe(a, b) && NameLe(b, c)
    ensures NameLe(a, c)
    decreases |a|
  {
    if |a| > 0 && a[0] == b[0] && b[0] == c[0] {
      NameLeTransitive(a[1..], b[1..], c[1..]);
    }
  }

  /** `m` is no greater than any member of `s`. */
  predicate IsLeast(m: string, s: set<string>) {
    forall x :: x in s ==> NameLe(m, x)
  }

  lemma {:induction false} LeastExists(s: set<string>)
    requires s != {}
    ensures exists m :: m in s && IsLeast(m, s)
    decreases |s|
  {
    var x :| x in s;
    NameLeTotal(x, x);
    if s == {x} {
      assert IsLeast(x, s);
    } else {
      LeastExists(s - {x});
      var m :| m in s - {x} && IsLeast(m, s - {x});
      NameLeTotal(x, m);
      if NameLe(x, m) {
        forall y | y in s
          ensures NameLe(x, y)
        {
          if y != x { NameLeTransitive(x, m, y); }
        }
        assert IsLeast(x, s);
      } else {
        assert IsLeast(m, s);
      }
    }
  }

  lemma LeastUnique(s: set<string>)
    ensures forall a, b :: a in s && IsLeast(a, s) && b in s && IsLeast(b, s) ==> a == b
  {
    forall a, b | a in s && IsLeast(a, s) && b in s && IsLeast(b, s)
      ensures a == b
    {
      NameLeAntisymmetric(a, b);
    }
  }

  /** The names of `s` in the order os.ReadDir reports them: least first. */
  function SortedNames(s: set<string>): (r: seq<string>)
    ensures |r| == |s|
    ensures forall n :: n in r <==> n in s
    ensures Ascending(r)
    decreases |s|
  {
    if s == {} then []
    else
      LeastExists(s);
      LeastUnique(s);
      var m :| m in s && IsLeast(m, s);
      var rest := SortedNames(s - {m});
      AscendingCons(m, rest, s - {m});
      [m] + rest
  }

  lemma AscendingCons(m: string, rest: seq<string>, others: set<string>)
    requires Ascending(rest) && IsLeast(m, others + {m})
    requires forall n :: n in rest <==> n in others
    requires m !in others
    ensures Ascending([m] + rest)
  {
    forall j | 0 <= j < |rest|
      ensures NameLt(m, rest[j])
    {
      assert rest[j] in rest;
    }
  }
}
