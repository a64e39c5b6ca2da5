/** The byte-wise order of strings that sort.Strings and the list sorter use. */
module StringOrder {
  predicate Less(a: string, b: string) {
    b != "" && (a == "" || a[0] < b[0] || (a[0] == b[0] && Less(a[1..], b[1..])))
  }

  /** The order of a dictionary: where the strings first differ decides, and a proper prefix comes first. */
  lemma {:induction false} LessMeans(a: string, b: string)
    ensures Less(a, b) <==> exists i :: 0 <= i <= |a| && Splits(a, b, i)
  {
    if a != "" && b != "" && a[0] == b[0] {
      LessMeans(a[1..], b[1..]);
      forall i | 0 < i <= |a|
        ensures Splits(a, b, i) <==> Splits(a[1..], b[1..], i - 1)
      {
        SplitsShift(a, b, i);
      }
      if i :| 0 <= i <= |a[1..]| && Splits(a[1..], b[1..], i) {
        assert Splits(a, b, i + 1);
      }
    } else if Less(a, b) {
      assert Splits(a, b, 0);
    } else if i :| 0 <= i <= |a| && Splits(a, b, i) {
      assert i > 0 ==> a[..i][0] == b[..i][0];
    }
  }

  lemma SplitsShift(a: string, b: string, i: nat)
    requires a != "" && b != "" && a[0] == b[0] && 0 < i <= |a|
    ensures Splits(a, b, i) <==> Splits(a[1..], b[1..], i - 1)
  {
    if i < |b| {
      assert a[..i] == [a[0]] + a[1..i] && b[..i] == [b[0]] + b[1..i];
      assert a[1..][..i - 1] == a[1..i] && b[1..][..i - 1] == b[1..i];
      assert a[..i][1..] == a[1..i] && b[..i][1..] == b[1..i];
    }
  }

  /** The strings agree up to i, where a ends or has the smaller character. */
  predicate Splits(a: string, b: string, i: nat)
    requires i <= |a|
  {
    i < |b| && a[..i] == b[..i] && (i == |a| || a[i] < b[i])
  }

  lemma {:induction false} LessIrreflexive(a: string)
    ensures !Less(a, a)
  {
    if a != "" {
      LessIrreflexive(a[1..]);
    }
  }

  lemma {:induction false} LessTransitive(a: string, b: string, c: string)
    requires Less(a, b) && Less(b, c)
    ensures Less(a, c)
  {
    if a != "" && a[0] == b[0] == c[0] {
      LessTransitive(a[1..], b[1..], c[1..]);
    }
  }

  lemma {:induction false} LessTotal(a: string, b: string)
    ensures a == b || Less(a, b) || Less(b, a)
  {
    if a != "" && b != "" && a[0] == b[0] {
      LessTotal(a[1..], b[1..]);
      assert a == [a[0]] + a[1..] && b == [b[0]] + b[1..];
    }
  }

  ghost predicate StrictlySorted(s: seq<string>) {
    forall i, j :: 0 <= i < j < |s| ==> Less(s[i], s[j])
  }

  /** A strictly sorted list has no duplicates and is fixed by its contents. */
  lemma {:induction false} StrictlySortedUnique(s: seq<string>, t: seq<string>)
    requires StrictlySorted(s) && StrictlySorted(t)
    requires forall x :: x in s <==> x in t
    ensures s == t
  {
    NonemptyTogether(s, t);
    NonemptyTogether(t, s);
    if s != [] {
      assert s[0] in t && t[0] in s;
      if s[0] != t[0] {
        LessTotal(s[0], t[0]);
        LessAsymmetric(s[0], t[0]);
        LessAsymmetric(t[0], s[0]);
      }
      forall x
        ensures x in s[1..] <==> x in t[1..]
      {
        LessIrreflexive(x);
        assert x in s[1..] ==> x in s && x != s[0];
        assert x in t[1..] ==> x in t && x != t[0];
        assert x in s && x != s[0] ==> x in s[1..];
        assert x in t && x != t[0] ==> x in t[1..];
      }
      StrictlySortedUnique(s[1..], t[1..]);
      assert s == [s[0]] + s[1..] && t == [t[0]] + t[1..];
    }
  }

  lemma NonemptyTogether(s: seq<string>, t: seq<string>)
    requires forall x :: x in s ==> x in t
    ensures s != [] ==> t != []
  {
    if s != [] {
      assert s[0] in t;
    }
  }

  lemma LessAsymmetric(a: string, b: string)
    ensures !(Less(a, b) && Less(b, a))
  {
    if Less(a, b) && Less(b, a) {
      LessTransitive(a, b, a);
    }
    LessIrreflexive(a);
  }

  /** The elements of a set in order. */
  method Sort(elements: set<string>) returns (sorted: seq<string>)
    ensures StrictlySorted(sorted)
    ensures forall x :: x in sorted <==> x in elements
  {
    sorted := [];
    var todo := elements;
    while todo != {}
      invariant todo <= elements && StrictlySorted(sorted)
      invariant forall x :: x in sorted <==> x in elements - todo
      decreases todo
    {
      var x :| x in todo;
      sorted := Insert(sorted, x);
      todo := todo - {x};
    }
  }

  method Insert(s: seq<string>, x: string) returns (t: seq<string>)
    requires StrictlySorted(s) && x !in s
    ensures StrictlySorted(t)
    ensures forall y :: y in t <==> y in s || y == x
  {
    var i := 0;
    while i < |s| && Less(s[i], x)
      invariant 0 <= i <= |s|
      invariant forall j :: 0 <= j < i ==> Less(s[j], x)
    {
      i := i + 1;
    }
    if i < |s| {
      LessTotal(x, s[i]);
      forall j | i < j < |s|
        ensures Less(x, s[j])
      {
        LessTransitive(x, s[i], s[j]);
      }
    }
    t := s[..i] + [x] + s[i..];
    assert forall y :: y in s <==> y in s[..i] || y in s[i..] by {
      assert s == s[..i] + s[i..];
    }
  }
}
