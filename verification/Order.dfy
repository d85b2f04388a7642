/** Pod UIDs in the order `sort.Strings` gives them. */
module Order {

  predicate Le(a: string, b: string) {
    a == "" || (b != "" && (a[0] < b[0] || (a[0] == b[0] && Le(a[1..], b[1..]))))
  }

  /** A string comes before another if it is a prefix of it, or has the smaller character at
      the first place where they differ. */
  lemma {:induction false} LeIsLexicographic(a: string, b: string)
    ensures Le(a, b) <==> a <= b || exists i :: 0 <= i < |a| && i < |b| && a[..i] == b[..i] && a[i] < b[i]
  {
    if a == "" || b == "" {
    } else if a[0] != b[0] {
      assert a[..0] == b[..0];
    } else {
      var c, d := a[1..], b[1..];
      LeIsLexicographic(c, d);
      assert a == [a[0]] + c && b == [b[0]] + d;
      if i :| 0 <= i < |c| && i < |d| && c[..i] == d[..i] && c[i] < d[i] {
        assert a[..i + 1] == [a[0]] + c[..i] && b[..i + 1] == [b[0]] + d[..i];
        assert a[i + 1] < b[i + 1];
      }
      if i :| 0 < i < |a| && i < |b| && a[..i] == b[..i] && a[i] < b[i] {
        assert c[..i - 1] == a[..i][1..] && d[..i - 1] == b[..i][1..];
        assert c[i - 1] < d[i - 1];
      }
    }
  }

  lemma LeTotal(a: string, b: string)
    ensures Le(a, b) || Le(b, a)
  {
  }

  lemma {:induction false} LeAntisymmetric(a: string, b: string)
    requires Le(a, b) && Le(b, a)
    ensures a == b
  {
    if a != "" {
      LeAntisymmetric(a[1..], b[1..]);
      assert a == [a[0]] + a[1..] && b == [b[0]] + b[1..];
    }
  }

  lemma {:induction false} LeTransitive(a: string, b: string, c: string)
    requires Le(a, b) && Le(b, c)
    ensures Le(a, c)
  {
    if a != "" && a[0] == b[0] && b[0] == c[0] {
      LeTransitive(a[1..], b[1..], c[1..]);
    }
  }

  predicate Sorted(s: seq<string>) {
    forall i, j :: 0 <= i < j < |s| ==> Le(s[i], s[j]) && s[i] != s[j]
  }

  ghost predicate SortedKeys(s: seq<string>, keys: set<string>) {
    Sorted(s) && |s| == |keys| && forall k :: k in s <==> k in keys
  }

  /** There is only one sorted list of a set of keys. */
  lemma {:induction false} SortedKeysUnique(s: seq<string>, t: seq<string>, keys: set<string>)
    requires SortedKeys(s, keys) && SortedKeys(t, keys)
    ensures s == t
    decreases |s|
  {
    if s == [] {
    } else {
      assert s[0] in t;
      var i :| 0 <= i < |t| && t[i] == s[0];
      assert t[0] in s;
      var j :| 0 <= j < |s| && s[j] == t[0];
      if i > 0 && j > 0 {
        LeAntisymmetric(s[0], t[0]);
      }
      assert s[0] == t[0];
      forall k
        ensures k in s[1..] <==> k in keys - {s[0]}
        ensures k in t[1..] <==> k in keys - {s[0]}
      {
        assert k in s <==> k == s[0] || k in s[1..];
        assert k in t <==> k == t[0] || k in t[1..];
      }
      SortedKeysUnique(s[1..], t[1..], keys - {s[0]});
    }
  }

  /** `sort.Strings` over the keys of a Go map, which come in any order. */
  method Sort(keys: set<string>) returns (s: seq<string>)
    ensures SortedKeys(s, keys)
  {
    s := [];
    var rest := keys;
    while rest != {}
      invariant rest <= keys && SortedKeys(s, keys - rest)
      decreases |rest|
    {
      var k :| k in rest;
      rest := rest - {k};
      assert keys - rest - {k} == keys - (rest + {k});
      s := InsertKey(s, k, keys - rest);
    }
  }

  method InsertKey(s: seq<string>, k: string, ghost keys: set<string>) returns (r: seq<string>)
    requires k in keys && SortedKeys(s, keys - {k})
    ensures SortedKeys(r, keys)
  {
    var i := 0;
    while i < |s| && Le(s[i], k)
      invariant 0 <= i <= |s|
      invariant forall j :: 0 <= j < i ==> Le(s[j], k)
    {
      i := i + 1;
    }
    r := s[..i] + [k] + s[i..];
    forall j | i <= j < |s|
      ensures Le(k, s[j])
    {
      LeTotal(s[i], k);
      if j > i { LeTransitive(k, s[i], s[j]); }
    }
    assert k !in s;
    InsertedSorted(s, i, k);
    assert forall x :: x in r <==> x == k || x in s;
    assert keys == keys - {k} + {k};
  }

  lemma InsertedSorted(s: seq<string>, i: nat, k: string)
    requires i <= |s| && Sorted(s) && k !in s
    requires forall j :: 0 <= j < i ==> Le(s[j], k)
    requires forall j :: i <= j < |s| ==> Le(k, s[j])
    ensures Sorted(s[..i] + [k] + s[i..])
  {
    var r := s[..i] + [k] + s[i..];
    forall a, b | 0 <= a < b < |r|
      ensures Le(r[a], r[b]) && r[a] != r[b]
    {
      if a == i {
        assert r[b] == s[b - 1];
      } else if b == i {
        assert r[a] == s[a];
      }
    }
  }
}
