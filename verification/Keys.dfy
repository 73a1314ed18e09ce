/** Strings in their byte-wise order, and the ordered listing of a set of strings that ordered maps iterate by. */
module Keys {
  import opened Sorting

  /** Lexicographic order of code units. */
  predicate StringLeq(a: string, b: string) {
    || a == []
    || (b != [] && (a[0] < b[0] || (a[0] == b[0] && StringLeq(a[1..], b[1..]))))
  }

  lemma {:induction false} StringTotal(a: string, b: string)
    ensures StringLeq(a, b) || StringLeq(b, a)
  {
    if a != [] && b != [] && a[0] == b[0] {
      StringTotal(a[1..], b[1..]);
    }
  }

  lemma {:induction false} StringTransitive(a: string, b: string, c: string)
    requires StringLeq(a, b) && StringLeq(b, c)
    ensures StringLeq(a, c)
  {
    if a != [] && a[0] == b[0] && b[0] == c[0] {
      StringTransitive(a[1..], b[1..], c[1..]);
    }
  }

  lemma {:induction false} StringAntisymmetric(a: string, b: string)
    requires StringLeq(a, b) && StringLeq(b, a)
    ensures a == b
  {
    if a != [] && b != [] {
      StringAntisymmetric(a[1..], b[1..]);
      assert a == [a[0]] + a[1..] && b == [b[0]] + b[1..];
    }
  }

  lemma StringsPreordered()
    ensures Preorder(StringLeq)
  {
    forall a, b ensures StringLeq(a, b) || StringLeq(b, a) {
      StringTotal(a, b);
    }
    forall a, b, c | StringLeq(a, b) && StringLeq(b, c) ensures StringLeq(a, c) {
      StringTransitive(a, b, c);
    }
  }

  ghost predicate Distinct<T>(s: seq<T>) {
    forall i, j :: 0 <= i < j < |s| ==> s[i] != s[j]
  }

  /** The keys in order, each once. */
  ghost predicate Lists(s: seq<string>, keys: set<string>) {
    Distinct(s) && (forall k :: k in s <==> k in keys) && SortedBy(s, StringLeq)
  }

  lemma ListingUnique(a: seq<string>, b: seq<string>, keys: set<string>)
    requires Lists(a, keys) && Lists(b, keys)
    ensures a == b
  {
    forall x, y | StringLeq(x, y) && StringLeq(y, x) ensures x == y {
      StringAntisymmetric(x, y);
    }
    StringsPreordered();
    SameMembersArrange(a, b);
    SortedArrangementsEqual(a, b, StringLeq);
  }

  lemma ListingInsert(s: seq<string>, keys: set<string>, k: string)
    requires Lists(s, keys) && k !in keys
    ensures Lists(InsertBy(k, s, StringLeq), keys + {k})
  {
    StringsPreordered();
    InsertByKeepsSorted(k, s, StringLeq);
    InsertByMembers(k, s, StringLeq);
    InsertDistinct(s, k);
  }

  lemma {:induction false} InsertDistinct(s: seq<string>, k: string)
    requires Distinct(s) && k !in s
    ensures Distinct(InsertBy(k, s, StringLeq))
  {
    hide StringLeq;
    if s != [] && !StringLeq(k, s[0]) {
      InsertDistinct(s[1..], k);
      InsertByMembers(k, s[1..], StringLeq);
      var tail := InsertBy(k, s[1..], StringLeq);
      assert forall j :: 0 <= j < |tail| ==> tail[j] in tail;
    }
  }

  /** The ordered listing of a set of keys. */
  ghost function SortedKeys(keys: set<string>): (s: seq<string>)
    ensures Lists(s, keys)
  {
    if keys == {} then []
    else
      var k :| k in keys;
      var rest := SortedKeys(keys - {k});
      ListingInsert(rest, keys - {k}, k);
      assert keys - {k} + {k} == keys;
      InsertBy(k, rest, StringLeq)
  }

  method ListKeys(keys: set<string>) returns (s: seq<string>)
    ensures s == SortedKeys(keys)
  {
    s := [];
    var left := keys;
    while left != {}
      invariant left <= keys && Lists(s, keys - left)
      decreases |left|
    {
      var k :| k in left;
      ListingInsert(s, keys - left, k);
      assert keys - left + {k} == keys - (left - {k});
      s := InsertBy(k, s, StringLeq);
      left := left - {k};
    }
    assert keys - {} == keys;
    ListingUnique(s, SortedKeys(keys), keys);
  }
}
