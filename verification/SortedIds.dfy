/** Series and day numbers, and the keys of a Go map, collected and sorted. */
module SortedIds {
  type SeriesId = nat

  /** A UTC day, counted from the first day of 1970. */
  type Day = int

  lemma Member<T>(s: set<T>) returns (x: T)
    requires s != {}
    ensures x in s
  {
    x :| x in s;
  }

  lemma KeyOf<K, V>(m: map<K, V>, v: V) returns (k: K)
    requires v in m.Values
    ensures k in m && m[k] == v
  {
    k :| k in m && m[k] == v;
  }

  lemma {:induction false} LeastExists(s: set<int>)
    requires s != {}
    ensures exists m :: m in s && forall x :: x in s ==> m <= x
    decreases s
  {
    var y := Member(s);
    if s == {y} {
      assert y in s && forall x :: x in s ==> y <= x;
    } else {
      LeastExists(s - {y});
      var m :| m in s - {y} && forall x :: x in s - {y} ==> m <= x;
      var least := if y < m then y else m;
      forall x | x in s ensures least <= x {
        assert x == y || x in s - {y};
      }
      assert least in s;
    }
  }

  /** The elements of s in ascending order. */
  function Ascending(s: set<int>): (ids: seq<int>)
    ensures forall i, j :: 0 <= i < j < |ids| ==> ids[i] < ids[j]
    ensures forall x :: x in ids <==> x in s
    decreases s
  {
    if s == {} then []
    else
      LeastExists(s);
      var m :| m in s && forall x :: x in s ==> m <= x;
      var rest := Ascending(s - {m});
      assert forall j :: 0 <= j < |rest| ==> rest[j] in s - {m};
      [m] + rest
  }

  lemma AscendingAt(s: set<int>, i: nat)
    requires i < |Ascending(s)|
    ensures Ascending(s)[i] in s && Ascending(s)[i] !in Ascending(s)[..i]
    ensures Ascending(s)[..i + 1] == Ascending(s)[..i] + [Ascending(s)[i]]
  {
    assert Ascending(s)[i] in Ascending(s);
  }

  lemma AscendingAll(s: set<int>)
    ensures Ascending(s)[..|Ascending(s)|] == Ascending(s)
    ensures forall x :: x in Ascending(s)[..|Ascending(s)|] <==> x in s
  {
  }

  lemma FirstIn(b: seq<int>)
    ensures b != [] ==> b[0] in b
  {
  }

  /** Ascending order leaves no choice. */
  lemma {:induction false} AscendingUnique(a: seq<int>, b: seq<int>)
    requires forall i, j :: 0 <= i < j < |a| ==> a[i] < a[j]
    requires forall i, j :: 0 <= i < j < |b| ==> b[i] < b[j]
    requires forall x :: x in a <==> x in b
    ensures a == b
  {
    if a != [] {
      assert a[0] in a && a[0] in b;
      assert b[0] in b && b[0] in a;
      forall x ensures x in a[1..] <==> x in b[1..] {
        assert x in a <==> x == a[0] || x in a[1..];
        assert x in b <==> x == b[0] || x in b[1..];
      }
      AscendingUnique(a[1..], b[1..]);
    } else {
      FirstIn(b);
    }
  }

  lemma {:induction false} AscendingSize(s: set<int>)
    ensures |Ascending(s)| == |s|
    decreases s
  {
    var ids := Ascending(s);
    if s != {} {
      LeastExists(s);
      var m :| m in s && forall x :: x in s ==> m <= x;
      AscendingSize(s - {m});
    }
  }
}
