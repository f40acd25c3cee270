/** Labels and canonical keys: storage/series.go. */
module Labels {
  import opened Bits

  /** A Go string. */
  type Str = seq<Byte>

  /** A string literal as bytes. */
  function Ascii(s: string): Str
    requires forall i :: 0 <= i < |s| ==> s[i] as int < 128
  {
    seq(|s|, i requires 0 <= i < |s| => s[i] as int)
  }

  datatype Label = Label(name: Str, value: Str)

  const NAME_VALUE_SEP: Byte := 1
  const LABEL_PAIR_SEP: Byte := 2

  // ---------- order ----------

  /** Go's < on strings. */
  predicate StrLess(a: Str, b: Str) {
    b != [] && (a == [] || a[0] < b[0] || (a[0] == b[0] && StrLess(a[1..], b[1..])))
  }

  lemma {:induction false} StrLessTotal(a: Str, b: Str)
    ensures (StrLess(a, b) || a == b || StrLess(b, a)) && !(StrLess(a, b) && StrLess(b, a))
  {
    if a != [] && b != [] && a[0] == b[0] {
      StrLessTotal(a[1..], b[1..]);
      assert a[1..] == b[1..] ==> a == [a[0]] + b[1..] == b;
    }
  }

  lemma {:induction false} StrLessTransitive(a: Str, b: Str, c: Str)
    requires StrLess(a, b) && StrLess(b, c)
    ensures StrLess(a, c)
  {
    if a != [] && a[0] == b[0] == c[0] {
      StrLessTransitive(a[1..], b[1..], c[1..]);
    }
  }

  /** Sorted by (Name, Value). */
  predicate LabelLess(a: Label, b: Label) {
    if a.name != b.name then StrLess(a.name, b.name) else StrLess(a.value, b.value)
  }

  predicate AtMost(a: Label, b: Label) {
    a == b || LabelLess(a, b)
  }

  lemma AtMostTotal(a: Label, b: Label)
    ensures AtMost(a, b) || AtMost(b, a)
    ensures AtMost(a, b) && AtMost(b, a) ==> a == b
  {
    StrLessTotal(a.name, b.name);
    StrLessTotal(a.value, b.value);
  }

  lemma AtMostTransitive(a: Label, b: Label, c: Label)
    requires AtMost(a, b) && AtMost(b, c)
    ensures AtMost(a, c)
  {
    if a != b && b != c {
      StrLessTotal(a.name, b.name);
      StrLessTotal(a.value, b.value);
      if StrLess(a.name, b.name) && StrLess(b.name, c.name) {
        StrLessTransitive(a.name, b.name, c.name);
        StrLessTotal(a.name, c.name);
      } else if a.name == b.name == c.name {
        StrLessTransitive(a.value, b.value, c.value);
      }
    }
  }

  // ---------- sortedLabels ----------

  predicate Sorted(labels: seq<Label>) {
    labels == [] || ((forall l :: l in labels[1..] ==> AtMost(labels[0], l)) && Sorted(labels[1..]))
  }

  function Insert(x: Label, labels: seq<Label>): seq<Label> {
    if labels == [] || AtMost(x, labels[0]) then [x] + labels
    else [labels[0]] + Insert(x, labels[1..])
  }

  /** The order is total, so sorting has one outcome, whatever the algorithm. */
  function SortedLabels(labels: seq<Label>): seq<Label> {
    if labels == [] then [] else Insert(labels[0], SortedLabels(labels[1..]))
  }

  lemma {:induction false} InsertSorts(x: Label, labels: seq<Label>)
    requires Sorted(labels)
    ensures Sorted(Insert(x, labels)) && multiset(Insert(x, labels)) == multiset(labels) + multiset{x}
  {
    if labels == [] || AtMost(x, labels[0]) {
      forall l | l in labels ensures AtMost(x, l) {
        if l != labels[0] {
          assert labels == [labels[0]] + labels[1..];
          AtMostTransitive(x, labels[0], l);
        }
      }
      assert ([x] + labels)[1..] == labels;
    } else {
      var rest := Insert(x, labels[1..]);
      InsertSorts(x, labels[1..]);
      assert labels == [labels[0]] + labels[1..];
      assert ([labels[0]] + rest)[1..] == rest;
      forall l | l in rest ensures AtMost(labels[0], l) {
        assert l in multiset(rest);
        AtMostTotal(x, labels[0]);
      }
    }
  }

  lemma {:induction false} SortedLabelsSorts(labels: seq<Label>)
    ensures Sorted(SortedLabels(labels)) && multiset(SortedLabels(labels)) == multiset(labels)
  {
    if labels != [] {
      hide Sorted, Insert;
      SortedLabelsSorts(labels[1..]);
      InsertSorts(labels[0], SortedLabels(labels[1..]));
      assert labels == [labels[0]] + labels[1..];
    }
  }

  lemma {:induction false} SortedUnique(a: seq<Label>, b: seq<Label>)
    requires Sorted(a) && Sorted(b) && multiset(a) == multiset(b)
    ensures a == b
  {
    if a != [] {
      assert a[0] in multiset(a);
      assert b[0] in multiset(b);
      assert a == [a[0]] + a[1..];
      assert b == [b[0]] + b[1..];
      assert a[0] == b[0] || a[0] in b[1..];
      assert b[0] == a[0] || b[0] in a[1..];
      AtMostTotal(a[0], b[0]);
      assert multiset(a[1..]) == multiset(a) - multiset{a[0]};
      assert multiset(b[1..]) == multiset(b) - multiset{b[0]};
      SortedUnique(a[1..], b[1..]);
    } else {
      assert |multiset(b)| == |b|;
      assert |multiset(a)| == 0;
    }
  }

  /** Sorting forgets exactly the order of the labels. */
  lemma SortedLabelsEqual(a: seq<Label>, b: seq<Label>)
    ensures SortedLabels(a) == SortedLabels(b) <==> multiset(a) == multiset(b)
    ensures SortedLabels(SortedLabels(a)) == SortedLabels(a)
  {
    SortedLabelsSorts(a);
    SortedLabelsSorts(b);
    SortedLabelsSorts(SortedLabels(a));
    SortedUnique(SortedLabels(SortedLabels(a)), SortedLabels(a));
    if multiset(a) == multiset(b) {
      SortedUnique(SortedLabels(a), SortedLabels(b));
    }
  }

  /** Byte order: at the first difference the smaller byte comes first, and a proper prefix comes first. */
  lemma {:induction false} StrLessIsByteOrder(a: Str, b: Str)
    ensures StrLess(a, b) <==> exists k :: IsByteLess(a, b, k)
  {
    if a != [] && b != [] && a[0] == b[0] {
      StrLessIsByteOrder(a[1..], b[1..]);
      if k: nat :| IsByteLess(a[1..], b[1..], k) {
        assert a == [a[0]] + a[1..] && b == [b[0]] + b[1..];
        assert a[..k + 1] == [a[0]] + a[1..][..k] && b[..k + 1] == [b[0]] + b[1..][..k];
        assert IsByteLess(a, b, k + 1);
      }
      forall k | IsByteLess(a, b, k) ensures IsByteLess(a[1..], b[1..], k - 1) {
        assert k > 0;
        assert a[1..][..k - 1] == a[1..k] == a[..k][1..] && b[1..][..k - 1] == b[1..k] == b[..k][1..];
      }
    } else if StrLess(a, b) {
      assert IsByteLess(a, b, 0);
    } else {
      forall k ensures !IsByteLess(a, b, k) {
        if 0 < k <= |a| && k <= |b| {
          FirstAgrees(a, b, k);
        }
      }
    }
  }

  lemma FirstAgrees(a: Str, b: Str, k: nat)
    requires 0 < k <= |a| && k <= |b|
    ensures a[..k] == b[..k] ==> a[0] == b[0]
  {
    assert a[..k][0] == a[0] && b[..k][0] == b[0];
  }

  /** a and b agree up to k, and there a ends or has the smaller byte. */
  predicate IsByteLess(a: Str, b: Str, k: int) {
    0 <= k <= |a| && k < |b| && a[..k] == b[..k] && (k == |a| || a[k] < b[k])
  }

  lemma {:induction false} SortedAt(labels: seq<Label>, i: nat, j: nat)
    requires Sorted(labels) && i < j < |labels|
    ensures AtMost(labels[i], labels[j])
  {
    if i > 0 {
      SortedAt(labels[1..], i - 1, j - 1);
    } else {
      assert labels[j] == labels[1..][j - 1];
    }
  }

  /** Labels are stored by name, and by value under equal names. */
  lemma SortedByName(labels: seq<Label>, i: nat, j: nat)
    requires i < j < |SortedLabels(labels)|
    ensures var a, b := SortedLabels(labels)[i], SortedLabels(labels)[j];
            StrLess(a.name, b.name) || (a.name == b.name && (a.value == b.value || StrLess(a.value, b.value)))
  {
    SortedLabelsSorts(labels);
    SortedAt(SortedLabels(labels), i, j);
  }

  // ---------- keys ----------

  function LabelKey(name: Str, value: Str): Str {
    name + [NAME_VALUE_SEP] + value
  }

  function KeyText(labels: seq<Label>): Str {
    if labels == [] then []
    else labels[0].name + [NAME_VALUE_SEP] + labels[0].value + [LABEL_PAIR_SEP] + KeyText(labels[1..])
  }

  function CanonicalKey(labels: seq<Label>): Str {
    KeyText(SortedLabels(labels))
  }

  /** The names and values for which the separators separate. */
  predicate Clean(l: Label) {
    NAME_VALUE_SEP !in l.name && LABEL_PAIR_SEP !in l.value
  }

  predicate AllClean(labels: seq<Label>) {
    forall l :: l in labels ==> Clean(l)
  }

  /** Where sep first occurs: strings.IndexByte, with |s| for -1. */
  function IndexOf(s: Str, sep: Byte): (i: nat)
    ensures i <= |s|
  {
    if s == [] || s[0] == sep then 0 else 1 + IndexOf(s[1..], sep)
  }

  lemma {:induction false} IndexOfSep(a: Str, sep: Byte, x: Str)
    requires sep !in a
    ensures IndexOf(a + [sep] + x, sep) == |a|
  {
    if a != [] {
      assert (a + [sep] + x)[1..] == a[1..] + [sep] + x;
      IndexOfSep(a[1..], sep, x);
    }
  }

  /** A string before its first separator is determined by the whole. */
  lemma SplitUnique(a: Str, x: Str, b: Str, y: Str, sep: Byte)
    requires sep !in a && sep !in b && a + [sep] + x == b + [sep] + y
    ensures a == b && x == y
  {
    IndexOfSep(a, sep, x);
    IndexOfSep(b, sep, y);
    var s, t := a + [sep] + x, b + [sep] + y;
    assert a == s[..|a|] && b == t[..|b|];
    assert x == s[|a| + 1..] && y == t[|b| + 1..];
  }

  lemma LabelKeyInjective(name: Str, value: Str, name': Str, value': Str)
    requires NAME_VALUE_SEP !in name && NAME_VALUE_SEP !in name'
    ensures LabelKey(name, value) == LabelKey(name', value') <==> name == name' && value == value'
  {
    if LabelKey(name, value) == LabelKey(name', value') {
      SplitUnique(name, value, name', value', NAME_VALUE_SEP);
    }
  }

  lemma {:induction false} KeyTextInjective(a: seq<Label>, b: seq<Label>)
    requires AllClean(a) && AllClean(b) && KeyText(a) == KeyText(b)
    ensures a == b
  {
    if a != [] && b != [] {
      var ra, rb := a[0].value + [LABEL_PAIR_SEP] + KeyText(a[1..]), b[0].value + [LABEL_PAIR_SEP] + KeyText(b[1..]);
      assert KeyText(a) == a[0].name + [NAME_VALUE_SEP] + ra;
      assert KeyText(b) == b[0].name + [NAME_VALUE_SEP] + rb;
      assert a[0] in a && b[0] in b;
      SplitUnique(a[0].name, ra, b[0].name, rb, NAME_VALUE_SEP);
      SplitUnique(a[0].value, KeyText(a[1..]), b[0].value, KeyText(b[1..]), LABEL_PAIR_SEP);
      KeyTextInjective(a[1..], b[1..]);
      assert a == [a[0]] + a[1..] && b == [b[0]] + b[1..];
    }
  }

  /** Two label lists have the same key iff they are permutations of each other. */
  lemma KeyIsIdentity(a: seq<Label>, b: seq<Label>)
    requires AllClean(a) && AllClean(b)
    ensures CanonicalKey(a) == CanonicalKey(b) <==> multiset(a) == multiset(b)
  {
    SortedLabelsSorts(a);
    SortedLabelsSorts(b);
    SortedLabelsEqual(a, b);
    if CanonicalKey(a) == CanonicalKey(b) {
      assert AllClean(SortedLabels(a)) by {
        assert forall l :: l in SortedLabels(a) ==> l in multiset(SortedLabels(a));
      }
      assert AllClean(SortedLabels(b)) by {
        assert forall l :: l in SortedLabels(b) ==> l in multiset(SortedLabels(b));
      }
      KeyTextInjective(SortedLabels(a), SortedLabels(b));
    }
  }

  lemma KeyOfOne(l: Label)
    ensures SortedLabels([l]) == [l] && CanonicalKey([l]) == l.name + [NAME_VALUE_SEP] + l.value + [LABEL_PAIR_SEP]
  {
    assert KeyText([l]) == l.name + [NAME_VALUE_SEP] + l.value + [LABEL_PAIR_SEP];
  }

  /** What the key of one label looks like. */
  lemma KnownKeys()
    ensures LabelKey(Ascii("job"), Ascii("api")) == Ascii("job") + [0x01] + Ascii("api")
    ensures CanonicalKey([Label(Ascii("job"), Ascii("api"))]) == Ascii("job") + [0x01] + Ascii("api") + [0x02]
  {
    KeyOfOne(Label(Ascii("job"), Ascii("api")));
  }

  /** Every one-label list whose name holds the separator shares its key with another list. */
  lemma NameSeparatorCollides(n: Str, m: Str, v: Str)
    ensures var a := [Label(n + [NAME_VALUE_SEP] + m, v)];
            var b := [Label(n, m + [NAME_VALUE_SEP] + v)];
            multiset(a) != multiset(b) && CanonicalKey(a) == CanonicalKey(b)
  {
    var a, b := Label(n + [NAME_VALUE_SEP] + m, v), Label(n, m + [NAME_VALUE_SEP] + v);
    assert SortedLabels([a]) == [a] && SortedLabels([b]) == [b];
    assert KeyText([a]) == n + [NAME_VALUE_SEP] + m + [NAME_VALUE_SEP] + v + [LABEL_PAIR_SEP];
    assert KeyText([b]) == n + [NAME_VALUE_SEP] + m + [NAME_VALUE_SEP] + v + [LABEL_PAIR_SEP];
    assert |a.name| != |b.name|;
    assert a in multiset([a]) && a !in multiset([b]);
  }

  /** So does every one-label list whose value goes on, after a 0x02, with the text of a further label in
      sorted order: its partner has two labels. */
  lemma ValueSeparatorCollides(n: Str, v: Str, m: Str, w: Str)
    requires AtMost(Label(n, v), Label(m, w))
    ensures var a := [Label(n, v + [LABEL_PAIR_SEP] + m + [NAME_VALUE_SEP] + w)];
            var b := [Label(n, v), Label(m, w)];
            multiset(a) != multiset(b) && CanonicalKey(a) == CanonicalKey(b)
  {
    var a := Label(n, v + [LABEL_PAIR_SEP] + m + [NAME_VALUE_SEP] + w);
    KeyOfOne(a);
    KeyOfTwo(Label(n, v), Label(m, w));
    hide CanonicalKey;
    assert |multiset([a])| == 1 && |multiset([Label(n, v), Label(m, w)])| == 2;
  }

  lemma KeyOfTwo(a: Label, b: Label)
    requires AtMost(a, b)
    ensures CanonicalKey([a, b]) ==
            a.name + [NAME_VALUE_SEP] + (a.value + [LABEL_PAIR_SEP] + b.name + [NAME_VALUE_SEP] + b.value) + [LABEL_PAIR_SEP]
  {
    KeyOfOne(b);
    assert [a, b][1..] == [b];
    assert SortedLabels([a, b]) == [a, b] by {
      assert Insert(a, [b]) == [a, b];
    }
    assert KeyText([a, b]) == a.name + [NAME_VALUE_SEP] + a.value + [LABEL_PAIR_SEP] + KeyText([b]);
  }

  // ---------- which lists share their key ----------

  /** Some list that is not a permutation has the same key. */
  ghost predicate SharesKey(labels: seq<Label>) {
    exists b: seq<Label> :: multiset(b) != multiset(labels) && CanonicalKey(b) == CanonicalKey(labels)
  }

  lemma Witness(labels: seq<Label>, b: seq<Label>)
    requires multiset(b) != multiset(labels) && CanonicalKey(b) == CanonicalKey(labels)
    ensures SharesKey(labels)
  {
  }

  lemma {:induction false} KeyTextEnds(labels: seq<Label>) returns (init: Str)
    requires labels != []
    ensures KeyText(labels) == init + [LABEL_PAIR_SEP]
    decreases |labels|
  {
    var first := labels[0].name + [NAME_VALUE_SEP] + labels[0].value;
    if |labels| == 1 {
      init := first;
    } else {
      var rest := KeyTextEnds(labels[1..]);
      init := first + [LABEL_PAIR_SEP] + rest;
    }
  }

  lemma SortedSize(labels: seq<Label>)
    ensures |SortedLabels(labels)| == |labels|
  {
    SortedLabelsSorts(labels);
    assert |multiset(SortedLabels(labels))| == |multiset(labels)|;
  }

  lemma Regroup(a: Str, b: Str, c: Str, d: Str)
    ensures a + b + (c + d) == a + (b + c) + d && a + b + c + d == a + (b + c + d) == a + b + (c + d)
  {
  }

  /** Two or more labels have the key of one: the text of all but the first goes into its value. */
  lemma ManyShareKey(labels: seq<Label>)
    requires |labels| >= 2
    ensures SharesKey(labels)
  {
    hide Sorted, SortedLabels, SharesKey;
    SortedSize(labels);
    var s := SortedLabels(labels);
    var rest := KeyTextEnds(s[1..]);
    var one := Label(s[0].name, s[0].value + [LABEL_PAIR_SEP] + rest);
    KeyOfOne(one);
    var first := s[0].name + [NAME_VALUE_SEP];
    assert KeyText(s) == first + s[0].value + [LABEL_PAIR_SEP] + (rest + [LABEL_PAIR_SEP]);
    hide KeyText;
    Regroup(first, s[0].value + [LABEL_PAIR_SEP], rest, [LABEL_PAIR_SEP]);
    assert first + s[0].value + [LABEL_PAIR_SEP] == first + (s[0].value + [LABEL_PAIR_SEP]);
    assert |multiset([one])| == 1 && |multiset(labels)| == |labels|;
    Witness(labels, [one]);
  }

  lemma OneSharesKey(l: Label)
    requires NAME_VALUE_SEP in l.name || NAME_VALUE_SEP in l.value
    ensures SharesKey([l])
  {
    hide CanonicalKey, SharesKey;
    if NAME_VALUE_SEP in l.name {
      var n, m := CutAt(l.name);
      NameSeparatorCollides(n, m, l.value);
      Witness([l], [Label(n, m + [NAME_VALUE_SEP] + l.value)]);
    } else {
      var m, w := CutAt(l.value);
      NameSeparatorCollides(l.name, m, w);
      Witness([l], [Label(l.name + [NAME_VALUE_SEP] + m, w)]);
    }
  }

  lemma CutAt(s: Str) returns (a: Str, b: Str)
    requires NAME_VALUE_SEP in s
    ensures s == a + [NAME_VALUE_SEP] + b
  {
    var i :| 0 <= i < |s| && s[i] == NAME_VALUE_SEP;
    a, b := s[..i], s[i + 1..];
  }

  /** How many 0x01 there are. */
  function Separators(s: Str): nat {
    multiset(s)[NAME_VALUE_SEP]
  }

  lemma SeparatorsIn(s: Str)
    ensures Separators(s) == 0 <==> NAME_VALUE_SEP !in s
  {
    assert NAME_VALUE_SEP in s <==> NAME_VALUE_SEP in multiset(s);
  }

  lemma {:induction false} SeparatorsCount(labels: seq<Label>)
    ensures Separators(KeyText(labels)) >= |labels|
    ensures |labels| == 1 ==> Separators(KeyText(labels)) == Separators(labels[0].name) + 1 + Separators(labels[0].value)
    decreases |labels|
  {
    if labels != [] {
      SeparatorsCount(labels[1..]);
    }
  }

  /** A label without 0x01 is the only one with its key. */
  lemma OneAlone(l: Label, b: seq<Label>)
    requires NAME_VALUE_SEP !in l.name && NAME_VALUE_SEP !in l.value && CanonicalKey(b) == CanonicalKey([l])
    ensures multiset(b) == multiset([l])
  {
    KeyOfOne(l);
    SortedSize(b);
    SortedLabelsSorts(b);
    var s := SortedLabels(b);
    SeparatorsCount([l]);
    SeparatorsCount(s);
    SeparatorsIn(l.name);
    SeparatorsIn(l.value);
    hide Sorted, SortedLabels;
    assert KeyText(s) == CanonicalKey([l]) && s != [];
    assert s == [s[0]];
    KeyOfOne(s[0]);
    SeparatorsIn(s[0].name);
    hide Separators, KeyText, CanonicalKey;
    SameOne(l, s[0]);
  }

  lemma SameOne(l: Label, c: Label)
    requires NAME_VALUE_SEP !in l.name && NAME_VALUE_SEP !in c.name
    requires l.name + [NAME_VALUE_SEP] + l.value + [LABEL_PAIR_SEP] == c.name + [NAME_VALUE_SEP] + c.value + [LABEL_PAIR_SEP]
    ensures l == c
  {
    Regroup(l.name, [NAME_VALUE_SEP], l.value, [LABEL_PAIR_SEP]);
    Regroup(c.name, [NAME_VALUE_SEP], c.value, [LABEL_PAIR_SEP]);
    SplitUnique(l.name, l.value + [LABEL_PAIR_SEP], c.name, c.value + [LABEL_PAIR_SEP], NAME_VALUE_SEP);
    assert l.value == (l.value + [LABEL_PAIR_SEP])[..|l.value|] && c.value == (c.value + [LABEL_PAIR_SEP])[..|c.value|];
  }

  lemma NoneAlone(b: seq<Label>)
    requires CanonicalKey(b) == CanonicalKey([])
    ensures b == []
  {
    SortedSize(b);
    if SortedLabels(b) != [] {
      var init := KeyTextEnds(SortedLabels(b));
    }
  }

  /** Only the empty list and a single label without a 0x01 have a key no other list has, however clean a
      list is: KeyIsIdentity needs both lists to keep the separators out. */
  lemma SharesKeyIff(labels: seq<Label>)
    ensures SharesKey(labels) <==>
            |labels| >= 2 || (|labels| == 1 && (NAME_VALUE_SEP in labels[0].name || NAME_VALUE_SEP in labels[0].value))
  {
    if |labels| >= 2 {
      ManyShareKey(labels);
    } else if |labels| == 1 {
      assert labels == [labels[0]];
      if NAME_VALUE_SEP in labels[0].name || NAME_VALUE_SEP in labels[0].value {
        OneSharesKey(labels[0]);
      } else {
        forall b | CanonicalKey(b) == CanonicalKey(labels) ensures multiset(b) == multiset(labels) {
          OneAlone(labels[0], b);
        }
      }
    } else {
      forall b | CanonicalKey(b) == CanonicalKey(labels) ensures multiset(b) == multiset(labels) {
        NoneAlone(b);
      }
    }
  }
}
