/** Selectors: ParseSelector and splitLabelPairs of storage/query.go, and formatLabels of
    cmd/mmctl/main.go, the printer on the other side. */
module Selector {
  import opened Bits
  import opened Labels
  import S = Series

  const TAB: Byte := 9
  const NEWLINE: Byte := 10
  const SPACE: Byte := 32
  const QUOTE: Byte := 34
  const COMMA: Byte := 44
  const COLON: Byte := 58
  const EQUALS: Byte := 61
  const BACKSLASH: Byte := 92
  const UNDERSCORE: Byte := 95
  const OPEN: Byte := 123
  const CLOSE: Byte := 125

  /** __name__ */
  const METRIC_NAME: Str := [95, 95, 110, 97, 109, 101, 95, 95]

  // ---------- splitLabelPairs ----------

  /** inQuote and escaped, of which the second implies the first. */
  datatype Quoting = Outside | Inside | Escaped

  function NextQuoting(q: Quoting, c: Byte): Quoting {
    match q
    case Escaped => Inside
    case Inside => if c == BACKSLASH then Escaped else if c == QUOTE then Outside else Inside
    case Outside => if c == QUOTE then Inside else Outside
  }

  function Scan(q: Quoting, s: Str): Quoting {
    if s == [] then q else NextQuoting(Scan(q, s[..|s| - 1]), s[|s| - 1])
  }

  /** Every comma of s is inside quotes. */
  predicate NoBareComma(s: Str) {
    forall i :: 0 <= i < |s| && s[i] == COMMA ==> Scan(Outside, s[..i]) != Outside
  }

  function CommaJoined(parts: seq<Str>): Str
    requires parts != []
  {
    if |parts| == 1 then parts[0] else CommaJoined(parts[..|parts| - 1]) + [COMMA] + parts[|parts| - 1]
  }

  /** The parts joined by commas give s, and those commas are the ones outside quotes. */
  ghost predicate IsSplit(parts: seq<Str>, s: Str) {
    && parts != [] && CommaJoined(parts) == s
    && (forall i :: 0 <= i < |parts| ==> NoBareComma(parts[i]))
    && (forall i :: 0 <= i < |parts| - 1 ==> Scan(Outside, parts[i]) == Outside)
  }

  function Split(s: Str): (parts: seq<Str>)
    ensures parts != []
  {
    if s == [] then [[]]
    else
      var p, c := Split(s[..|s| - 1]), s[|s| - 1];
      var n := |p| - 1;
      if c == COMMA && Scan(Outside, p[n]) == Outside then p + [[]] else p[..n] + [p[n] + [c]]
  }

  lemma CommaFreeStep(s: Str, c: Byte)
    requires NoBareComma(s) && (c == COMMA ==> Scan(Outside, s) != Outside)
    ensures NoBareComma(s + [c])
  {
    var t := s + [c];
    forall i | 0 <= i < |t| && t[i] == COMMA ensures Scan(Outside, t[..i]) != Outside {
      assert t[..i] == s[..i];
      assert s[..|s|] == s;
    }
  }

  lemma SplitNew(p: seq<Str>, s: Str)
    requires IsSplit(p, s) && Scan(Outside, p[|p| - 1]) == Outside
    ensures IsSplit(p + [[]], s + [COMMA])
  {
    hide NoBareComma, Scan;
    NothingToSplit();
    assert (p + [[]])[..|p|] == p;
    assert CommaJoined(p + [[]]) == s + [COMMA] + [];
  }

  lemma SplitExtend(p: seq<Str>, s: Str, c: Byte)
    requires IsSplit(p, s) && (c == COMMA ==> Scan(Outside, p[|p| - 1]) != Outside)
    ensures IsSplit(p[..|p| - 1] + [p[|p| - 1] + [c]], s + [c])
  {
    var n := |p| - 1;
    CommaFreeStep(p[n], c);
    hide NoBareComma, Scan, CommaJoined;
    var p' := p[..n] + [p[n] + [c]];
    JoinedLast(p);
    JoinedLast(p');
    assert p'[..n] == p[..n];
    assert CommaJoined(p') == s + [c];
  }

  lemma {:induction false} SplitIsSplit(s: Str)
    ensures IsSplit(Split(s), s)
  {
    if s != [] {
      var init, c := s[..|s| - 1], s[|s| - 1];
      SplitIsSplit(init);
      var p := Split(init);
      assert s == init + [c];
      hide IsSplit, Scan;
      if c == COMMA && Scan(Outside, p[|p| - 1]) == Outside {
        SplitNew(p, init);
      } else {
        SplitExtend(p, init, c);
      }
    } else {
      NothingToSplit();
    }
  }

  lemma NothingToSplit()
    ensures NoBareComma([])
  {
  }

  lemma {:induction false} JoinedLast(parts: seq<Str>)
    requires parts != []
    ensures |parts| == 1 ==> CommaJoined(parts) == parts[0]
    ensures |parts| > 1 ==> CommaJoined(parts) == CommaJoined(parts[..|parts| - 1]) + [COMMA] + parts[|parts| - 1]
  {
  }

  lemma ScanStep(q: Quoting, s: Str, c: Byte)
    ensures Scan(q, s + [c]) == NextQuoting(Scan(q, s), c)
  {
    assert (s + [c])[..|s|] == s;
  }

  lemma CommaFreeInit(s: Str)
    requires s != [] && NoBareComma(s)
    ensures NoBareComma(s[..|s| - 1])
    ensures s[|s| - 1] == COMMA ==> Scan(Outside, s[..|s| - 1]) != Outside
  {
    var init := s[..|s| - 1];
    forall i | 0 <= i < |init| && init[i] == COMMA ensures Scan(Outside, init[..i]) != Outside {
      assert init[..i] == s[..i];
    }
  }

  lemma SplitShrink(parts: seq<Str>, s: Str)
    requires IsSplit(parts, s) && parts[|parts| - 1] != []
    ensures var n, last := |parts| - 1, parts[|parts| - 1];
            var m, c := |last| - 1, last[|last| - 1];
            && s == s[..|s| - 1] + [c] && |s| > 0 && IsSplit(parts[..n] + [last[..m]], s[..|s| - 1])
            && (c == COMMA ==> Scan(Outside, last[..m]) != Outside)
  {
    var n, last := |parts| - 1, parts[|parts| - 1];
    var init := parts[..n] + [last[..|last| - 1]];
    CommaFreeInit(last);
    hide NoBareComma, Scan, CommaJoined;
    JoinedLast(parts);
    JoinedLast(init);
    assert init[..n] == parts[..n];
    assert s == CommaJoined(init) + [last[|last| - 1]];
  }

  lemma SplitDrop(parts: seq<Str>, s: Str)
    requires IsSplit(parts, s) && |parts| > 1 && parts[|parts| - 1] == []
    ensures |s| > 0 && s[|s| - 1] == COMMA && IsSplit(parts[..|parts| - 1], s[..|s| - 1])
    ensures Scan(Outside, parts[|parts| - 2]) == Outside
  {
    hide NoBareComma, Scan, CommaJoined;
    JoinedLast(parts);
    assert s == CommaJoined(parts[..|parts| - 1]) + [COMMA];
  }

  lemma SplitLast(s: Str)
    requires s != []
    ensures Split(s) == var p, c := Split(s[..|s| - 1]), s[|s| - 1];
                        var n := |p| - 1;
                        if c == COMMA && Scan(Outside, p[n]) == Outside then p + [[]] else p[..n] + [p[n] + [c]]
  {
  }

  lemma LastGrown(parts: seq<Str>)
    requires parts != [] && parts[|parts| - 1] != []
    ensures var n, last := |parts| - 1, parts[|parts| - 1];
            var init := parts[..n] + [last[..|last| - 1]];
            parts == init[..n] + [init[n] + [last[|last| - 1]]]
  {
    var n, last := |parts| - 1, parts[|parts| - 1];
    var init := parts[..n] + [last[..|last| - 1]];
    assert init[..n] == parts[..n];
    assert init[n] + [last[|last| - 1]] == last;
  }

  /** Splitting leaves no choice: Split is the only way to cut s at exactly its bare commas. */
  lemma {:induction false} SplitIsOnly(parts: seq<Str>, s: Str)
    requires IsSplit(parts, s)
    ensures parts == Split(s)
    decreases |s|
  {
    var n := |parts| - 1;
    var last := parts[n];
    if last != [] {
      SplitShrink(parts, s);
      var init := parts[..n] + [last[..|last| - 1]];
      hide IsSplit, Scan, Split;
      SplitLast(s);
      SplitIsOnly(init, s[..|s| - 1]);
      LastGrown(parts);
    } else if n > 0 {
      SplitDrop(parts, s);
      hide IsSplit, Scan, Split;
      SplitLast(s);
      SplitIsOnly(parts[..n], s[..|s| - 1]);
      assert parts == parts[..n] + [[]];
    } else {
      assert s == [] && parts == [[]];
    }
  }

  method SplitLabelPairs(s: Str) returns (parts: seq<Str>)
    ensures parts == Split(s) && IsSplit(parts, s)
  {
    parts := [];
    var start, i := 0, 0;
    var inQuote, escaped := false, false;
    assert s[..0] == [];
    while i < |s|
      invariant 0 <= start <= i <= |s|
      invariant parts + [s[start..i]] == Split(s[..i])
      invariant (if escaped then Escaped else if inQuote then Inside else Outside) == Scan(Outside, s[start..i])
      invariant escaped ==> inQuote
    {
      var c := s[i];
      assert s[..i + 1][..i] == s[..i];
      ScanStep(Outside, s[start..i], c);
      assert s[start..i + 1] == s[start..i] + [c];
      hide Split, Scan;
      SplitStep(s, i, parts, s[start..i]);
      if escaped {
        escaped := false;
      } else if inQuote && c == BACKSLASH {
        escaped := true;
      } else if c == QUOTE {
        inQuote := !inQuote;
      } else if c == COMMA && !inQuote {
        parts := parts + [s[start..i]];
        start := i + 1;
        ScanNothing();
        assert s[start..i + 1] == [];
      }
      i := i + 1;
    }
    assert s[..i] == s;
    parts := parts + [s[start..]];
    SplitIsSplit(s);
  }

  lemma ScanNothing()
    ensures Scan(Outside, []) == Outside
  {
  }

  lemma SplitStep(s: Str, i: nat, parts: seq<Str>, last: Str)
    requires i < |s| && parts + [last] == Split(s[..i])
    ensures Split(s[..i + 1]) ==
            if s[i] == COMMA && Scan(Outside, last) == Outside then parts + [last] + [[]] else parts + [last + [s[i]]]
  {
    hide Scan;
    assert s[..i + 1][..i] == s[..i];
    assert (parts + [last])[..|parts|] == parts;
  }

  // ---------- quoting ----------

  datatype Option<T> = None | Some(value: T)

  function HexDigit(n: nat): Byte
    requires n < 16
  {
    if n < 10 then 48 + n else 87 + n
  }

  function HexValue(c: Byte): Option<nat> {
    if 48 <= c <= 57 then Some(c - 48)
    else if 97 <= c <= 102 then Some(c - 87)
    else if 65 <= c <= 70 then Some(c - 55)
    else None
  }

  /** The letter that stands for a control character after a backslash. */
  function EscapeLetter(b: Byte): Option<Byte> {
    match b
    case 7 => Some(97)
    case 8 => Some(98)
    case 9 => Some(116)
    case 10 => Some(110)
    case 11 => Some(118)
    case 12 => Some(102)
    case 13 => Some(114)
    case 34 => Some(34)
    case 92 => Some(92)
    case _ => None
  }

  function Unescape(letter: Byte): Option<Byte> {
    match letter
    case 97 => Some(7)
    case 98 => Some(8)
    case 116 => Some(9)
    case 110 => Some(10)
    case 118 => Some(11)
    case 102 => Some(12)
    case 114 => Some(13)
    case 34 => Some(34)
    case 92 => Some(92)
    case _ => None
  }

  function QuotedByte(b: Byte): Str {
    if EscapeLetter(b).Some? then [BACKSLASH, EscapeLetter(b).value]
    else if b < 32 || b == 127 then [BACKSLASH, 120, HexDigit(b / 16), HexDigit(b % 16)]
    else [b]
  }

  function QuotedBytes(s: Str): Str {
    if s == [] then [] else QuotedByte(s[0]) + QuotedBytes(s[1..])
  }

  /** strconv.Quote. */
  function Quote(s: Str): Str {
    [QUOTE] + QuotedBytes(s) + [QUOTE]
  }

  function UnquotedBytes(s: Str): Option<Str> {
    if s == [] then Some([])
    else if s[0] == QUOTE || s[0] == NEWLINE then None
    else if s[0] != BACKSLASH then Prepended(s[0], UnquotedBytes(s[1..]))
    else if |s| >= 2 && Unescape(s[1]).Some? then Prepended(Unescape(s[1]).value, UnquotedBytes(s[2..]))
    else if |s| >= 4 && s[1] == 120 && HexValue(s[2]).Some? && HexValue(s[3]).Some? then
      Prepended(16 * HexValue(s[2]).value + HexValue(s[3]).value, UnquotedBytes(s[4..]))
    else None
  }

  function Prepended(b: Byte, s: Option<Str>): Option<Str> {
    if s.Some? then Some([b] + s.value) else None
  }

  /** strconv.Unquote on double-quoted literals. */
  function Unquote(s: Str): Option<Str> {
    if |s| < 2 || s[0] != QUOTE || s[|s| - 1] != QUOTE then None else UnquotedBytes(s[1..|s| - 1])
  }

  lemma UnquoteByte(b: Byte, t: Str)
    ensures UnquotedBytes(QuotedByte(b) + t) == Prepended(b, UnquotedBytes(t))
  {
    var q := QuotedByte(b);
    assert (q + t)[|q|..] == t;
  }

  lemma {:induction false} UnquoteBytes(s: Str)
    ensures UnquotedBytes(QuotedBytes(s)) == Some(s)
  {
    hide QuotedByte, UnquotedBytes;
    if s != [] {
      UnquoteBytes(s[1..]);
      UnquoteByte(s[0], QuotedBytes(s[1..]));
      assert [s[0]] + s[1..] == s;
    } else {
      UnquoteNothing();
    }
  }

  lemma UnquoteNothing()
    ensures UnquotedBytes([]) == Some([])
  {
  }

  /** Any value whatever comes back from its quoted form. */
  lemma QuoteRoundTrip(s: Str)
    ensures Unquote(Quote(s)) == Some(s)
  {
    UnquoteBytes(s);
    assert Quote(s)[1..|Quote(s)| - 1] == QuotedBytes(s);
  }

  /** Scanning s from q ends in r without being outside quotes on the way. */
  predicate StaysQuoted(q: Quoting, s: Str, r: Quoting)
    decreases |s|
  {
    if s == [] then q == r else q != Outside && StaysQuoted(NextQuoting(q, s[0]), s[1..], r)
  }

  lemma {:induction false} StaysQuotedAppend(q: Quoting, s: Str, r: Quoting, t: Str, u: Quoting)
    requires StaysQuoted(q, s, r) && StaysQuoted(r, t, u)
    ensures StaysQuoted(q, s + t, u)
    decreases |s|
  {
    if s == [] {
      assert s + t == t;
    } else {
      StaysQuotedAppend(NextQuoting(q, s[0]), s[1..], r, t, u);
      assert (s + t)[1..] == s[1..] + t;
    }
  }

  lemma {:induction false} QuotedBytesInside(s: Str)
    ensures StaysQuoted(Inside, QuotedBytes(s), Inside)
  {
    if s != [] {
      QuotedBytesInside(s[1..]);
      QuotedByteInside(s[0]);
      hide StaysQuoted, QuotedByte;
      StaysQuotedAppend(Inside, QuotedByte(s[0]), Inside, QuotedBytes(s[1..]), Inside);
    }
  }

  lemma QuotedByteInside(b: Byte)
    ensures StaysQuoted(Inside, QuotedByte(b), Inside)
  {
    var q := QuotedByte(b);
    if EscapeLetter(b).Some? {
      EscapedInside(q[1]);
    } else if b < 32 || b == 127 {
      EscapedInside(120);
      PlainInside(q[2]);
      PlainInside(q[3]);
      hide StaysQuoted;
      StaysQuotedAppend(Inside, [BACKSLASH, 120], Inside, [q[2]], Inside);
      StaysQuotedAppend(Inside, [BACKSLASH, 120] + [q[2]], Inside, [q[3]], Inside);
      assert q == [BACKSLASH, 120] + [q[2]] + [q[3]];
    } else {
      PlainInside(b);
    }
  }

  lemma EscapedInside(c: Byte)
    ensures StaysQuoted(Inside, [BACKSLASH, c], Inside)
  {
    assert [BACKSLASH, c][1..] == [c];
    assert [c][1..] == [];
    assert StaysQuoted(Escaped, [c], Inside);
  }

  lemma PlainInside(c: Byte)
    requires c != BACKSLASH && c != QUOTE
    ensures StaysQuoted(Inside, [c], Inside)
  {
    assert [c][1..] == [];
  }

  /** Text scanned while quoted adds no bare comma. */
  lemma {:induction false} QuotedCommaFree(p: Str, s: Str, r: Quoting)
    requires NoBareComma(p) && StaysQuoted(Scan(Outside, p), s, r)
    ensures NoBareComma(p + s) && Scan(Outside, p + s) == r
    decreases |s|
  {
    if s == [] {
      assert p + s == p;
    } else {
      ScanStep(Outside, p, s[0]);
      CommaFreeStep(p, s[0]);
      hide NoBareComma, Scan;
      QuotedCommaFree(p + [s[0]], s[1..], r);
      assert p + [s[0]] + s[1..] == p + s;
    }
  }

  // ---------- parsing ----------

  datatype Reason = EmptySelector | BadMetricName | BadSelector | BadMatcher | BadLabelName | BadValue | NoMatchers

  datatype Selection = Selected(matchers: seq<S.Matcher>) | Rejected(why: Reason)

  predicate IsSpace(c: Byte) {
    TAB <= c <= 13 || c == SPACE
  }

  function TrimLeft(s: Str): Str {
    if s != [] && IsSpace(s[0]) then TrimLeft(s[1..]) else s
  }

  function TrimRight(s: Str): Str {
    if s != [] && IsSpace(s[|s| - 1]) then TrimRight(s[..|s| - 1]) else s
  }

  function TrimSpace(s: Str): Str {
    TrimRight(TrimLeft(s))
  }

  predicate IsNameStart(c: Byte) {
    97 <= c <= 122 || 65 <= c <= 90 || c == UNDERSCORE || c == COLON
  }

  /** metricNameRE. */
  predicate IsName(s: Str) {
    s != [] && IsNameStart(s[0]) && forall i :: 0 <= i < |s| ==> IsNameStart(s[i]) || 48 <= s[i] <= 57
  }

  /** One label pair; an empty one gives nothing. */
  function ParsePair(text: Str): Selection {
    var part := TrimSpace(text);
    if part == [] then Selected([])
    else
      var eq := IndexOf(part, EQUALS);
      if eq == 0 || eq == |part| then Rejected(BadMatcher)
      else
        var name := TrimSpace(part[..eq]);
        if !IsName(name) then Rejected(BadLabelName)
        else
          var value := Unquote(TrimSpace(part[eq + 1..]));
          if value.None? then Rejected(BadValue) else Selected([S.Matcher(name, value.value)])
  }

  /** The pairs in order, up to the first that is rejected. */
  function ParsePairs(parts: seq<Str>): Selection {
    if parts == [] then Selected([])
    else
      var before := ParsePairs(parts[..|parts| - 1]);
      if before.Rejected? then before
      else
        var last := ParsePair(parts[|parts| - 1]);
        if last.Rejected? then last else Selected(before.matchers + last.matchers)
  }

  function Parse(text: Str): Selection {
    var q := TrimSpace(text);
    if q == [] then Rejected(EmptySelector)
    else
      var i := IndexOf(q, OPEN);
      if i == |q| then
        if IsName(q) then Selected([S.Matcher(METRIC_NAME, q)]) else Rejected(BadMetricName)
      else
        var name, rest := TrimSpace(q[..i]), q[i..];
        if name != [] && !IsName(name) then Rejected(BadMetricName)
        else if |rest| < 2 || rest[|rest| - 1] != CLOSE then Rejected(BadSelector)
        else
          var pairs := ParsePairs(Split(rest[1..|rest| - 1]));
          if pairs.Rejected? then pairs
          else
            var all := (if name == [] then [] else [S.Matcher(METRIC_NAME, name)]) + pairs.matchers;
            if all == [] then Rejected(NoMatchers) else Selected(all)
  }

  method ParseSelector(text: Str) returns (r: Selection)
    ensures r == Parse(text)
  {
    hide TrimSpace, IndexOf, IsName, Split, Unquote, ParsePairs;
    var q := TrimSpace(text);
    if q == [] {
      return Rejected(EmptySelector);
    }
    var matchers: seq<S.Matcher> := [];
    var i := IndexOf(q, OPEN);
    if i == |q| {
      return if IsName(q) then Selected([S.Matcher(METRIC_NAME, q)]) else Rejected(BadMetricName);
    }
    var name := TrimSpace(q[..i]);
    if name != [] {
      if !IsName(name) {
        return Rejected(BadMetricName);
      }
      matchers := [S.Matcher(METRIC_NAME, name)];
    }
    var rest := q[i..];
    IndexFinds(q, OPEN);
    if |rest| < 2 || rest[0] != OPEN || rest[|rest| - 1] != CLOSE {
      return Rejected(BadSelector);
    }
    var parts := SplitLabelPairs(rest[1..|rest| - 1]);
    ghost var first := matchers;
    var k := 0;
    NoPairs(parts);
    while k < |parts|
      invariant 0 <= k <= |parts|
      invariant ParsePairs(parts[..k]).Selected? && matchers == first + ParsePairs(parts[..k]).matchers
    {
      PairsStep(parts, k);
      var part := TrimSpace(parts[k]);
      if part != [] {
        var eq := IndexOf(part, EQUALS);
        if eq == 0 || eq == |part| {
          PairsStop(parts, k + 1);
          return Rejected(BadMatcher);
        }
        var name := TrimSpace(part[..eq]);
        if !IsName(name) {
          PairsStop(parts, k + 1);
          return Rejected(BadLabelName);
        }
        var value := Unquote(TrimSpace(part[eq + 1..]));
        if value.None? {
          PairsStop(parts, k + 1);
          return Rejected(BadValue);
        }
        matchers := matchers + [S.Matcher(name, value.value)];
      }
      k := k + 1;
    }
    assert parts[..k] == parts;
    r := if matchers == [] then Rejected(NoMatchers) else Selected(matchers);
  }

  lemma NoPairs(parts: seq<Str>)
    ensures ParsePairs(parts[..0]) == Selected([])
  {
  }

  lemma PairsStep(parts: seq<Str>, k: nat)
    requires k < |parts|
    ensures ParsePairs(parts[..k + 1]) ==
            var before := ParsePairs(parts[..k]);
            if before.Rejected? then before
            else
              var last := ParsePair(parts[k]);
              if last.Rejected? then last else Selected(before.matchers + last.matchers)
  {
    hide ParsePair;
    assert parts[..k + 1][..k] == parts[..k];
  }

  /** The first pair rejected decides. */
  lemma {:induction false} PairsStop(parts: seq<Str>, k: nat)
    requires k <= |parts| && ParsePairs(parts[..k]).Rejected?
    ensures ParsePairs(parts) == ParsePairs(parts[..k])
    decreases |parts| - k
  {
    if k < |parts| {
      PairsStep(parts, k);
      PairsStop(parts, k + 1);
    } else {
      assert parts[..k] == parts;
    }
  }

  lemma {:induction false} IndexFinds(s: Str, c: Byte)
    ensures IndexOf(s, c) < |s| ==> s[IndexOf(s, c)] == c
    ensures IndexOf(s, c) == |s| <==> c !in s
  {
    if s != [] && s[0] != c {
      IndexFinds(s[1..], c);
      assert c in s <==> c in s[1..];
    }
  }

  // ---------- printing ----------

  function PairText(l: Label): Str {
    l.name + [EQUALS] + Quote(l.value)
  }

  /** The last metric name, empty if there is none. */
  function NameOf(labels: seq<Label>): Str {
    if labels == [] then []
    else if labels[|labels| - 1].name == METRIC_NAME then labels[|labels| - 1].value
    else NameOf(labels[..|labels| - 1])
  }

  /** The other labels, in order. */
  function Others(labels: seq<Label>): seq<Label> {
    if labels == [] then []
    else
      var before, l := Others(labels[..|labels| - 1]), labels[|labels| - 1];
      if l.name == METRIC_NAME then before else before + [l]
  }

  function PairTexts(labels: seq<Label>): (texts: seq<Str>)
    ensures |texts| == |labels|
  {
    seq(|labels|, i requires 0 <= i < |labels| => PairText(labels[i]))
  }

  /** strings.Join with a comma and a space. */
  function PairList(texts: seq<Str>): Str {
    if texts == [] then []
    else if |texts| == 1 then texts[0]
    else PairList(texts[..|texts| - 1]) + [COMMA, SPACE] + texts[|texts| - 1]
  }

  function Format(labels: seq<Label>): Str {
    if Others(labels) == [] then NameOf(labels)
    else NameOf(labels) + [OPEN] + PairList(PairTexts(Others(labels))) + [CLOSE]
  }

  method FormatLabels(labels: seq<Label>) returns (text: Str)
    ensures text == Format(labels)
  {
    var name: Str := [];
    var rest: seq<Str> := [];
    var i := 0;
    assert labels[..0] == [];
    while i < |labels|
      invariant 0 <= i <= |labels| && name == NameOf(labels[..i]) && rest == PairTexts(Others(labels[..i]))
    {
      var l := labels[i];
      assert labels[..i + 1][..i] == labels[..i];
      if l.name == METRIC_NAME {
        name := l.value;
      } else {
        rest := rest + [PairText(l)];
      }
      i := i + 1;
    }
    assert labels[..i] == labels;
    if |rest| == 0 {
      return name;
    }
    return name + [OPEN] + PairList(rest) + [CLOSE];
  }

  // ---------- the round trip ----------

  function MatcherOf(l: Label): S.Matcher {
    S.Matcher(l.name, l.value)
  }

  function MatchersOf(labels: seq<Label>): (ms: seq<S.Matcher>)
    ensures |ms| == |labels|
  {
    seq(|labels|, i requires 0 <= i < |labels| => MatcherOf(labels[i]))
  }

  lemma TrimNothing(s: Str)
    requires s == [] || (!IsSpace(s[0]) && !IsSpace(s[|s| - 1]))
    ensures TrimSpace(s) == s
  {
  }

  lemma TrimLeading(s: Str)
    requires s != [] && !IsSpace(s[0]) && !IsSpace(s[|s| - 1])
    ensures TrimSpace([SPACE] + s) == s
  {
    assert ([SPACE] + s)[1..] == s;
    assert TrimLeft([SPACE] + s) == TrimLeft(s) == s;
  }

  lemma PairEnds(l: Label)
    requires IsName(l.name)
    ensures var p := PairText(l);
            p != [] && !IsSpace(p[0]) && !IsSpace(p[|p| - 1])
  {
  }

  /** What formatLabels prints of a label is what ParseSelector reads it as. */
  lemma PairRoundTrip(l: Label)
    requires IsName(l.name)
    ensures ParsePair(PairText(l)) == Selected([MatcherOf(l)])
    ensures ParsePair([SPACE] + PairText(l)) == Selected([MatcherOf(l)])
  {
    var p := PairText(l);
    PairEnds(l);
    TrimNothing(p);
    TrimLeading(p);
    assert p == l.name + [EQUALS] + Quote(l.value);
    NameBytes(l.name);
    IndexOfSep(l.name, EQUALS, Quote(l.value));
    assert p[..|l.name|] == l.name && p[|l.name| + 1..] == Quote(l.value);
    TrimNothing(l.name);
    TrimNothing(Quote(l.value));
    QuoteRoundTrip(l.value);
    hide TrimSpace, IndexOf, IsName, Quote, Unquote;
  }

  lemma NameBytes(s: Str)
    requires IsName(s)
    ensures EQUALS !in s && COMMA !in s && QUOTE !in s && OPEN !in s && !IsSpace(s[0]) && !IsSpace(s[|s| - 1])
  {
  }

  lemma {:induction false} PlainText(s: Str)
    requires COMMA !in s && QUOTE !in s
    ensures NoBareComma(s) && Scan(Outside, s) == Outside
  {
    if s != [] {
      PlainText(s[..|s| - 1]);
      assert s[|s| - 1] in s;
      CommaFreeStep(s[..|s| - 1], s[|s| - 1]);
      assert s[..|s| - 1] + [s[|s| - 1]] == s;
    }
  }

  /** Quoted text has no bare comma, and its quotes are closed. */
  lemma QuoteCommaFree(head: Str, v: Str)
    requires NoBareComma(head) && Scan(Outside, head) == Outside
    ensures NoBareComma(head + Quote(v)) && Scan(Outside, head + Quote(v)) == Outside
  {
    hide NoBareComma, Scan, QuotedBytes, StaysQuoted;
    ScanStep(Outside, head, QUOTE);
    CommaFreeStep(head, QUOTE);
    QuotedBytesInside(v);
    QuotedCommaFree(head + [QUOTE], QuotedBytes(v), Inside);
    var body := head + [QUOTE] + QuotedBytes(v);
    ScanStep(Outside, body, QUOTE);
    CommaFreeStep(body, QUOTE);
    assert head + Quote(v) == body + [QUOTE];
  }

  /** A printed pair has no comma outside its quotes, and its quotes are closed. */
  lemma PairCommaFree(prefix: Str, l: Label)
    requires IsName(l.name) && (prefix == [] || prefix == [SPACE])
    ensures NoBareComma(prefix + PairText(l)) && Scan(Outside, prefix + PairText(l)) == Outside
  {
    var head := prefix + l.name + [EQUALS];
    NameBytes(l.name);
    hide IsName, NoBareComma, Scan, Quote;
    PlainText(head);
    QuoteCommaFree(head, l.value);
    assert prefix + PairText(l) == head + Quote(l.value);
  }

  predicate AllNamed(labels: seq<Label>) {
    forall l :: l in labels ==> IsName(l.name)
  }

  /** The texts as they come out of the splitter: all but the first after a space. */
  function Spaced(labels: seq<Label>): (parts: seq<Str>)
    ensures |parts| == |labels|
  {
    seq(|labels|, i requires 0 <= i < |labels| => (if i == 0 then [] else [SPACE]) + PairText(labels[i]))
  }

  lemma {:induction false} SpacedJoin(labels: seq<Label>)
    requires labels != []
    ensures CommaJoined(Spaced(labels)) == PairList(PairTexts(labels))
  {
    hide PairText;
    var n := |labels| - 1;
    var parts, texts := Spaced(labels), PairTexts(labels);
    if n > 0 {
      SpacedJoin(labels[..n]);
      assert Spaced(labels[..n]) == parts[..n] && PairTexts(labels[..n]) == texts[..n];
      assert CommaJoined(parts[..n]) + [COMMA] + ([SPACE] + texts[n]) == PairList(texts[..n]) + [COMMA, SPACE] + texts[n];
    }
  }

  lemma SplitListed(labels: seq<Label>)
    requires labels != [] && AllNamed(labels)
    ensures Split(PairList(PairTexts(labels))) == Spaced(labels)
  {
    hide PairText, Split, NoBareComma, Scan, CommaJoined, PairList;
    SpacedJoin(labels);
    var parts := Spaced(labels);
    forall i | 0 <= i < |parts| ensures NoBareComma(parts[i]) && Scan(Outside, parts[i]) == Outside {
      assert labels[i] in labels;
      PairCommaFree(if i == 0 then [] else [SPACE], labels[i]);
    }
    SplitIsOnly(parts, PairList(PairTexts(labels)));
  }

  lemma {:induction false} PairsRoundTrip(labels: seq<Label>)
    requires AllNamed(labels)
    ensures ParsePairs(Spaced(labels)) == Selected(MatchersOf(labels))
  {
    hide PairText, ParsePair;
    if labels != [] {
      var n := |labels| - 1;
      PairsRoundTrip(labels[..n]);
      assert Spaced(labels[..n]) == Spaced(labels)[..n];
      PairRoundTrip(labels[n]);
      assert [] + PairText(labels[n]) == PairText(labels[n]);
      assert MatchersOf(labels) == MatchersOf(labels[..n]) + [MatcherOf(labels[n])];
    }
  }

  /** What a selector printed from labels must select. */
  function Meant(labels: seq<Label>): Selection {
    var all := (if NameOf(labels) == [] then [] else [S.Matcher(METRIC_NAME, NameOf(labels))]) + MatchersOf(Others(labels));
    if labels == [] || all == [] then Rejected(EmptySelector) else Selected(all)
  }

  lemma BracesText(name: Str, body: Str)
    requires name == [] || IsName(name)
    ensures var q := name + [OPEN] + body + [CLOSE];
            && TrimSpace(q) == q && q != [] && IndexOf(q, OPEN) == |name| && TrimSpace(q[..|name|]) == name
            && q[|name|..] == [OPEN] + body + [CLOSE]
  {
    var q := name + [OPEN] + body + [CLOSE];
    if name != [] {
      NameBytes(name);
    }
    hide IsName;
    assert q[0] == if name == [] then OPEN else name[0];
    TrimNothing(q);
    TrimNothing(name);
    IndexOfSep(name, OPEN, body + [CLOSE]);
    hide TrimSpace, IndexOf;
    assert q == name + [OPEN] + (body + [CLOSE]);
    assert q[..|name|] == name;
  }

  lemma BracesParse(name: Str, body: Str)
    requires name == [] || IsName(name)
    ensures Parse(name + [OPEN] + body + [CLOSE]) ==
            var pairs := ParsePairs(Split(body));
            if pairs.Rejected? then pairs
            else
              var all := (if name == [] then [] else [S.Matcher(METRIC_NAME, name)]) + pairs.matchers;
              if all == [] then Rejected(NoMatchers) else Selected(all)
  {
    hide TrimSpace, IndexOf, IsName, Split, ParsePairs;
    BracesText(name, body);
    var rest := [OPEN] + body + [CLOSE];
    assert rest[1..|rest| - 1] == body;
  }

  lemma BracesRoundTrip(name: Str, others: seq<Label>)
    requires (name == [] || IsName(name)) && others != [] && AllNamed(others)
    ensures Parse(name + [OPEN] + PairList(PairTexts(others)) + [CLOSE]) ==
            Selected((if name == [] then [] else [S.Matcher(METRIC_NAME, name)]) + MatchersOf(others))
  {
    hide Parse, IsName, PairList, Split, ParsePairs, PairTexts, AllNamed;
    BracesParse(name, PairList(PairTexts(others)));
    SplitListed(others);
    PairsRoundTrip(others);
  }

  lemma {:induction false} OthersNamed(labels: seq<Label>)
    requires forall l :: l in labels && l.name != METRIC_NAME ==> IsName(l.name)
    ensures AllNamed(Others(labels))
  {
    hide IsName;
    if labels != [] {
      OthersNamed(labels[..|labels| - 1]);
      assert labels[|labels| - 1] in labels;
    }
  }

  lemma MeantRoundTrip(labels: seq<Label>)
    requires forall l :: l in labels && l.name != METRIC_NAME ==> IsName(l.name)
    requires NameOf(labels) == [] || IsName(NameOf(labels))
    ensures Parse(Format(labels)) == Meant(labels)
  {
    var name, others := NameOf(labels), Others(labels);
    OthersNamed(labels);
    if others != [] {
      hide Parse, IsName, PairList, PairTexts;
      BracesRoundTrip(name, others);
    } else if name != [] {
      NameBytes(name);
      TrimNothing(name);
      IndexFinds(name, OPEN);
      hide TrimSpace, IndexOf, IsName;
    }
  }

  // ---------- what is printed, without reference to the printer ----------

  predicate NoName(labels: seq<Label>) {
    forall l :: l in labels ==> l.name != METRIC_NAME
  }

  lemma {:induction false} NothingDropped(labels: seq<Label>)
    requires NoName(labels)
    ensures Others(labels) == labels && NameOf(labels) == []
  {
    if labels != [] {
      var init, l := labels[..|labels| - 1], labels[|labels| - 1];
      assert labels == init + [l] && l in labels;
      assert forall x :: x in init ==> x in labels;
      NothingDropped(init);
    }
  }

  lemma {:induction false} OthersJoin(a: seq<Label>, b: seq<Label>)
    ensures Others(a + b) == Others(a) + Others(b)
    ensures NameOf(a + b) == if NoName(b) then NameOf(a) else NameOf(b)
  {
    if b == [] {
      assert a + b == a;
    } else {
      var init, l := b[..|b| - 1], b[|b| - 1];
      OthersJoin(a, init);
      assert (a + b)[..|a + b| - 1] == a + init && (a + b)[|a + b| - 1] == l;
      assert b == init + [l];
      assert NoName(b) <==> NoName(init) && l.name != METRIC_NAME;
    }
  }

  lemma OneLabel(l: Label)
    ensures l.name == METRIC_NAME ==> Others([l]) == [] && NameOf([l]) == l.value && !NoName([l])
    ensures l.name != METRIC_NAME ==> Others([l]) == [l] && NameOf([l]) == [] && NoName([l])
  {
    assert [l][..0] == [];
    assert l in [l];
  }

  lemma NamedOthers(a: seq<Label>, m: Label, b: seq<Label>)
    requires m.name == METRIC_NAME && NoName(b)
    ensures Others(a + [m] + b) == Others(a) + b && NameOf(a + [m] + b) == m.value
  {
    OneLabel(m);
    NothingDropped(b);
    OthersJoin(a, [m]);
    OthersJoin(a + [m], b);
  }

  /** A label set with a metric name, wherever it stands: printed and parsed, it selects the metric and then
      the other labels, all of them and in their order, for any values at all, commas, quotes, braces and
      backslashes included. */
  lemma SelectorRoundTrip(a: seq<Label>, m: Label, b: seq<Label>)
    requires NoName(a) && NoName(b) && AllNamed(a + b) && m.name == METRIC_NAME && IsName(m.value)
    ensures Parse(Format(a + [m] + b)) == Selected([MatcherOf(m)] + MatchersOf(a + b))
  {
    hide Parse, Format, IsName, Others, NameOf;
    NamedOthers(a, m, b);
    NothingDropped(a);
    forall l | l in a + [m] + b && l.name != METRIC_NAME ensures IsName(l.name) {
      assert l in a + b;
    }
    NotEmpty(m.value);
    MeantRoundTrip(a + [m] + b);
  }

  lemma NotEmpty(s: Str)
    requires IsName(s)
    ensures s != []
  {
  }

  /** Without a metric name there are only the labels, and without those nothing that can be parsed. */
  lemma UnnamedRoundTrip(a: seq<Label>)
    requires NoName(a) && AllNamed(a)
    ensures Parse(Format(a)) == if a == [] then Rejected(EmptySelector) else Selected(MatchersOf(a))
  {
    hide Parse, Format, IsName, Others, NameOf;
    NothingDropped(a);
    MeantRoundTrip(a);
  }

  /** Of two metric names the last one counts. */
  lemma EarlierNameIgnored(a: seq<Label>, earlier: Label, b: seq<Label>, m: Label, c: seq<Label>)
    requires earlier.name == METRIC_NAME && m.name == METRIC_NAME
    ensures Format(a + [earlier] + b + [m] + c) == Format(a + b + [m] + c)
  {
    hide Others, NameOf, NoName;
    OneLabel(earlier);
    OneLabel(m);
    OthersJoin(a, [earlier]);
    OthersJoin(a + [earlier], b);
    OthersJoin(a + [earlier] + b, [m]);
    OthersJoin(a + [earlier] + b + [m], c);
    OthersJoin(a, b);
    OthersJoin(a + b, [m]);
    OthersJoin(a + b + [m], c);
    hide Format;
    FormatOf(a + [earlier] + b + [m] + c, a + b + [m] + c);
  }

  lemma FormatOf(a: seq<Label>, b: seq<Label>)
    requires Others(a) == Others(b) && NameOf(a) == NameOf(b)
    ensures Format(a) == Format(b)
  {
  }

  /** The text: the name, and in braces the labels, joined by a comma and a space. */
  lemma FormatFirst(m: Label, l: Label)
    requires m.name == METRIC_NAME && l.name != METRIC_NAME
    ensures Format([m]) == m.value
    ensures Format([m] + [l]) == m.value + [OPEN] + (l.name + [EQUALS] + Quote(l.value)) + [CLOSE]
  {
    OneLabel(m);
    OneLabel(l);
    OthersJoin([m], [l]);
    hide Others, NameOf, NoName, Quote;
    assert [] + [l] == [l];
    assert PairTexts([l]) == [PairText(l)];
  }

  lemma FormatNamed(m: Label, a: seq<Label>)
    requires m.name == METRIC_NAME && NoName(a) && a != []
    ensures Format([m] + a) == m.value + [OPEN] + PairList(PairTexts(a)) + [CLOSE]
  {
    OneLabel(m);
    NothingDropped(a);
    OthersJoin([m], a);
    hide Others, NameOf, NoName, PairList, PairTexts;
    assert [] + a == a;
  }

  /** Each further label goes before the closing brace. */
  lemma FormatGrows(m: Label, a: seq<Label>, l: Label)
    requires m.name == METRIC_NAME && l.name != METRIC_NAME && NoName(a) && a != []
    ensures var text := Format([m] + a);
            && text != []
            && Format([m] + (a + [l])) == text[..|text| - 1] + Ascii(", ") + (l.name + [EQUALS] + Quote(l.value)) + [CLOSE]
  {
    FormatNamed(m, a);
    FormatNamed(m, a + [l]);
    ListGrows(a, l);
    assert PairText(l) == l.name + [EQUALS] + Quote(l.value);
    hide *;
    var list, more := PairList(PairTexts(a)), Ascii(", ") + PairText(l);
    MovesClose(m.value + [OPEN], list, Ascii(", "), PairText(l), PairList(PairTexts(a + [l])));
  }

  lemma MovesClose(head: Str, list: Str, comma: Str, pair: Str, longer: Str)
    requires longer == list + comma + pair
    ensures var text := head + list + [CLOSE];
            text != [] && head + longer + [CLOSE] == text[..|text| - 1] + comma + pair + [CLOSE]
  {
    var text := head + list + [CLOSE];
    assert text[..|text| - 1] == head + list;
    assert head + (list + comma + pair) == head + list + comma + pair;
  }

  lemma ListGrows(a: seq<Label>, l: Label)
    requires a != []
    ensures PairList(PairTexts(a + [l])) == PairList(PairTexts(a)) + Ascii(", ") + PairText(l)
  {
    hide PairText;
    var texts := PairTexts(a + [l]);
    assert texts == PairTexts(a) + [PairText(l)];
    assert texts[..|texts| - 1] == PairTexts(a);
    assert Ascii(", ") == [COMMA, SPACE];
  }

  // ---------- quoted text ----------

  lemma {:induction false} QuotedJoin(a: Str, b: Str)
    ensures QuotedBytes(a + b) == QuotedBytes(a) + QuotedBytes(b)
  {
    hide QuotedByte;
    if a == [] {
      assert a + b == b;
    } else {
      assert (a + b)[1..] == a[1..] + b;
      QuotedJoin(a[1..], b);
    }
  }

  predicate Plain(b: Byte) {
    32 <= b && b != 34 && b != 92 && b != 127
  }

  lemma {:induction false} QuotedPlain(s: Str)
    requires forall b :: b in s ==> Plain(b)
    ensures QuotedBytes(s) == s
  {
    hide QuotedByte, Plain;
    if s != [] {
      var first, more := s[0], s[1..];
      assert s == [first] + more && first in s;
      assert forall b :: b in more ==> b in s;
      QuotedPlain(more);
      PlainIsItself(first);
    }
  }

  lemma PlainIsItself(b: Byte)
    requires Plain(b)
    ensures QuotedByte(b) == [b]
  {
  }

  /** Text without quotes, backslashes and control characters is quoted as it stands. */
  lemma QuotePlain(s: Str)
    requires forall b :: b in s ==> Plain(b)
    ensures Quote(s) == [34] + s + [34]
  {
    QuotedPlain(s);
  }

  lemma QuotedOne(b: Byte)
    ensures QuotedBytes([b]) == QuotedByte(b)
  {
    assert [b][1..] == [];
  }

  /** And the others are quoted byte by byte, as strconv.Quote does: a letter for the common control
      characters, two hexadecimal digits for the rest. */
  lemma QuoteEscapes(a: Str, b: Byte, c: Str)
    requires !Plain(b)
    ensures exists escaped: Str :: IsEscape(b, escaped) && Quote(a + [b] + c) == Quote(a)[..|Quote(a)| - 1] + escaped + Quote(c)[1..]
  {
    hide QuotedByte, QuotedBytes, IsEscape, Plain;
    QuotedJoin(a + [b], c);
    QuotedJoin(a, [b]);
    QuotedOne(b);
    EscapeIs(b);
    assert Quote(a)[..|Quote(a)| - 1] == [QUOTE] + QuotedBytes(a) && Quote(c)[1..] == QuotedBytes(c) + [QUOTE];
  }

  predicate IsEscape(b: Byte, escaped: Str) {
    if b == 34 then escaped == Ascii("\\\"")
    else if b == 92 then escaped == Ascii("\\\\")
    else if b == 7 then escaped == Ascii("\\a")
    else if b == 8 then escaped == Ascii("\\b")
    else if b == 9 then escaped == Ascii("\\t")
    else if b == 10 then escaped == Ascii("\\n")
    else if b == 11 then escaped == Ascii("\\v")
    else if b == 12 then escaped == Ascii("\\f")
    else if b == 13 then escaped == Ascii("\\r")
    else |escaped| == 4 && escaped[..2] == Ascii("\\x") && Hex(escaped[2]) == b / 16 && Hex(escaped[3]) == b % 16
  }

  /** The value of a lower-case hexadecimal digit. */
  function Hex(c: Byte): int {
    if 48 <= c <= 57 then c - 48 else if 97 <= c <= 102 then c - 87 else -1
  }

  lemma EscapeIs(b: Byte)
    requires !Plain(b)
    ensures IsEscape(b, QuotedByte(b))
  {
  }

  /** What the test of cmd/mmctl finds printed. */
  lemma KnownText(m: Label, l: Label)
    requires m == Label(METRIC_NAME, Ascii("http_requests_total")) && l == Label(Ascii("job"), Ascii("api"))
    ensures Format([m] + [l]) == Ascii("http_requests_total") + [OPEN] + Ascii("job=\"api\"") + [CLOSE]
  {
    assert |l.name| != |METRIC_NAME|;
    FormatFirst(m, l);
    QuotePlain(l.value);
    assert Ascii("job") + [EQUALS] + ([34] + Ascii("api") + [34]) == Ascii("job=\"api\"");
  }

  /** Unquoting takes two hexadecimal digits of either case. */
  lemma UnquoteHex(n: nat, a: Byte, b: Byte, rest: Str)
    requires n < 256 && HexValue(a) == Some(n / 16) && HexValue(b) == Some(n % 16)
    ensures UnquotedBytes([92, 120, a, b] + rest) == Prepended(n, UnquotedBytes(rest))
  {
    assert ([92, 120, a, b] + rest)[4..] == rest;
  }
}
