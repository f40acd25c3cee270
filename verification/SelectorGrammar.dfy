/** The language of selectors: what ParseSelector of storage/query.go accepts and what it takes it to mean,
    as a grammar. */
module SelectorGrammar {
  import opened Bits
  import opened Labels
  import opened Selector
  import S = Series

  predicate Blank(s: Str) {
    forall i :: 0 <= i < |s| ==> IsSpace(s[i])
  }

  /** Neither end of s is a space. */
  predicate Tight(s: Str) {
    s != [] ==> !IsSpace(s[0]) && !IsSpace(s[|s| - 1])
  }

  // ---------- space around ----------

  lemma {:induction false} TrimLeftOf(pre: Str, s: Str)
    requires Blank(pre) && (s == [] || !IsSpace(s[0]))
    ensures TrimLeft(pre + s) == s
  {
    if pre == [] {
      assert pre + s == s;
    } else {
      assert (pre + s)[1..] == pre[1..] + s;
      TrimLeftOf(pre[1..], s);
    }
  }

  lemma {:induction false} TrimRightOf(s: Str, post: Str)
    requires Blank(post) && (s == [] || !IsSpace(s[|s| - 1]))
    ensures TrimRight(s + post) == s
  {
    if post == [] {
      assert s + post == s;
    } else {
      assert (s + post)[..|s + post| - 1] == s + post[..|post| - 1];
      TrimRightOf(s, post[..|post| - 1]);
    }
  }

  lemma TrimOf(pre: Str, s: Str, post: Str)
    requires Blank(pre) && Blank(post) && Tight(s)
    ensures TrimSpace(pre + s + post) == s
  {
    if s == [] {
      assert pre + s + post == (pre + post) + [];
      assert Blank(pre + post);
      TrimLeftOf(pre + post, []);
    } else {
      assert pre + s + post == pre + (s + post);
      TrimLeftOf(pre, s + post);
      TrimRightOf(s, post);
    }
  }

  lemma {:induction false} TrimLeftParts(s: Str) returns (pre: Str)
    ensures s == pre + TrimLeft(s) && Blank(pre) && (TrimLeft(s) == [] || !IsSpace(TrimLeft(s)[0]))
  {
    if s != [] && IsSpace(s[0]) {
      var more := TrimLeftParts(s[1..]);
      pre := [s[0]] + more;
    } else {
      pre := [];
    }
  }

  lemma {:induction false} TrimRightParts(s: Str) returns (post: Str)
    ensures s == TrimRight(s) + post && Blank(post) && (TrimRight(s) == [] || !IsSpace(TrimRight(s)[|TrimRight(s)| - 1]))
    ensures TrimRight(s) != [] ==> TrimRight(s)[0] == s[0]
  {
    if s != [] && IsSpace(s[|s| - 1]) {
      var more := TrimRightParts(s[..|s| - 1]);
      post := more + [s[|s| - 1]];
    } else {
      post := [];
    }
  }

  lemma TrimParts(s: Str) returns (pre: Str, post: Str)
    ensures s == pre + TrimSpace(s) + post && Blank(pre) && Blank(post) && Tight(TrimSpace(s))
  {
    pre := TrimLeftParts(s);
    post := TrimRightParts(TrimLeft(s));
    assert TrimSpace(s) == TrimRight(TrimLeft(s));
    hide Blank, TrimLeft, TrimRight, TrimSpace, IsSpace;
    ThreeParts(pre, TrimSpace(s), post);
  }

  lemma ThreeParts(a: Str, b: Str, c: Str)
    ensures a + (b + c) == a + b + c
  {
  }

  lemma TrimBlank(s: Str)
    ensures TrimSpace(s) == [] <==> Blank(s)
  {
    var pre, post := TrimParts(s);
    if TrimSpace(s) == [] {
      assert s == pre + post;
    } else {
      assert s[|pre|] == TrimSpace(s)[0];
    }
  }

  // ---------- one pair ----------

  /** A name, an equals sign and a quoted value, with any space around each. */
  ghost predicate ReadsAs(part: Str, m: S.Matcher) {
    exists pre: Str, mid: Str, gap: Str, lit: Str, post: Str ::
      && part == pre + m.name + mid + [EQUALS] + gap + lit + post
      && Blank(pre) && Blank(mid) && Blank(gap) && Blank(post)
      && IsName(m.name) && Unquote(lit) == Some(m.value)
  }

  lemma BlankFree(s: Str, c: Byte)
    requires Blank(s) && !IsSpace(c)
    ensures c !in s
  {
  }

  lemma LiteralTight(lit: Str)
    requires Unquote(lit).Some?
    ensures lit != [] && Tight(lit)
  {
  }

  lemma NameTight(name: Str)
    requires IsName(name)
    ensures name != [] && Tight(name) && EQUALS !in name && OPEN !in name
  {
    NameBytes(name);
  }

  lemma RegroupPair(pre: Str, a: Str, mid: Str, sep: Byte, gap: Str, b: Str, post: Str)
    ensures pre + a + mid + [sep] + gap + b + post == pre + ((a + mid) + [sep] + (gap + b)) + post
  {
    assert pre + a + mid + [sep] + gap + b + post == pre + (a + mid + [sep] + gap + b) + post;
    assert a + mid + [sep] + gap + b == (a + mid) + [sep] + (gap + b);
  }

  lemma CutAtSep(a: Str, sep: Byte, b: Str)
    requires sep !in a
    ensures var s := a + [sep] + b;
            IndexOf(s, sep) == |a| < |s| && s[..|a|] == a && s[|a| + 1..] == b
  {
    IndexOfSep(a, sep, b);
  }

  lemma TightJoin(a: Str, mid: Str, b: Str)
    requires a != [] && b != [] && !IsSpace(a[0]) && !IsSpace(b[|b| - 1])
    ensures Tight(a + mid + b) && a + mid + b != []
  {
  }

  /** ParsePair once the text is trimmed and its equals sign found. */
  lemma ParsePairAt(part: Str, left: Str, right: Str)
    requires TrimSpace(part) == left + [EQUALS] + right && EQUALS !in left
    ensures ParsePair(part) ==
            if left == [] then Rejected(BadMatcher)
            else if !IsName(TrimSpace(left)) then Rejected(BadLabelName)
            else if Unquote(TrimSpace(right)).None? then Rejected(BadValue)
            else Selected([S.Matcher(TrimSpace(left), Unquote(TrimSpace(right)).value)])
  {
    hide TrimSpace, IsName, Unquote, IndexOf;
    CutAtSep(left, EQUALS, right);
  }

  lemma ParsePairNone(part: Str)
    requires EQUALS !in TrimSpace(part)
    ensures ParsePair(part) == if TrimSpace(part) == [] then Selected([]) else Rejected(BadMatcher)
  {
    hide TrimSpace, IsName, Unquote, IndexOf;
    IndexFinds(TrimSpace(part), EQUALS);
  }

  lemma ReadsParse(part: Str, m: S.Matcher)
    requires ReadsAs(part, m)
    ensures ParsePair(part) == Selected([m])
  {
    hide Unquote, IsName, Blank, ParsePair;
    var pre: Str, mid: Str, gap: Str, lit: Str, post: Str :|
      && part == pre + m.name + mid + [EQUALS] + gap + lit + post
      && Blank(pre) && Blank(mid) && Blank(gap) && Blank(post)
      && IsName(m.name) && Unquote(lit) == Some(m.value);
    PartsParse(part, m, pre, mid, gap, lit, post);
  }

  lemma PartsParse(part: Str, m: S.Matcher, pre: Str, mid: Str, gap: Str, lit: Str, post: Str)
    requires part == pre + m.name + mid + [EQUALS] + gap + lit + post
    requires Blank(pre) && Blank(mid) && Blank(gap) && Blank(post) && IsName(m.name) && Unquote(lit) == Some(m.value)
    ensures ParsePair(part) == Selected([m])
  {
    hide *;
    NameTight(m.name);
    LiteralTight(lit);
    PairTrims(pre, m.name, mid, gap, lit, post);
    ParsePairAt(part, m.name + mid, gap + lit);
  }

  lemma PairTrims(pre: Str, name: Str, mid: Str, gap: Str, lit: Str, post: Str)
    requires Blank(pre) && Blank(mid) && Blank(gap) && Blank(post)
    requires name != [] && Tight(name) && EQUALS !in name && lit != [] && Tight(lit)
    ensures TrimSpace(pre + name + mid + [EQUALS] + gap + lit + post) == (name + mid) + [EQUALS] + (gap + lit)
    ensures TrimSpace(name + mid) == name && TrimSpace(gap + lit) == lit && EQUALS !in name + mid && name + mid != []
  {
    hide TrimSpace, Blank, Tight;
    RegroupPair(pre, name, mid, EQUALS, gap, lit, post);
    CoreTight(name, mid, gap, lit);
    TrimOf(pre, (name + mid) + [EQUALS] + (gap + lit), post);
    BlankFree(mid, EQUALS);
    NoneAround(name, mid, gap, lit);
    TrimOf([], name, mid);
    TrimOf(gap, lit, []);
  }

  lemma NoneAround(name: Str, mid: Str, gap: Str, lit: Str)
    ensures [] + name + mid == name + mid && gap + lit + [] == gap + lit && Blank([])
  {
  }

  lemma CoreTight(name: Str, mid: Str, gap: Str, lit: Str)
    requires name != [] && lit != [] && Tight(name) && Tight(lit)
    ensures var core := (name + mid) + [EQUALS] + (gap + lit); Tight(core) && core != []
  {
  }

  lemma {:induction false} IndexSplits(s: Str, c: Byte)
    ensures var i := IndexOf(s, c);
            c !in s[..i] && (i < |s| ==> s == s[..i] + [c] + s[i + 1..])
  {
    if s != [] && s[0] != c {
      IndexSplits(s[1..], c);
      var i := IndexOf(s, c);
      assert s[..i] == [s[0]] + s[1..][..i - 1];
      IndexFinds(s, c);
    } else if s != [] {
      assert s == [] + [c] + s[1..];
    }
  }

  lemma ParseReads(part: Str, m: S.Matcher)
    requires ParsePair(part) == Selected([m])
    ensures ReadsAs(part, m)
  {
    hide Unquote, IsName, TrimSpace, IndexOf, Blank, Tight, ParsePair;
    var core := TrimSpace(part);
    var eq := IndexOf(core, EQUALS);
    IndexFinds(core, EQUALS);
    IndexSplits(core, EQUALS);
    if EQUALS !in core {
      ParsePairNone(part);
    } else {
      var left, right := core[..eq], core[eq + 1..];
      ParsePairAt(part, left, right);
      var pre, post := TrimParts(part);
      var a, mid := TrimParts(left);
      var gap, b := TrimParts(right);
      BlankJoin(pre, a);
      BlankJoin(b, post);
      Reassemble(pre, a, m.name, mid, gap, TrimSpace(right), b, post);
      ReadsIs(part, m, pre + a, mid, gap, TrimSpace(right), b + post);
    }
  }

  lemma ReadsIs(part: Str, m: S.Matcher, pre: Str, mid: Str, gap: Str, lit: Str, post: Str)
    requires part == pre + m.name + mid + [EQUALS] + gap + lit + post
    requires Blank(pre) && Blank(mid) && Blank(gap) && Blank(post) && IsName(m.name) && Unquote(lit) == Some(m.value)
    ensures ReadsAs(part, m)
  {
  }

  lemma BlankJoin(a: Str, b: Str)
    requires Blank(a) && Blank(b)
    ensures Blank(a + b)
  {
  }

  lemma Reassemble(pre: Str, a: Str, name: Str, mid: Str, gap: Str, lit: Str, b: Str, post: Str)
    ensures pre + ((a + name + mid) + [EQUALS] + (gap + lit + b)) + post ==
            (pre + a) + name + mid + [EQUALS] + gap + lit + (b + post)
  {
    assert (a + name + mid) + [EQUALS] + (gap + lit + b) == a + name + mid + [EQUALS] + gap + lit + b;
    assert pre + (a + name + mid + [EQUALS] + gap + lit + b) + post == pre + a + name + mid + [EQUALS] + gap + lit + b + post;
  }

  /** A part is read exactly if it is such a pair, and adds nothing exactly if it is blank. */
  lemma PairReadsIff(part: Str, m: S.Matcher)
    ensures ParsePair(part) == Selected([m]) <==> ReadsAs(part, m)
    ensures ParsePair(part) == Selected([]) <==> Blank(part)
    ensures ParsePair(part).Selected? ==> |ParsePair(part).matchers| <= 1
  {
    hide ReadsAs, Unquote, IsName, TrimSpace, IndexOf, Blank;
    TrimBlank(part);
    if ParsePair(part) == Selected([m]) {
      ParseReads(part, m);
    }
    if ReadsAs(part, m) {
      ReadsParse(part, m);
    }
  }

  // ---------- the pairs ----------

  /** The parts are pairs and blanks, and the pairs read as ms in their order. */
  ghost predicate ListReadsAs(parts: seq<Str>, ms: seq<S.Matcher>) {
    if parts == [] then ms == []
    else
      var init, last := parts[..|parts| - 1], parts[|parts| - 1];
      || (Blank(last) && ListReadsAs(init, ms))
      || (ms != [] && ReadsAs(last, ms[|ms| - 1]) && ListReadsAs(init, ms[..|ms| - 1]))
  }

  lemma {:induction false} ListReadsIff(parts: seq<Str>, ms: seq<S.Matcher>)
    ensures ParsePairs(parts) == Selected(ms) <==> ListReadsAs(parts, ms)
    decreases |parts|
  {
    hide ReadsAs, ParsePair, Blank;
    if parts != [] {
      var init, last := parts[..|parts| - 1], parts[|parts| - 1];
      LastPart(init, last, ms);
      ListReadsIff(init, ms);
      if ms != [] {
        ListReadsIff(init, ms[..|ms| - 1]);
        PairReadsIff(last, ms[|ms| - 1]);
      }
      PairReadsIff(last, S.Matcher([], []));
    }
  }

  /** The last part adds one matcher or none. */
  lemma LastPart(init: seq<Str>, last: Str, ms: seq<S.Matcher>)
    ensures (ParsePairs(init).Selected? && ParsePair(last).Selected? &&
             ParsePairs(init).matchers + ParsePair(last).matchers == ms) <==>
            (ParsePair(last) == Selected([]) && ParsePairs(init) == Selected(ms)) ||
            (ms != [] && ParsePair(last) == Selected([ms[|ms| - 1]]) && ParsePairs(init) == Selected(ms[..|ms| - 1]))
  {
    hide ParsePair, ParsePairs;
    PairReadsIff(last, S.Matcher([], []));
    var p := ParsePair(last);
    if p.Selected? && |p.matchers| == 1 {
      assert p.matchers == [p.matchers[0]];
    }
    assert ms != [] ==> ms == ms[..|ms| - 1] + [ms[|ms| - 1]];
  }

  // ---------- the selector ----------

  function NameMatcher(name: Str): seq<S.Matcher> {
    if name == [] then [] else [S.Matcher(METRIC_NAME, name)]
  }

  /** A metric name by itself. */
  ghost predicate IsMetric(text: Str, ms: seq<S.Matcher>) {
    exists pre: Str, name: Str, post: Str ::
      text == pre + name + post && Blank(pre) && Blank(post) && IsName(name) && ms == NameMatcher(name)
  }

  /** A metric name, or none, and in braces the pairs, cut at the commas outside quotes. */
  ghost predicate IsBraced(text: Str, ms: seq<S.Matcher>) {
    exists pre: Str, name: Str, mid: Str, parts: seq<Str>, rest: seq<S.Matcher>, post: Str ::
      && parts != [] && text == pre + name + mid + [OPEN] + CommaJoined(parts) + [CLOSE] + post
      && Blank(pre) && Blank(mid) && Blank(post) && (name == [] || IsName(name))
      && IsSplit(parts, CommaJoined(parts)) && ListReadsAs(parts, rest)
      && ms == NameMatcher(name) + rest && ms != []
  }

  lemma MetricParses(text: Str, ms: seq<S.Matcher>)
    requires IsMetric(text, ms)
    ensures Parse(text) == Selected(ms)
  {
    hide IsName, TrimSpace, IndexOf, Blank;
    var pre: Str, name: Str, post: Str :|
      text == pre + name + post && Blank(pre) && Blank(post) && IsName(name) && ms == NameMatcher(name);
    NameTight(name);
    TrimOf(pre, name, post);
    IndexFinds(name, OPEN);
  }

  lemma BracedCore(pre: Str, name: Str, mid: Str, body: Str, post: Str)
    requires Blank(pre) && Blank(mid) && Blank(post) && (name == [] || IsName(name))
    ensures var q := (if name == [] then [] else name + mid) + [OPEN] + body + [CLOSE];
            TrimSpace(pre + name + mid + [OPEN] + body + [CLOSE] + post) == q
  {
    hide TrimSpace, IsName;
    if name == [] {
      BlankJoin(pre, mid);
      var q := [OPEN] + body + [CLOSE];
      assert pre + name + mid + [OPEN] + body + [CLOSE] + post == (pre + mid) + q + post;
      assert Tight(q);
      TrimOf(pre + mid, q, post);
      assert [] + [OPEN] + body + [CLOSE] == q;
    } else {
      NameTight(name);
      var q := name + mid + [OPEN] + body + [CLOSE];
      assert pre + name + mid + [OPEN] + body + [CLOSE] + post == pre + q + post;
      assert q[0] == name[0] && q[|q| - 1] == CLOSE;
      TrimOf(pre, q, post);
    }
  }

  /** Parse on trimmed text with a brace. */
  lemma ParseBraces(text: Str, head: Str, body: Str)
    requires TrimSpace(text) == head + [OPEN] + body + [CLOSE] && OPEN !in head
    ensures Parse(text) ==
            var name := TrimSpace(head);
            if name != [] && !IsName(name) then Rejected(BadMetricName)
            else
              var pairs := ParsePairs(Split(body));
              if pairs.Rejected? then pairs
              else if NameMatcher(name) + pairs.matchers == [] then Rejected(NoMatchers)
              else Selected(NameMatcher(name) + pairs.matchers)
  {
    hide TrimSpace, IsName, ParsePairs, Split, IndexOf;
    var q := head + [OPEN] + body + [CLOSE];
    assert q == head + [OPEN] + (body + [CLOSE]);
    CutAtSep(head, OPEN, body + [CLOSE]);
    assert q[|head|..] == [OPEN] + body + [CLOSE];
    assert ([OPEN] + body + [CLOSE])[1..|body| + 1] == body;
  }

  lemma BracedParses(text: Str, ms: seq<S.Matcher>)
    requires IsBraced(text, ms)
    ensures Parse(text) == Selected(ms)
  {
    hide IsName, TrimSpace, IndexOf, Blank, Parse, ListReadsAs, IsSplit, Split, CommaJoined, ParsePairs;
    var pre: Str, name: Str, mid: Str, parts: seq<Str>, rest: seq<S.Matcher>, post: Str :|
      && parts != [] && text == pre + name + mid + [OPEN] + CommaJoined(parts) + [CLOSE] + post
      && Blank(pre) && Blank(mid) && Blank(post) && (name == [] || IsName(name))
      && IsSplit(parts, CommaJoined(parts)) && ListReadsAs(parts, rest)
      && ms == NameMatcher(name) + rest && ms != [];
    var body := CommaJoined(parts);
    SplitIsOnly(parts, body);
    ListReadsIff(parts, rest);
    BracedCore(pre, name, mid, body, post);
    HeadOf(name, mid);
    ParseBraces(text, if name == [] then [] else name + mid, body);
  }

  lemma HeadOf(name: Str, mid: Str)
    requires Blank(mid) && (name == [] || IsName(name))
    ensures var head := if name == [] then [] else name + mid; OPEN !in head && TrimSpace(head) == name
  {
    hide TrimSpace, IsName;
    if name == [] {
      TrimOf([], [], []);
      var none: Str := [];
      assert none + none + none == none;
    } else {
      NameTight(name);
      BlankFree(mid, OPEN);
      NoneAround(name, mid, [], []);
      TrimOf([], name, mid);
    }
  }

  lemma ParsedMetric(text: Str, ms: seq<S.Matcher>)
    requires Parse(text) == Selected(ms) && OPEN !in TrimSpace(text)
    ensures IsMetric(text, ms)
  {
    hide IsName, TrimSpace, IndexOf, Blank;
    var pre, post := TrimParts(text);
    IndexFinds(TrimSpace(text), OPEN);
    NameTight(TrimSpace(text));
  }

  lemma ParsedBraces(text: Str, ms: seq<S.Matcher>) returns (head: Str, body: Str)
    requires Parse(text) == Selected(ms) && OPEN in TrimSpace(text)
    ensures TrimSpace(text) == head + [OPEN] + body + [CLOSE] && OPEN !in head
  {
    var q := TrimSpace(text);
    ClosedBrace(text, ms);
    IndexSplits(q, OPEN);
    IndexFinds(q, OPEN);
    hide *;
    var i := IndexOf(q, OPEN);
    head, body := q[..i], q[i + 1..|q| - 1];
    assert q[i + 1..] == body + [CLOSE];
    assert q == head + [OPEN] + (body + [CLOSE]);
  }

  /** What is accepted ends in a brace, other than the first opening one. */
  lemma ClosedBrace(text: Str, ms: seq<S.Matcher>)
    requires Parse(text) == Selected(ms) && OPEN in TrimSpace(text)
    ensures var q := TrimSpace(text); IndexOf(q, OPEN) + 1 < |q| && q[|q| - 1] == CLOSE
  {
    hide IsName, TrimSpace, IndexOf, ParsePairs, Split;
    IndexFinds(TrimSpace(text), OPEN);
  }

  lemma ParsedBraced(text: Str, ms: seq<S.Matcher>)
    requires Parse(text) == Selected(ms) && OPEN in TrimSpace(text)
    ensures IsBraced(text, ms)
  {
    hide IsName, TrimSpace, IndexOf, Blank, Parse, ListReadsAs, IsSplit, Split, CommaJoined, ParsePairs;
    var head, body := ParsedBraces(text, ms);
    ParseBraces(text, head, body);
    var pre, post := TrimParts(text);
    var a, mid := TrimParts(head);
    var name, parts := TrimSpace(head), Split(body);
    var rest := ParsePairs(parts).matchers;
    SplitIsSplit(body);
    SplitJoins(parts, body);
    ListReadsIff(parts, rest);
    BlankJoin(pre, a);
    Opened(pre, a, name, mid, body, post);
    assert text == (pre + a) + name + mid + [OPEN] + CommaJoined(parts) + [CLOSE] + post;
  }

  lemma SplitJoins(parts: seq<Str>, s: Str)
    requires IsSplit(parts, s)
    ensures parts != [] && CommaJoined(parts) == s
  {
  }

  lemma Opened(pre: Str, a: Str, name: Str, mid: Str, body: Str, post: Str)
    ensures pre + ((a + name + mid) + [OPEN] + body + [CLOSE]) + post == (pre + a) + name + mid + [OPEN] + body + [CLOSE] + post
  {
    assert (a + name + mid) + [OPEN] + body + [CLOSE] == a + name + mid + [OPEN] + body + [CLOSE];
    assert pre + (a + name + mid + [OPEN] + body + [CLOSE]) + post == pre + a + name + mid + [OPEN] + body + [CLOSE] + post;
  }

  /** A text is accepted as ms if and only if it is a metric name by itself or one followed by pairs in
      braces, with any space around names, signs and values, blanks between commas adding nothing, and at
      least one matcher in all. */
  lemma ParseIff(text: Str, ms: seq<S.Matcher>)
    ensures Parse(text) == Selected(ms) <==> IsMetric(text, ms) || IsBraced(text, ms)
  {
    hide *;
    if IsMetric(text, ms) {
      MetricParses(text, ms);
    } else if IsBraced(text, ms) {
      BracedParses(text, ms);
    } else if Parse(text) == Selected(ms) {
      if OPEN in TrimSpace(text) {
        ParsedBraced(text, ms);
      } else {
        ParsedMetric(text, ms);
      }
    }
  }

  lemma BlankAlone(body: Str)
    requires Blank(body)
    ensures IsSplit([body], CommaJoined([body])) && CommaJoined([body]) == body && ListReadsAs([body], [])
  {
    BlankFree(body, COMMA);
    BlankFree(body, QUOTE);
    PlainText(body);
    assert [body][..0] == [];
  }

  /** Braces with nothing in them but space select the metric. */
  lemma EmptyBraces(name: Str, body: Str)
    requires IsName(name) && Blank(body)
    ensures Parse(name + [OPEN] + body + [CLOSE]) == Selected([S.Matcher(METRIC_NAME, name)])
  {
    hide IsName, Parse, Blank, IsSplit, CommaJoined, ListReadsAs;
    BlankAlone(body);
    NameTight(name);
    NothingBlank();
    var text, ms := name + [OPEN] + body + [CLOSE], NameMatcher(name);
    assert text == [] + name + [] + [OPEN] + CommaJoined([body]) + [CLOSE] + [];
    assert ms == NameMatcher(name) + [];
    assert IsBraced(text, ms);
    ParseIff(text, ms);
  }

  lemma NothingBlank()
    ensures Blank([])
  {
  }
}
