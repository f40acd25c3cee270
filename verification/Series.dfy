/** The series registry: storage/series.go. Each operation is a function on the registry's state; the
    class at the end updates its fields in place and is proved against them. */
module Series {
  import opened Labels
  import opened SortedIds

  datatype Matcher = Matcher(name: Str, value: Str)

  type Inverted = map<Day, map<Str, set<SeriesId>>>

  datatype State = State(
    nextID: SeriesId,
    byKey: map<Str, SeriesId>,
    names: map<SeriesId, seq<Label>>,
    pending: map<SeriesId, seq<Label>>,
    inverted: Inverted,
    persisted: map<Day, set<SeriesId>>)

  const EMPTY := State(1, map[], map[], map[], map[], map[])

  // ---------- identity ----------

  function Register(r: State, labels: seq<Label>): State {
    var sorted := SortedLabels(labels);
    r.(nextID := r.nextID + 1,
       byKey := r.byKey[CanonicalKey(labels) := r.nextID],
       names := r.names[r.nextID := sorted],
       pending := r.pending[r.nextID := sorted])
  }

  /** The registry after Resolve(labels). */
  function Resolved(r: State, labels: seq<Label>): State {
    if CanonicalKey(labels) in r.byKey then r else Register(r, labels)
  }

  function ResolvedId(r: State, labels: seq<Label>): SeriesId {
    if CanonicalKey(labels) in r.byKey then r.byKey[CanonicalKey(labels)] else r.nextID
  }

  /** Keys and IDs are inverse to each other, and IDs still to come are new. */
  ghost predicate Consistent(r: State) {
    && (forall id :: id in r.names ==> id < r.nextID && SortedLabels(r.names[id]) == r.names[id])
    && (forall id :: id in r.names ==>
          CanonicalKey(r.names[id]) in r.byKey && r.byKey[CanonicalKey(r.names[id])] == id)
    && (forall k :: k in r.byKey ==> r.byKey[k] in r.names && CanonicalKey(r.names[r.byKey[k]]) == k)
  }

  /** What no operation takes back: IDs stay bound to their labels. */
  ghost predicate Extends(r: State, r': State) {
    && (forall id :: id in r.names ==> id in r'.names && r'.names[id] == r.names[id])
    && (forall k :: k in r.byKey ==> k in r'.byKey && r'.byKey[k] == r.byKey[k])
    && r.nextID <= r'.nextID
  }

  lemma KeyOfSorted(labels: seq<Label>)
    ensures CanonicalKey(SortedLabels(labels)) == CanonicalKey(labels)
    ensures SortedLabels(SortedLabels(labels)) == SortedLabels(labels)
  {
    SortedLabelsEqual(labels, labels);
  }

  lemma ResolveKeeps(r: State, labels: seq<Label>)
    requires Consistent(r)
    ensures var r', id := Resolved(r, labels), ResolvedId(r, labels);
            && Consistent(r') && Extends(r, r')
            && id in r'.names && CanonicalKey(r'.names[id]) == CanonicalKey(labels)
            && CanonicalKey(labels) in r'.byKey && r'.byKey[CanonicalKey(labels)] == id
  {
    hide SortedLabels, CanonicalKey;
    KeyOfSorted(labels);
  }

  ghost predicate CleanNames(r: State) {
    forall id :: id in r.names ==> AllClean(r.names[id])
  }

  lemma ResolveClean(r: State, labels: seq<Label>)
    requires Consistent(r) && CleanNames(r) && AllClean(labels)
    ensures CleanNames(Resolved(r, labels))
    ensures ResolvedId(r, labels) in Resolved(r, labels).names
    ensures Resolved(r, labels).names[ResolvedId(r, labels)] == SortedLabels(labels)
  {
    hide SortedLabels, CanonicalKey, AtMost, Clean;
    SortedLabelsSorts(labels);
    assert AllClean(SortedLabels(labels)) by {
      assert forall l :: l in SortedLabels(labels) ==> l in multiset(SortedLabels(labels));
    }
    if CanonicalKey(labels) in r.byKey {
      var stored := r.names[r.byKey[CanonicalKey(labels)]];
      KeyIsIdentity(stored, labels);
      SortedLabelsEqual(stored, labels);
    }
  }

  /** However the registry grows between two calls, they give the same ID exactly when the label
      lists are permutations of each other. */
  lemma StableInjection(r: State, a: seq<Label>, later: State, b: seq<Label>)
    requires Consistent(r) && Consistent(later) && Extends(Resolved(r, a), later)
    ensures ResolvedId(r, a) == ResolvedId(later, b) <==> CanonicalKey(a) == CanonicalKey(b)
    ensures AllClean(a) && AllClean(b) ==>
              (ResolvedId(r, a) == ResolvedId(later, b) <==> multiset(a) == multiset(b))
  {
    ResolveKeeps(r, a);
    ResolveKeeps(later, b);
    if AllClean(a) && AllClean(b) {
      KeyIsIdentity(a, b);
    }
  }

  /** The registry after Resolve on each of the lists in turn. */
  function ResolvedAll(r: State, lists: seq<seq<Label>>): State {
    if lists == [] then r else Resolved(ResolvedAll(r, lists[..|lists| - 1]), lists[|lists| - 1])
  }

  function KeysOf(lists: seq<seq<Label>>): set<Str> {
    set labels | labels in lists :: CanonicalKey(labels)
  }

  /** The IDs from 1 on, without a gap, stand for these keys, and all of them are pending. */
  ghost predicate GivenOut(r: State, keys: set<Str>) {
    && r.nextID == 1 + |keys| && r.byKey.Keys == keys
    && (forall id :: id in r.names <==> 1 <= id < r.nextID) && r.pending == r.names
  }

  lemma ResolveGives(r: State, keys: set<Str>, labels: seq<Label>)
    requires GivenOut(r, keys)
    ensures GivenOut(Resolved(r, labels), keys + {CanonicalKey(labels)})
  {
    hide SortedLabels, CanonicalKey, Register;
    assert r.byKey.Keys == keys;
    if CanonicalKey(labels) in keys {
      assert keys + {CanonicalKey(labels)} == keys;
    } else {
      hide GivenOut;
      RegisterGives(r, keys, labels);
    }
  }

  lemma RegisterGives(r: State, keys: set<Str>, labels: seq<Label>)
    requires GivenOut(r, keys) && CanonicalKey(labels) !in keys
    ensures GivenOut(Register(r, labels), keys + {CanonicalKey(labels)})
  {
    hide SortedLabels, CanonicalKey;
    NextName(r.names, r.nextID, SortedLabels(labels));
    NextKey(r.byKey, CanonicalKey(labels), r.nextID);
    var r' := Register(r, labels);
    hide *;
    GivenOutOf(r', keys + {CanonicalKey(labels)});
  }

  lemma GivenOutOf(r: State, keys: set<Str>)
    requires r.nextID == 1 + |keys| && r.byKey.Keys == keys && r.pending == r.names
    requires forall id :: id in r.names <==> 1 <= id < r.nextID
    ensures GivenOut(r, keys)
  {
  }

  lemma NextName(names: map<SeriesId, seq<Label>>, n: SeriesId, labels: seq<Label>)
    requires n > 0 && forall id :: id in names <==> 1 <= id < n
    ensures var more := names[n := labels]; forall id :: id in more <==> 1 <= id < n + 1
  {
  }

  lemma NextKey(byKey: map<Str, SeriesId>, k: Str, n: SeriesId)
    requires k !in byKey
    ensures byKey[k := n].Keys == byKey.Keys + {k} && |byKey.Keys + {k}| == |byKey.Keys| + 1
  {
  }

  lemma KeysOfOneMore(lists: seq<seq<Label>>)
    requires lists != []
    ensures KeysOf(lists) == KeysOf(lists[..|lists| - 1]) + {CanonicalKey(lists[|lists| - 1])}
  {
    hide CanonicalKey;
    var init, labels := lists[..|lists| - 1], lists[|lists| - 1];
    assert lists == init + [labels];
  }

  /** A new registry gives out the IDs from 1 on, one for each different key, whatever lists it is asked for. */
  lemma {:induction false} FirstIDs(lists: seq<seq<Label>>)
    ensures GivenOut(ResolvedAll(EMPTY, lists), KeysOf(lists))
  {
    if lists != [] {
      hide GivenOut, KeysOf, Resolved;
      FirstIDs(lists[..|lists| - 1]);
      KeysOfOneMore(lists);
      ResolveGives(ResolvedAll(EMPTY, lists[..|lists| - 1]), KeysOf(lists[..|lists| - 1]), lists[|lists| - 1]);
    }
  }

  // ---------- the inverted index ----------

  predicate HasKey(labels: seq<Label>, k: Str) {
    exists l :: l in labels && LabelKey(l.name, l.value) == k
  }

  predicate Has(inv: Inverted, day: Day, k: Str, id: SeriesId) {
    day in inv && k in inv[day] && id in inv[day][k]
  }

  function AddKeys(m: map<Str, set<SeriesId>>, id: SeriesId, labels: seq<Label>): map<Str, set<SeriesId>>
    decreases |labels|
  {
    if labels == [] then m
    else
      var k := LabelKey(labels[0].name, labels[0].value);
      AddKeys(m[k := (if k in m then m[k] else {}) + {id}], id, labels[1..])
  }

  /** addInvertedLocked. */
  function AddInverted(inv: Inverted, day: Day, id: SeriesId, labels: seq<Label>): Inverted {
    inv[day := AddKeys(if day in inv then inv[day] else map[], id, labels)]
  }

  lemma {:induction false} AddKeysHas(m: map<Str, set<SeriesId>>, id: SeriesId, labels: seq<Label>, k: Str, i: SeriesId)
    ensures var m' := AddKeys(m, id, labels);
            k in m' && i in m'[k] <==> (k in m && i in m[k]) || (i == id && HasKey(labels, k))
    decreases |labels|
  {
    if labels != [] {
      var k0 := LabelKey(labels[0].name, labels[0].value);
      AddKeysHas(m[k0 := (if k0 in m then m[k0] else {}) + {id}], id, labels[1..], k, i);
      assert HasKey(labels, k) <==> k == k0 || HasKey(labels[1..], k) by {
        assert labels == [labels[0]] + labels[1..];
        assert labels[0] in labels;
      }
    }
  }

  lemma AddInvertedHas(inv: Inverted, day: Day, id: SeriesId, labels: seq<Label>, d: Day, k: Str, i: SeriesId)
    ensures Has(AddInverted(inv, day, id, labels), d, k, i)
            <==> Has(inv, d, k, i) || (d == day && i == id && HasKey(labels, k))
  {
    AddKeysHas(if day in inv then inv[day] else map[], id, labels, k, i);
  }

  function LabelsOf(r: State, id: SeriesId): seq<Label> {
    if id in r.names then r.names[id] else []
  }

  function IndexedForDay(r: State, day: Day, id: SeriesId): State {
    r.(inverted := AddInverted(r.inverted, day, id, LabelsOf(r, id)))
  }

  predicate Persisted(r: State, day: Day, id: SeriesId) {
    day in r.persisted && id in r.persisted[day]
  }

  function Unindexed(r: State, day: Day, ids: set<SeriesId>): set<SeriesId> {
    set id | id in ids && !Persisted(r, day, id)
  }

  function Marked(r: State, day: Day, ids: set<SeriesId>): State {
    if ids == {} then r
    else r.(persisted := r.persisted[day := (if day in r.persisted then r.persisted[day] else {}) + ids])
  }

  function Dropped(r: State, day: Day): State {
    r.(inverted := r.inverted - {day}, persisted := r.persisted - {day})
  }

  /** id is indexed on day under every label it has. */
  ghost predicate IndexedOn(r: State, day: Day, id: SeriesId) {
    id in r.names && forall l :: l in r.names[id] ==> Has(r.inverted, day, LabelKey(l.name, l.value), id)
  }

  /** Every index entry is under a label of its series, and the series is indexed that day under all
      of its labels. */
  ghost predicate WellIndexed(r: State) {
    forall d, k, i :: Has(r.inverted, d, k, i) ==> IndexedOn(r, d, i) && HasKey(r.names[i], k)
  }

  lemma IndexKeeps(r: State, day: Day, id: SeriesId)
    requires WellIndexed(r)
    ensures var r' := IndexedForDay(r, day, id);
            && WellIndexed(r')
            && (id in r.names ==> IndexedOn(r', day, id))
            && (forall d, i :: IndexedOn(r, d, i) ==> IndexedOn(r', d, i))
  {
    hide AddInverted, Has;
    var r' := IndexedForDay(r, day, id);
    forall d, k, i {
      AddInvertedHas(r.inverted, day, id, LabelsOf(r, id), d, k, i);
    }
    assert forall l :: l in LabelsOf(r, id) ==> HasKey(LabelsOf(r, id), LabelKey(l.name, l.value));
  }

  // ---------- Match ----------

  /** The IDs indexed under k on some day. */
  function Candidates(inv: Inverted, k: Str): set<SeriesId> {
    set d, i | d in inv && k in inv[d] && i in inv[d][k] :: i
  }

  function Matching(inv: Inverted, matchers: seq<Matcher>): set<SeriesId>
    requires matchers != []
  {
    var c := Candidates(inv, LabelKey(matchers[0].name, matchers[0].value));
    if |matchers| == 1 then c else c * Matching(inv, matchers[1..])
  }

  ghost predicate Satisfies(labels: seq<Label>, matchers: seq<Matcher>) {
    forall m :: m in matchers ==> Label(m.name, m.value) in labels
  }

  lemma {:induction false} MatchingIn(inv: Inverted, matchers: seq<Matcher>, id: SeriesId)
    requires matchers != []
    ensures id in Matching(inv, matchers) <==>
            forall m :: m in matchers ==> id in Candidates(inv, LabelKey(m.name, m.value))
  {
    hide Candidates;
    assert matchers == [matchers[0]] + matchers[1..];
    if |matchers| > 1 {
      MatchingIn(inv, matchers[1..], id);
    }
  }

  predicate CleanMatchers(matchers: seq<Matcher>) {
    forall m :: m in matchers ==> NAME_VALUE_SEP !in m.name
  }

  lemma HasKeyOfLabel(labels: seq<Label>, m: Matcher)
    requires AllClean(labels) && NAME_VALUE_SEP !in m.name
    ensures HasKey(labels, LabelKey(m.name, m.value)) <==> Label(m.name, m.value) in labels
  {
    forall l | l in labels {
      LabelKeyInjective(l.name, l.value, m.name, m.value);
    }
    if Label(m.name, m.value) in labels {
      assert HasKey(labels, LabelKey(m.name, m.value));
    }
  }

  lemma MatchSound(r: State, matchers: seq<Matcher>, id: SeriesId)
    requires WellIndexed(r) && CleanNames(r) && CleanMatchers(matchers) && matchers != []
    requires id in Matching(r.inverted, matchers)
    ensures id in r.names && Satisfies(r.names[id], matchers) && exists d, k :: Has(r.inverted, d, k, id)
  {
    hide Matching;
    MatchingIn(r.inverted, matchers, id);
    forall m | m in matchers
      ensures id in r.names && Label(m.name, m.value) in r.names[id] && exists d, k :: Has(r.inverted, d, k, id)
    {
      var d :| d in r.inverted && Has(r.inverted, d, LabelKey(m.name, m.value), id);
      HasKeyOfLabel(r.names[id], m);
    }
    assert matchers[0] in matchers;
  }

  lemma MatchComplete(r: State, matchers: seq<Matcher>, id: SeriesId, day: Day)
    requires matchers != [] && IndexedOn(r, day, id) && Satisfies(r.names[id], matchers)
    ensures id in Matching(r.inverted, matchers)
  {
    hide Matching;
    MatchingIn(r.inverted, matchers, id);
    forall m | m in matchers ensures id in Candidates(r.inverted, LabelKey(m.name, m.value)) {
      assert Label(m.name, m.value) in r.names[id];
      assert Has(r.inverted, day, LabelKey(m.name, m.value), id);
    }
  }

  /** Although Match unions over the days separately for each matcher, its result is exactly the
      series indexed on some one day whose labels include every matcher. */
  lemma MatchIsExact(r: State, matchers: seq<Matcher>, id: SeriesId)
    requires WellIndexed(r) && CleanNames(r) && CleanMatchers(matchers) && matchers != []
    ensures id in Matching(r.inverted, matchers) <==>
            id in r.names && Satisfies(r.names[id], matchers) && exists d, k :: Has(r.inverted, d, k, id)
  {
    hide Matching, Has, Satisfies, CleanNames, CleanMatchers;
    if id in Matching(r.inverted, matchers) {
      MatchSound(r, matchers, id);
    }
    forall d, k | Has(r.inverted, d, k, id) && id in r.names && Satisfies(r.names[id], matchers)
      ensures id in Matching(r.inverted, matchers)
    {
      MatchComplete(r, matchers, id, d);
    }
  }

  // ---------- reopening ----------

  /** The registry after replaying forward records fwd and inverted records inv from nothing. */
  ghost predicate Replays(r: State, fwd: map<SeriesId, seq<Label>>, inv: map<Day, map<SeriesId, seq<Label>>>) {
    && Consistent(r) && r.names == fwd && r.pending == map[] && (r.nextID == 1 || r.nextID - 1 in fwd)
    && (forall d, k, i :: Has(r.inverted, d, k, i) <==> d in inv && i in inv[d] && HasKey(inv[d][i], k))
    && (forall d, i: SeriesId :: Persisted(r, d, i) <==> d in inv && i in inv[d])
  }

  /** What a registry writes: sorted labels, one ID per key. */
  ghost predicate Loadable(fwd: map<SeriesId, seq<Label>>) {
    && (forall id :: id in fwd ==> SortedLabels(fwd[id]) == fwd[id])
    && (forall a, b :: a in fwd && b in fwd && CanonicalKey(fwd[a]) == CanonicalKey(fwd[b]) ==> a == b)
  }

  /** LoadEntries on one record. */
  function Loaded(r: State, id: SeriesId, labels: seq<Label>): State {
    var sorted := SortedLabels(labels);
    var key := CanonicalKey(sorted);
    if key in r.byKey && r.byKey[key] == id then r
    else r.(names := r.names[id := sorted], byKey := r.byKey[key := id],
            nextID := if id >= r.nextID then id + 1 else r.nextID)
  }

  lemma LoadKeeps(r: State, fwd: map<SeriesId, seq<Label>>, id: SeriesId)
    requires Consistent(r) && Loadable(fwd) && id in fwd
    requires forall x :: x in r.names ==> x in fwd && r.names[x] == fwd[x]
    ensures var r' := Loaded(r, id, fwd[id]);
            && Consistent(r') && r'.names == r.names[id := fwd[id]]
            && r' == r.(names := r'.names, byKey := r'.byKey, nextID := r'.nextID)
            && (r'.nextID == r.nextID || (r'.nextID == id + 1 && id >= r.nextID))
  {
    hide SortedLabels, CanonicalKey;
    var key := CanonicalKey(fwd[id]);
    if key in r.byKey && r.byKey[key] == id {
      assert r.names[id := fwd[id]] == r.names;
    }
    assert key in r.byKey ==> r.byKey[key] == id;
  }

  /** Replaying a record twice changes nothing the second time. */
  lemma LoadIdempotent(r: State, id: SeriesId, labels: seq<Label>)
    ensures Loaded(Loaded(r, id, labels), id, labels) == Loaded(r, id, labels)
  {
  }

  function InvertedLoaded(r: State, day: Day, id: SeriesId, labels: seq<Label>): State {
    Marked(r.(inverted := AddInverted(r.inverted, day, id, labels)), day, {id})
  }

  /** Progress of a replay: forward records of ids read, inverted entries of done read. */
  ghost predicate ReplayedUpTo(r: State, fwd: map<SeriesId, seq<Label>>, ids: set<SeriesId>,
                               inv: map<Day, map<SeriesId, seq<Label>>>, done: iset<(Day, SeriesId)>)
  {
    && Consistent(r) && r.names.Keys == ids && ids <= fwd.Keys && r.pending == map[] && (r.nextID == 1 || r.nextID - 1 in ids)
    && (forall id :: id in ids ==> r.names[id] == fwd[id])
    && (forall d, k, i :: Has(r.inverted, d, k, i) <==> (d, i) in done && d in inv && i in inv[d] && HasKey(inv[d][i], k))
    && (forall d, i: SeriesId :: Persisted(r, d, i) <==> (d, i) in done && d in inv && i in inv[d])
  }

  lemma ReplayForward(r: State, fwd: map<SeriesId, seq<Label>>, ids: set<SeriesId>,
                      inv: map<Day, map<SeriesId, seq<Label>>>, id: SeriesId)
    requires Loadable(fwd) && id in fwd && ReplayedUpTo(r, fwd, ids, inv, iset{})
    ensures ReplayedUpTo(Loaded(r, id, fwd[id]), fwd, ids + {id}, inv, iset{})
  {
    hide Has, Consistent, Loaded;
    assert forall x :: x in r.names ==> x in fwd && r.names[x] == fwd[x];
    LoadKeeps(r, fwd, id);
  }

  lemma ReplayInverted(r: State, fwd: map<SeriesId, seq<Label>>, inv: map<Day, map<SeriesId, seq<Label>>>,
                       done: iset<(Day, SeriesId)>, day: Day, id: SeriesId)
    requires ReplayedUpTo(r, fwd, fwd.Keys, inv, done) && day in inv && id in inv[day]
    ensures ReplayedUpTo(InvertedLoaded(r, day, id, inv[day][id]), fwd, fwd.Keys, inv, done + iset{(day, id)})
  {
    hide Has, HasKey;
    var r' := InvertedLoaded(r, day, id, inv[day][id]);
    forall d, k, i {
      AddInvertedHas(r.inverted, day, id, inv[day][id], d, k, i);
    }
    assert Consistent(r');
  }

  lemma ReplayStart(fwd: map<SeriesId, seq<Label>>, inv: map<Day, map<SeriesId, seq<Label>>>)
    ensures ReplayedUpTo(EMPTY, fwd, {}, inv, iset{})
  {
  }

  lemma ReadAll(r: State, fwd: map<SeriesId, seq<Label>>, read: set<SeriesId>,
                inv: map<Day, map<SeriesId, seq<Label>>>, ids: seq<SeriesId>)
    requires ReplayedUpTo(r, fwd, read, inv, iset{}) && ids == Ascending(fwd.Keys)
    requires forall j :: 0 <= j < |ids| ==> ids[j] in read
    ensures ReplayedUpTo(r, fwd, fwd.Keys, inv, iset{})
  {
    hide Has, HasKey, Consistent, Persisted;
    forall id | id in fwd ensures id in read {
      assert id in ids;
    }
    assert read == fwd.Keys;
  }

  lemma ReplayDone(r: State, fwd: map<SeriesId, seq<Label>>, inv: map<Day, map<SeriesId, seq<Label>>>,
                   done: iset<(Day, SeriesId)>)
    requires ReplayedUpTo(r, fwd, fwd.Keys, inv, done)
    requires forall d, i :: d in inv && i in inv[d] ==> (d, i) in done
    ensures Replays(r, fwd, inv)
  {
    hide Has, Consistent, Persisted, HasKey;
    assert r.names == fwd;
  }

  // ---------- the registry object ----------

  class Registry {
    var nextID: SeriesId
    var byKey: map<Str, SeriesId>
    var names: map<SeriesId, seq<Label>>
    var pending: map<SeriesId, seq<Label>>
    var invertedByDay: Inverted
    var persisted: map<Day, set<SeriesId>>

    function Get(): State
      reads this
    {
      State(nextID, byKey, names, pending, invertedByDay, persisted)
    }

    constructor ()
      ensures Get() == EMPTY
    {
      nextID, byKey, names, pending, invertedByDay, persisted := 1, map[], map[], map[], map[], map[];
    }

    method Resolve(labels: seq<Label>) returns (id: SeriesId)
      modifies this
      ensures Get() == Resolved(old(Get()), labels) && id == ResolvedId(old(Get()), labels)
    {
      var key := CanonicalKey(labels);
      if key in byKey {
        return byKey[key];
      }
      id := nextID;
      nextID := nextID + 1;
      byKey := byKey[key := id];
      var sorted := SortedLabels(labels);
      names := names[id := sorted];
      pending := pending[id := sorted];
    }

    method DrainPending() returns (out: map<SeriesId, seq<Label>>)
      modifies this
      ensures out == old(pending) && Get() == old(Get()).(pending := map[])
    {
      out := pending;
      pending := map[];
    }

    method TrackPending(entries: map<SeriesId, seq<Label>>)
      modifies this
      ensures Get() == old(Get()).(pending := old(pending) + entries)
    {
      pending := pending + entries;
    }

    method LoadEntry(id: SeriesId, labels: seq<Label>)
      modifies this
      ensures Get() == Loaded(old(Get()), id, labels)
    {
      var sorted := SortedLabels(labels);
      var key := CanonicalKey(sorted);
      if key in byKey && byKey[key] == id {
        return;
      }
      names := names[id := sorted];
      byKey := byKey[key := id];
      if id >= nextID {
        nextID := id + 1;
      }
    }

    method AddInvertedLocked(day: Day, id: SeriesId, labels: seq<Label>)
      modifies this
      ensures Get() == old(Get()).(inverted := AddInverted(old(invertedByDay), day, id, labels))
    {
      var inv := if day in invertedByDay then invertedByDay[day] else map[];
      ghost var inv0 := inv;
      var i := 0;
      while i < |labels|
        invariant 0 <= i <= |labels|
        invariant AddKeys(inv, id, labels[i..]) == AddKeys(inv0, id, labels)
      {
        var k := LabelKey(labels[i].name, labels[i].value);
        assert labels[i..][1..] == labels[i + 1..];
        inv := inv[k := (if k in inv then inv[k] else {}) + {id}];
        i := i + 1;
      }
      invertedByDay := invertedByDay[day := inv];
    }

    method IndexForDay(day: Day, id: SeriesId)
      modifies this
      ensures Get() == IndexedForDay(old(Get()), day, id)
    {
      AddInvertedLocked(day, id, if id in names then names[id] else []);
    }

    method UnindexedIDs(day: Day, ids: set<SeriesId>) returns (out: set<SeriesId>)
      ensures out == Unindexed(Get(), day, ids)
    {
      var done := if day in persisted then persisted[day] else {};
      out := ids - done;
    }

    method MarkIndexed(day: Day, ids: set<SeriesId>)
      modifies this
      ensures Get() == Marked(old(Get()), day, ids)
    {
      if ids != {} {
        persisted := persisted[day := (if day in persisted then persisted[day] else {}) + ids];
      }
    }

    method LoadInvertedEntry(day: Day, id: SeriesId, labels: seq<Label>)
      modifies this
      ensures Get() == InvertedLoaded(old(Get()), day, id, labels)
    {
      AddInvertedLocked(day, id, labels);
      MarkIndexed(day, {id});
    }

    /** loadRegistry and loadInverted on an empty registry. */
    method Load(fwd: map<SeriesId, seq<Label>>, inv: map<Day, map<SeriesId, seq<Label>>>)
      requires Get() == EMPTY && Loadable(fwd)
      modifies this
      ensures Replays(Get(), fwd, inv)
    {
      hide *;
      var ids := Ascending(fwd.Keys);
      var i := 0;
      ghost var read: set<SeriesId> := {};
      ReplayStart(fwd, inv);
      while i < |ids|
        invariant 0 <= i <= |ids| && ReplayedUpTo(Get(), fwd, read, inv, iset{})
        invariant forall j :: 0 <= j < i ==> ids[j] in read
      {
        assert ids[i] in ids;
        ReplayForward(Get(), fwd, read, inv, ids[i]);
        LoadEntry(ids[i], fwd[ids[i]]);
        read := read + {ids[i]};
        i := i + 1;
      }
      ReadAll(Get(), fwd, read, inv, ids);
      LoadInverted(fwd, inv);
    }

    method LoadInverted(ghost fwd: map<SeriesId, seq<Label>>, inv: map<Day, map<SeriesId, seq<Label>>>)
      requires ReplayedUpTo(Get(), fwd, fwd.Keys, inv, iset{})
      modifies this
      ensures Replays(Get(), fwd, inv)
    {
      hide *;
      var days := Ascending(inv.Keys);
      ghost var done: iset<(Day, SeriesId)> := iset{};
      var i := 0;
      while i < |days|
        invariant 0 <= i <= |days| && ReplayedUpTo(Get(), fwd, fwd.Keys, inv, done)
        invariant forall k, x :: 0 <= k < i && x in inv[days[k]] ==> (days[k], x) in done
      {
        var day := days[i];
        assert day in inv.Keys;
        var ids := Ascending(inv[day].Keys);
        var j := 0;
        while j < |ids|
          invariant 0 <= j <= |ids| && ReplayedUpTo(Get(), fwd, fwd.Keys, inv, done)
          invariant forall k :: 0 <= k < j ==> (day, ids[k]) in done
          invariant forall k, x :: 0 <= k < i && x in inv[days[k]] ==> (days[k], x) in done
        {
          assert ids[j] in inv[day].Keys;
          ReplayInverted(Get(), fwd, inv, done, day, ids[j]);
          LoadInvertedEntry(day, ids[j], inv[day][ids[j]]);
          done := done + iset{(day, ids[j])};
          j := j + 1;
        }
        assert forall x :: x in inv[day] ==> x in ids;
        i := i + 1;
      }
      assert forall d :: d in inv ==> d in days;
      ReplayDone(Get(), fwd, inv, done);
    }

    method DropDay(day: Day)
      modifies this
      ensures Get() == Dropped(old(Get()), day)
    {
      invertedByDay := invertedByDay - {day};
      persisted := persisted - {day};
    }

    /** The IDs in ascending order, or none at all for an empty matcher list. */
    method Match(matchers: seq<Matcher>) returns (ids: seq<SeriesId>)
      ensures matchers == [] ==> ids == []
      ensures matchers != [] ==> forall id :: id in ids <==> id in Matching(invertedByDay, matchers)
      ensures forall i, j :: 0 <= i < j < |ids| ==> ids[i] < ids[j]
    {
      hide Candidates;
      var found: set<SeriesId> := {};
      var i := 0;
      while i < |matchers|
        invariant 0 <= i <= |matchers|
        invariant i > 0 ==> forall id :: id in found <==>
          forall m :: m in matchers[..i] ==> id in Candidates(invertedByDay, LabelKey(m.name, m.value))
        invariant i == 0 ==> found == {}
      {
        var cand := CandidatesOf(LabelKey(matchers[i].name, matchers[i].value));
        assert matchers[..i + 1] == matchers[..i] + [matchers[i]];
        if cand == {} {
          forall id ensures id !in Matching(invertedByDay, matchers) {
            MatchingIn(invertedByDay, matchers, id);
            assert matchers[i] in matchers;
          }
          return [];
        }
        found := if i == 0 then cand else found * cand;
        i := i + 1;
      }
      if matchers != [] {
        assert matchers[..i] == matchers;
        forall id {
          MatchingIn(invertedByDay, matchers, id);
        }
      }
      hide Matching;
      ids := Ascending(found);
    }

    method CandidatesOf(k: Str) returns (c: set<SeriesId>)
      ensures c == Candidates(invertedByDay, k)
    {
      var days := Ascending(invertedByDay.Keys);
      c := {};
      var i := 0;
      while i < |days|
        invariant 0 <= i <= |days|
        invariant forall id :: id in c <==> exists j :: 0 <= j < i && Has(invertedByDay, days[j], k, id)
      {
        var inv := invertedByDay[days[i]];
        if k in inv {
          c := c + inv[k];
        }
        i := i + 1;
      }
      forall id ensures id in c <==> id in Candidates(invertedByDay, k) {
        if id in Candidates(invertedByDay, k) {
          var d :| d in invertedByDay && Has(invertedByDay, d, k, id);
          assert d in days;
        }
      }
    }
  }
}
