/** What a flush and a merge make of one day: its part list, its next part ID, its directories and its
    manifest, before and after. */
module DayTurns {
  import opened Contents
  import E = Engine
  import opened EnginePaths
  import opened Part
  import P = Partitions
  import opened SortedIds

  /** A day: the partition object and the directory. */
  datatype DayState = DayState(live: E.Partition, dd: E.DayDir)

  /** Day d in state s; a day that is not open is as a new one. */
  function DayOn(s: E.Sys, d: Day): DayState {
    if d in s.partitions then DayState(s.partitions[d], E.DirOf(s.disk, d)) else DayState(E.Partition({}, 1), E.NEW_DIR)
  }

  function SmallIn(a: DayState): set<PartId> {
    E.SmallParts(a.dd, a.live)
  }

  // ---------- one call on one day ----------

  /** addPart: the part has the next ID, and is listed in memory and in the manifest. */
  function WithPart(a: DayState, part: PartDir): DayState {
    var n, parts := a.live.nextID, a.live.parts + {a.live.nextID};
    DayState(E.Partition(parts, n + 1), E.DayDir(a.dd.dirs[n := part], a.dd.staging, parts))
  }

  /** addPart whose manifest could not be saved: the part is listed in memory only. */
  function WithUnsaved(a: DayState, part: PartDir): DayState {
    var n := a.live.nextID;
    DayState(E.Partition(a.live.parts + {n}, n + 1), a.dd.(dirs := a.dd.dirs[n := part]))
  }

  /** A part ID has been taken in vain. */
  function Taken(a: DayState): DayState {
    a.(live := a.live.(nextID := a.live.nextID + 1))
  }

  /** How one day of a flush ended. */
  ghost predicate AddsTo(a: DayState, data: Series, r: P.Outcome, b: DayState) {
    if r == P.Unstaged then b == a || b == Taken(a)
    else exists sorted :: Sorts(sorted, data) &&
                          b == if r == P.Done then WithPart(a, PartDir(sorted, Small)) else WithUnsaved(a, PartDir(sorted, Small))
  }

  /** mergeParts on all small parts: one big part with all they held takes their place; or its ID is taken in
      vain; or it is there but the manifest is as it was. */
  ghost predicate MergesTo(a: DayState, r: P.Outcome, b: DayState) {
    var n, small := a.live.nextID, SmallIn(a);
    exists merged: Series, sorted: Series ::
      && E.MergesInto(small, a.dd.dirs, merged) && Sorts(sorted, merged)
      && var dirs, parts := a.dd.dirs[n := PartDir(sorted, Big)], a.live.parts - small + {n};
         b == if r == P.Unstaged then Taken(a)
              else if r == P.Unsaved then Taken(a).(dd := a.dd.(dirs := dirs))
              else DayState(E.Partition(parts, n + 1), E.DayDir(dirs - small, a.dd.staging, parts))
  }

  /** compactPartition. */
  ghost predicate Compacts(a: DayState, min: nat, r: P.Outcome, b: DayState) {
    if |SmallIn(a)| < min then b == a else MergesTo(a, r, b)
  }

  /** One day of a flush that has gone through: a small part, and then a merge if there are now min small
      parts. A merge that fails does not fail the flush. */
  ghost predicate FlushesTo(a: DayState, data: Series, min: nat, b: DayState) {
    exists mid: DayState, r: P.Outcome ::
      AddsTo(a, data, P.Done, mid) && (r == P.Done || r == P.Unstaged || r == P.Unsaved) && Compacts(mid, min, r, b)
  }

  ghost predicate FreshId(a: DayState) {
    (forall n :: n in a.live.parts ==> n < a.live.nextID) && forall n :: n in a.dd.dirs ==> n < a.live.nextID
  }

  lemma SmallAdded(a: DayState, part: PartDir)
    requires FreshId(a) && part.tier == Small
    ensures SmallIn(WithPart(a, part)) == SmallIn(a) + {a.live.nextID} && a.live.nextID !in SmallIn(a)
    ensures FreshId(WithPart(a, part))
  {
  }

  lemma SmallMerged(a: DayState, r: P.Outcome, b: DayState)
    requires FreshId(a) && MergesTo(a, r, b)
    ensures b.live.nextID == a.live.nextID + 1
    ensures SmallIn(b) == if r == P.Unstaged || r == P.Unsaved then SmallIn(a) else {}
  {
    hide E.MergesInto, Sorts;
    var n, small := a.live.nextID, SmallIn(a);
    var merged: Series, sorted: Series :|
      && E.MergesInto(small, a.dd.dirs, merged) && Sorts(sorted, merged)
      && var dirs, parts := a.dd.dirs[n := PartDir(sorted, Big)], a.live.parts - small + {n};
         b == if r == P.Unstaged then Taken(a)
              else if r == P.Unsaved then Taken(a).(dd := a.dd.(dirs := dirs))
              else DayState(E.Partition(parts, n + 1), E.DayDir(dirs - small, a.dd.staging, parts));
  }

  /** What a flush does to the number of parts of a day that had k small ones: with k + 1 below the threshold it
      takes one ID and adds one small part. From the threshold on it takes two, the second for the merge, and
      then no small part is left, or, if the merge failed, the old ones and the new one are. */
  lemma FlushMerges(a: DayState, data: Series, min: nat, b: DayState)
    requires FreshId(a) && FlushesTo(a, data, min, b)
    ensures var k, n := |SmallIn(a)|, a.live.nextID;
            if k + 1 < min then b.live.nextID == n + 1 && SmallIn(b) == SmallIn(a) + {n} && b.live.parts == a.live.parts + {n}
            else b.live.nextID == n + 2 && (SmallIn(b) == {} || SmallIn(b) == SmallIn(a) + {n})
  {
    hide MergesTo, SmallIn, Sorts;
    var mid: DayState, r: P.Outcome :|
      AddsTo(a, data, P.Done, mid) && (r == P.Done || r == P.Unstaged || r == P.Unsaved) && Compacts(mid, min, r, b);
    var sorted :| Sorts(sorted, data) && mid == WithPart(a, PartDir(sorted, Small));
    SmallAdded(a, PartDir(sorted, Small));
    if |SmallIn(mid)| >= min {
      SmallMerged(mid, r, b);
    }
  }

  // ---------- all days ----------

  ghost predicate DayKept(s: E.Sys, s': E.Sys, d: Day) {
    (d in s'.partitions <==> d in s.partitions) && DayOn(s', d) == DayOn(s, d)
  }

  ghost predicate OthersKept(s: E.Sys, s': E.Sys, day: Day) {
    forall d :: d != day ==> DayKept(s, s', d)
  }

  /** The published days have gone through the flush of batch, and every other day but except is as it was. */
  ghost predicate FlushedDays(s0: E.Sys, s: E.Sys, batch: Series, published: set<Day>, min: nat, except: set<Day>) {
    && (forall d :: d in published ==> d in s.partitions && FlushesTo(DayOn(s0, d), DayPart(batch, d), min, DayOn(s, d)))
    && forall d :: d !in published && d !in except ==> DayKept(s0, s, d)
  }

  lemma OneMoreFlushed(s0: E.Sys, s: E.Sys, batch: Series, published: set<Day>, min: nat, day: Day, s': E.Sys)
    requires FlushedDays(s0, s, batch, published, min, {}) && day !in published && OthersKept(s, s', day)
    requires day in s'.partitions && FlushesTo(DayOn(s, day), DayPart(batch, day), min, DayOn(s', day))
    ensures FlushedDays(s0, s', batch, published + {day}, min, {})
  {
    hide FlushesTo, DayOn, DayPart;
    assert DayKept(s0, s, day);
    forall d | d in published + {day} ensures d in s'.partitions && FlushesTo(DayOn(s0, d), DayPart(batch, d), min, DayOn(s', d)) {
      assert d != day ==> DayKept(s, s', d) && d in published;
    }
    forall d | d !in published + {day} ensures DayKept(s0, s', d) {
      assert DayKept(s0, s, d) && DayKept(s, s', d);
    }
  }

  lemma OneFailed(s0: E.Sys, s: E.Sys, batch: Series, published: set<Day>, min: nat, day: Day, s': E.Sys)
    requires FlushedDays(s0, s, batch, published, min, {}) && day !in published && OthersKept(s, s', day)
    ensures FlushedDays(s0, s', batch, published, min, {day}) && DayOn(s, day) == DayOn(s0, day)
  {
    hide FlushesTo, DayOn, DayPart;
    assert DayKept(s0, s, day);
    forall d | d in published ensures d in s'.partitions && FlushesTo(DayOn(s0, d), DayPart(batch, d), min, DayOn(s', d)) {
      assert d != day ==> DayKept(s, s', d) && d in published;
    }
    forall d | d !in published && d !in {day} ensures DayKept(s0, s', d) {
      assert DayKept(s0, s, d) && DayKept(s, s', d);
    }
  }

  lemma NoneFlushed(s: E.Sys, batch: Series, min: nat)
    ensures FlushedDays(s, s, batch, {}, min, {})
  {
    hide FlushesTo, DayOn, DayPart;
  }

  lemma SameFlushed(s0: E.Sys, t0: E.Sys, s: E.Sys, batch: Series, published: set<Day>, min: nat, except: set<Day>)
    requires FlushedDays(t0, s, batch, published, min, except) && t0.partitions == s0.partitions && t0.disk.days == s0.disk.days
    ensures FlushedDays(s0, s, batch, published, min, except)
    ensures forall d :: DayOn(t0, d) == DayOn(s0, d)
  {
    hide FlushesTo, DayPart;
    assert forall d :: DayOn(t0, d) == DayOn(s0, d);
  }

  // ---------- the paths of the machine ----------

  lemma SameSys(s: E.Sys, s': E.Sys)
    requires s'.partitions == s.partitions && s'.disk.days == s.disk.days
    ensures forall d :: DayKept(s, s', d)
  {
  }

  lemma AddedTurn(s: E.Sys, d: Day, data: Series, sorted: Series, r: P.Outcome, s': E.Sys)
    requires d in s.partitions && d in s.disk.days && Sorts(sorted, data) && (r == P.Done || r == P.Unstaged || r == P.Unsaved)
    requires s' == if r == P.Unstaged then IdTaken(s, d)
                   else if r == P.Done then PartAdded(s, d, PartDir(sorted, Small))
                   else PartUnsaved(s, d, PartDir(sorted, Small))
    ensures d in s'.partitions && OthersKept(s, s', d) && AddsTo(DayOn(s, d), data, r, DayOn(s', d))
  {
    hide Sorts;
    var a, b := DayOn(s, d), DayOn(s', d);
    if r == P.Unstaged {
      assert b == Taken(a);
    } else if r == P.Done {
      assert b == WithPart(a, PartDir(sorted, Small));
    } else {
      assert b == WithUnsaved(a, PartDir(sorted, Small));
    }
  }

  lemma OpenedTurn(s: E.Sys, d: Day, live: E.Partition, s': E.Sys)
    requires d !in s.partitions && E.OpensAs(E.NEW_DIR, live) && s' == DayOpened(s, d, live)
    ensures OthersKept(s, s', d) && DayOn(s', d) == DayOn(s, d)
  {
  }

  /** The merge of one day, in terms of the whole state. */
  lemma MergedTurn(s: E.Sys, d: Day, r: P.Outcome, merged: Series, sorted: Series, s': E.Sys)
    requires d in s.partitions && d in s.disk.days
    requires var small := E.SmallParts(E.DirOf(s.disk, d), s.partitions[d]);
             && E.MergesInto(small, E.DirOf(s.disk, d).dirs, merged) && Sorts(sorted, merged)
             && s' == if r == P.Unstaged then IdTaken(s, d)
                      else if r == P.Unsaved then PartOrphaned(s, d, PartDir(sorted, Big))
                      else PartMerged(s, d, small, PartDir(sorted, Big))
    ensures d in s'.partitions && OthersKept(s, s', d) && MergesTo(DayOn(s, d), r, DayOn(s', d))
  {
    hide E.MergesInto, Sorts, E.SmallParts;
  }

  lemma TurnsJoin(s: E.Sys, t: E.Sys, u: E.Sys, day: Day)
    requires OthersKept(s, t, day) && OthersKept(t, u, day)
    ensures OthersKept(s, u, day)
  {
    hide DayOn;
    forall d | d != day ensures DayKept(s, u, d) {
      assert DayKept(s, t, d) && DayKept(t, u, d);
    }
  }

  // ---------- a forced merge ----------

  /** The done days have been merged if they had two small parts, and every other day but except is as it was. */
  ghost predicate MergedDays(s0: E.Sys, s: E.Sys, done: set<Day>, except: set<Day>) {
    && (forall d :: d in done ==> d in s.partitions && Compacts(DayOn(s0, d), 2, P.Done, DayOn(s, d)))
    && forall d :: d !in done && d !in except ==> DayKept(s0, s, d)
  }

  lemma OneMoreMerged(s0: E.Sys, s: E.Sys, done: set<Day>, day: Day, s': E.Sys)
    requires MergedDays(s0, s, done, {}) && day !in done && OthersKept(s, s', day)
    requires day in s'.partitions && Compacts(DayOn(s, day), 2, P.Done, DayOn(s', day))
    ensures MergedDays(s0, s', done + {day}, {})
  {
    hide Compacts, DayOn;
    assert DayKept(s0, s, day);
    forall d | d in done + {day} ensures d in s'.partitions && Compacts(DayOn(s0, d), 2, P.Done, DayOn(s', d)) {
      assert d != day ==> DayKept(s, s', d) && d in done;
    }
    forall d | d !in done + {day} ensures DayKept(s0, s', d) {
      assert DayKept(s0, s, d) && DayKept(s, s', d);
    }
  }

  lemma OneUnmerged(s0: E.Sys, s: E.Sys, done: set<Day>, day: Day, s': E.Sys)
    requires MergedDays(s0, s, done, {}) && day !in done && OthersKept(s, s', day)
    ensures MergedDays(s0, s', done, {day}) && DayOn(s, day) == DayOn(s0, day)
  {
    hide Compacts, DayOn;
    assert DayKept(s0, s, day);
    forall d | d in done ensures d in s'.partitions && Compacts(DayOn(s0, d), 2, P.Done, DayOn(s', d)) {
      assert d != day ==> DayKept(s, s', d) && d in done;
    }
    forall d | d !in done && d !in {day} ensures DayKept(s0, s', d) {
      assert DayKept(s0, s, d) && DayKept(s, s', d);
    }
  }

  lemma NoneMerged(s: E.Sys)
    ensures MergedDays(s, s, {}, {})
  {
    hide Compacts, DayOn;
  }
}
