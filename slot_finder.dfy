/**
 * The slot finder (`findNextAvailableSlot`): the earliest start at or after a
 * floor at which a window of the given duration overlaps no interval booked on
 * one resource's timeline.
 */
module SlotFinder {
  import opened Wrappers
  import opened Search
  import opened Domain

  /** The source's overlap test between the window [start, start + duration) and a booked entry. */
  predicate Conflicts(start: int, duration: int, e: Entry)
  {
    start < e.end && start + duration > e.start
  }

  function ConflictsAt(start: int, duration: int): Entry -> bool
  {
    (e: Entry) => Conflicts(start, duration, e)
  }

  /** No entry of the timeline conflicts with the window [start, start + duration). */
  ghost predicate Free(timeline: seq<Entry>, start: int, duration: int)
  {
    forall i :: 0 <= i < |timeline| ==> !Conflicts(start, duration, timeline[i])
  }

  /** The number of entries that end after `t`: the termination measure of the search. */
  function EndingAfter(timeline: seq<Entry>, t: int): nat
  {
    if |timeline| == 0 then 0
    else (if timeline[0].end > t then 1 else 0) + EndingAfter(timeline[1..], t)
  }

  /** Jumping from `t` to the end of an entry that ends after `t` strictly lowers the measure. */
  lemma {:induction false} EndingAfterDrops(timeline: seq<Entry>, t: int, i: nat)
    requires i < |timeline| && timeline[i].end > t
    ensures EndingAfter(timeline, timeline[i].end) < EndingAfter(timeline, t)
  {
    var u := timeline[i].end;
    if i == 0 {
      EndingAfterMonotone(timeline[1..], t, u);
    } else {
      EndingAfterDrops(timeline[1..], t, i - 1);
    }
  }

  lemma {:induction false} EndingAfterMonotone(timeline: seq<Entry>, t: int, u: int)
    requires t <= u
    ensures EndingAfter(timeline, u) <= EndingAfter(timeline, t)
  {
    if |timeline| > 0 {
      EndingAfterMonotone(timeline[1..], t, u);
    }
  }

  /** Every start from `t` up to the end of an entry that conflicts at `t` conflicts with that entry too. */
  lemma SkipIsSound(timeline: seq<Entry>, duration: int, t: int, i: nat)
    requires i < |timeline| && Conflicts(t, duration, timeline[i])
    ensures forall s :: t <= s < timeline[i].end ==> !Free(timeline, s, duration)
  {
    forall s | t <= s < timeline[i].end ensures !Free(timeline, s, duration) {
      assert Conflicts(s, duration, timeline[i]);
    }
  }

  /**
   * The start the source's search returns: from `earliest`, jump to the end of
   * the first conflicting entry in insertion order until nothing conflicts.
   */
  function Slot(timeline: seq<Entry>, duration: int, earliest: int): int
    decreases EndingAfter(timeline, earliest)
  {
    match FirstIndex(timeline, ConflictsAt(earliest, duration))
    case None => earliest
    case Some(i) =>
      EndingAfterDrops(timeline, earliest, i);
      Slot(timeline, duration, timeline[i].end)
  }

  /** The search returns the least conflict-free start at or after `earliest`. */
  lemma {:induction false} SlotIsLeastFree(timeline: seq<Entry>, duration: int, earliest: int)
    ensures Slot(timeline, duration, earliest) >= earliest
    ensures Free(timeline, Slot(timeline, duration, earliest), duration)
    ensures forall t :: earliest <= t < Slot(timeline, duration, earliest) ==> !Free(timeline, t, duration)
    decreases EndingAfter(timeline, earliest)
  {
    FirstIndexIsFirst(timeline, ConflictsAt(earliest, duration));
    match FirstIndex(timeline, ConflictsAt(earliest, duration))
    case None =>
    case Some(i) =>
      EndingAfterDrops(timeline, earliest, i);
      SkipIsSound(timeline, duration, earliest, i);
      SlotIsLeastFree(timeline, duration, timeline[i].end);
  }

  /** The three properties of Slot determine it: any start that has them is Slot's result. */
  lemma SlotUnique(timeline: seq<Entry>, duration: int, earliest: int, s: int)
    requires s >= earliest && Free(timeline, s, duration)
    requires forall t :: earliest <= t < s ==> !Free(timeline, t, duration)
    ensures s == Slot(timeline, duration, earliest)
  {
    SlotIsLeastFree(timeline, duration, earliest);
  }

  /** Searching again from the returned start returns it unchanged. */
  lemma SlotIdempotent(timeline: seq<Entry>, duration: int, earliest: int)
    ensures Slot(timeline, duration, Slot(timeline, duration, earliest)) == Slot(timeline, duration, earliest)
  {
    var r := Slot(timeline, duration, earliest);
    SlotIsLeastFree(timeline, duration, earliest);
    SlotUnique(timeline, duration, r, r);
  }

  /** A later floor never gives an earlier start. */
  lemma SlotMonotone(timeline: seq<Entry>, duration: int, e1: int, e2: int)
    requires e1 <= e2
    ensures Slot(timeline, duration, e1) <= Slot(timeline, duration, e2)
  {
    SlotIsLeastFree(timeline, duration, e1);
    SlotIsLeastFree(timeline, duration, e2);
  }
}
