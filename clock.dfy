/**
 * The simulation clock (`advanceTime`): after the clock moves from `prev` to
 * `cur`, every logged event whose start lies in [prev, cur) sets its unit's
 * status to the task's name and every event whose end lies there sets it back
 * to 'Available', in log order, the last write winning.
 */
module Clock {
  import opened Wrappers
  import opened Domain

  predicate InWindow(t: int, prev: int, cur: int)
  {
    prev <= t < cur
  }

  /** The event starts or ends within the window. */
  predicate Touches(e: Event, prev: int, cur: int)
  {
    InWindow(e.startTime, prev, cur) || InWindow(e.endTime, prev, cur)
  }

  /** A unit's status after one event of the window has been applied to it. */
  function NewStatus(status: string, e: Event, prev: int, cur: int): (s: string)
    ensures !Touches(e, prev, cur) ==> s == status
    ensures InWindow(e.endTime, prev, cur) ==> s == "Available"
    ensures InWindow(e.startTime, prev, cur) && !InWindow(e.endTime, prev, cur) ==> s == TaskName(e.task)
  {
    var started := if InWindow(e.startTime, prev, cur) then TaskName(e.task) else status;
    if InWindow(e.endTime, prev, cur) then "Available" else started
  }

  /** One iteration of the status loop: the unit `findResource` finds for the event, if any, is updated. */
  function ApplyEvent(eq: Equipment, e: Event, prev: int, cur: int): Equipment
  {
    match Locate(eq, e.resource)
    case None => eq
    case Some(loc) => WithStatus(eq, loc, NewStatus(At(eq, loc).status, e, prev, cur))
  }

  lemma ApplyEventStatusOnly(eq: Equipment, e: Event, prev: int, cur: int)
    ensures SameButStatus(ApplyEvent(eq, e, prev, cur), eq)
  {
    match Locate(eq, e.resource)
    case None =>
    case Some(loc) => WithStatusSameButStatus(eq, loc, NewStatus(At(eq, loc).status, e, prev, cur));
  }

  /** The registry after the status loop has gone over every event of `log`, in order. */
  function Advance(eq: Equipment, log: seq<Event>, prev: int, cur: int): Equipment
  {
    if |log| == 0 then eq
    else ApplyEvent(Advance(eq, log[..|log| - 1], prev, cur), log[|log| - 1], prev, cur)
  }

  /** The status loop one event further. */
  lemma AdvanceStep(eq: Equipment, log: seq<Event>, i: nat, prev: int, cur: int)
    requires i < |log|
    ensures Advance(eq, log[..i + 1], prev, cur) == ApplyEvent(Advance(eq, log[..i], prev, cur), log[i], prev, cur)
  {
    assert log[..i + 1][..i] == log[..i];
  }

  /** The clock changes statuses and nothing else. */
  lemma {:induction false} AdvanceStatusOnly(eq: Equipment, log: seq<Event>, prev: int, cur: int)
    ensures SameButStatus(Advance(eq, log, prev, cur), eq)
  {
    if |log| > 0 {
      var before := Advance(eq, log[..|log| - 1], prev, cur);
      AdvanceStatusOnly(eq, log[..|log| - 1], prev, cur);
      ApplyEventStatusOnly(before, log[|log| - 1], prev, cur);
      SameButStatusTransitive(ApplyEvent(before, log[|log| - 1], prev, cur), before, eq);
    }
  }

  /** The clock keeps the registry well formed and keeps its ids. */
  lemma AdvanceKeeps(eq: Equipment, log: seq<Event>, prev: int, cur: int)
    ensures WellFormed(Advance(eq, log, prev, cur)) == WellFormed(eq)
    ensures Ids(Advance(eq, log, prev, cur)) == Ids(eq)
  {
    AdvanceStatusOnly(eq, log, prev, cur);
    SameButStatusKeeps(Advance(eq, log, prev, cur), eq);
  }

  /** The clock moves no unit: `findResource` finds the same place before and after. */
  lemma AdvanceLocate(eq: Equipment, log: seq<Event>, prev: int, cur: int, id: ResourceId)
    ensures Locate(Advance(eq, log, prev, cur), id) == Locate(eq, id)
  {
    AdvanceStatusOnly(eq, log, prev, cur);
    SameButStatusKeeps(Advance(eq, log, prev, cur), eq);
    LocateLayout(Advance(eq, log, prev, cur), eq, id);
  }

  lemma {:induction false} AdvanceAppend(eq: Equipment, a: seq<Event>, b: seq<Event>, prev: int, cur: int)
    ensures Advance(eq, a + b, prev, cur) == Advance(Advance(eq, a, prev, cur), b, prev, cur)
    decreases |b|
  {
    if |b| == 0 {
      assert a + b == a;
    } else {
      var e := b[|b| - 1];
      assert (a + b)[..|a + b| - 1] == a + b[..|b| - 1];
      assert (a + b)[|a + b| - 1] == e;
      AdvanceAppend(eq, a, b[..|b| - 1], prev, cur);
      calc {
        Advance(eq, a + b, prev, cur);
        ApplyEvent(Advance(eq, a + b[..|b| - 1], prev, cur), e, prev, cur);
        ApplyEvent(Advance(Advance(eq, a, prev, cur), b[..|b| - 1], prev, cur), e, prev, cur);
      }
    }
  }

  /** A unit that no event of the window touches keeps its status. */
  lemma {:induction false} AdvanceUntouched(eq: Equipment, log: seq<Event>, prev: int, cur: int, loc: Location)
    requires ValidLocation(eq, loc)
    requires forall i :: 0 <= i < |log| && log[i].resource == At(eq, loc).id ==> !Touches(log[i], prev, cur)
    ensures ValidLocation(Advance(eq, log, prev, cur), loc)
      && At(Advance(eq, log, prev, cur), loc).status == At(eq, loc).status
  {
    if |log| > 0 {
      var before := Advance(eq, log[..|log| - 1], prev, cur);
      AdvanceUntouched(eq, log[..|log| - 1], prev, cur, loc);
      AdvanceStatusOnly(eq, log[..|log| - 1], prev, cur);
      var e := log[|log| - 1];
      assert At(before, loc).id == At(eq, loc).id by {
        assert Group(before, loc.kind)[loc.index] == Group(eq, loc.kind)[loc.index].(status := Group(before, loc.kind)[loc.index].status);
      }
      match Locate(before, e.resource)
      case None =>
      case Some(l2) =>
        if l2 == loc {
          assert e.resource == At(eq, loc).id;
        }
    }
  }

  /**
   * Last write wins: the status of the unit that `findResource` finds for
   * `id` is decided by the last event of the log on `id` that touches the
   * window: 'Available' if that event ends in the window, its task otherwise.
   */
  lemma AdvanceLastWins(eq: Equipment, log: seq<Event>, prev: int, cur: int, id: ResourceId, m: nat)
    requires Locate(eq, id).Some?
    requires m < |log| && log[m].resource == id && Touches(log[m], prev, cur)
    requires forall i :: m < i < |log| && log[i].resource == id ==> !Touches(log[i], prev, cur)
    ensures var loc := Locate(eq, id).value;
      && ValidLocation(Advance(eq, log, prev, cur), loc)
      && At(Advance(eq, log, prev, cur), loc).status
        == if InWindow(log[m].endTime, prev, cur) then "Available" else TaskName(log[m].task)
  {
    var loc := Locate(eq, id).value;
    var head, tail := log[..m + 1], log[m + 1..];
    assert log == head + tail;
    assert head[|head| - 1] == log[m];
    AdvanceAppend(eq, head, tail, prev, cur);
    WrittenLast(eq, head, prev, cur, id);
    var mid := Advance(eq, head, prev, cur);
    assert At(mid, loc).status == if InWindow(log[m].endTime, prev, cur) then "Available" else TaskName(log[m].task);
    UntouchedAfter(log, m, tail, id, prev, cur);
    AdvanceUntouched(mid, tail, prev, cur, loc);
  }

  /** The suffix after position `m` holds no event on `id` that touches the window when the log has none after `m`. */
  lemma UntouchedAfter(log: seq<Event>, m: nat, tail: seq<Event>, id: ResourceId, prev: int, cur: int)
    requires m < |log| && tail == log[m + 1..]
    requires forall i :: m < i < |log| && log[i].resource == id ==> !Touches(log[i], prev, cur)
    ensures forall i :: 0 <= i < |tail| && tail[i].resource == id ==> !Touches(tail[i], prev, cur)
  {
    forall i | 0 <= i < |tail| && tail[i].resource == id
      ensures !Touches(tail[i], prev, cur)
    {
      assert tail[i] == log[m + 1 + i];
    }
  }

  /** The event at the end of the log decides the status of its own unit. */
  lemma WrittenLast(eq: Equipment, log: seq<Event>, prev: int, cur: int, id: ResourceId)
    requires Locate(eq, id).Some? && |log| > 0 && log[|log| - 1].resource == id
    ensures var loc := Locate(eq, id).value;
      && ValidLocation(Advance(eq, log, prev, cur), loc)
      && At(Advance(eq, log, prev, cur), loc).id == id
      && At(Advance(eq, log, prev, cur), loc).status
        == NewStatus(At(Advance(eq, log[..|log| - 1], prev, cur), loc).status, log[|log| - 1], prev, cur)
  {
    var before := Advance(eq, log[..|log| - 1], prev, cur);
    AdvanceLocate(eq, log[..|log| - 1], prev, cur, id);
    ApplyEventAt(before, log[|log| - 1], prev, cur, Locate(eq, id).value);
  }

  lemma ApplyEventAt(eq: Equipment, e: Event, prev: int, cur: int, loc: Location)
    requires Locate(eq, e.resource) == Some(loc)
    ensures ValidLocation(ApplyEvent(eq, e, prev, cur), loc)
      && At(ApplyEvent(eq, e, prev, cur), loc).id == e.resource
      && At(ApplyEvent(eq, e, prev, cur), loc).status == NewStatus(At(eq, loc).status, e, prev, cur)
  {
  }

  /**
   * A single Brewing event [0, 8) on a unit,
   * then advancing by 1 and by 10 hours, leaves that unit 'Available'.
   */
  lemma BrewingThenAvailable(eq: Equipment, id: ResourceId, product: Label)
    requires Locate(eq, id).Some?
    ensures var log := [Event(0, 8, Brewing, id, product)];
      && ValidLocation(Advance(Advance(eq, log, 0, 1), log, 1, 11), Locate(eq, id).value)
      && At(Advance(Advance(eq, log, 0, 1), log, 1, 11), Locate(eq, id).value).status == "Available"
  {
    var log := [Event(0, 8, Brewing, id, product)];
    var first := Advance(eq, log, 0, 1);
    AdvanceLocate(eq, log, 0, 1, id);
    AdvanceLastWins(first, log, 1, 11, id, 0);
  }
}
