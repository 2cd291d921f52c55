/**
 * The windowed slot scan shared by `scheduling.find_available_slots` and
 * `JSONAgentCalendar.find_available_slots`, written once as a specification over an
 * availability test `free`. For each range in order, a cursor starts at the range's
 * start and advances in steps of 15 minutes while a slot of `duration` still fits
 * before the range's end; a cursor instant that `free` accepts is collected, and the
 * scan stops as soon as `count` instants are collected.
 */
module SlotScan {
  import opened Models
  import opened Seqs

  /** The cursor increment: `timedelta(minutes=15)`. */
  const Step: int := 15

  /** The cursor positions visited in one range, starting at `from`, in scan order. */
  function RangeCandidates(from: Time, end: Time, duration: int): seq<Time>
    decreases end - duration - from
  {
    if from + duration <= end then [from] + RangeCandidates(from + Step, end, duration) else []
  }

  /** Every cursor position of the whole scan: the ranges in input order. */
  function Candidates(ranges: seq<TimeRange>, duration: int): seq<Time>
  {
    if ranges == [] then [] else RangeCandidates(ranges[0].start, ranges[0].end, duration) + Candidates(ranges[1..], duration)
  }

  /** The first `n` elements of `s`, all of them when there are fewer, none when `n <= 0`. */
  function Take(s: seq<Time>, n: int): seq<Time>
  {
    if n <= 0 then [] else if |s| <= n then s else s[..n]
  }

  /** What the scan returns: the first `count` free cursor positions, in scan order. */
  function FirstSlots(ranges: seq<TimeRange>, duration: int, count: int, free: Time -> bool): seq<Time>
  {
    Take(Keep(free, Candidates(ranges, duration)), count)
  }

  /** `t` is a cursor position of range `r`: a whole number of steps from its start, with the slot ending by the range's end. */
  predicate OnGrid(r: TimeRange, duration: int, t: Time)
  {
    r.start <= t && (t - r.start) % Step == 0 && t + duration <= r.end
  }

  predicate StrictlyIncreasing(s: seq<Time>)
  {
    forall i, j :: 0 <= i < j < |s| ==> s[i] < s[j]
  }

  // ---------------------------------------------------------------------------
  // Steps of the loop proofs

  /** Visiting the cursor instant `from` of a range whose positions `seen` were already visited. */
  lemma VisitStep(free: Time -> bool, seen: seq<Time>, from: Time, end: Time, duration: int, all: seq<Time>)
    requires from + duration <= end
    requires seen + RangeCandidates(from, end, duration) == all
    ensures (seen + [from]) + RangeCandidates(from + Step, end, duration) == all
    ensures Keep(free, seen + [from]) == Keep(free, seen) + (if free(from) then [from] else [])
  {
    var next := RangeCandidates(from + Step, end, duration);
    assert RangeCandidates(from, end, duration) == [from] + next;
    assert (seen + [from]) + next == seen + ([from] + next);
    KeepAppend(free, seen, [from]);
    assert Keep(free, [from]) == (if free(from) then [from] else []) + Keep(free, []);
  }

  /** The cursor stopped at `from` after visiting `seen`: what was collected is the scan of the range. */
  lemma RangeScanDone(free: Time -> bool, seen: seq<Time>, from: Time, end: Time, duration: int, all: seq<Time>, room: int)
    requires seen + RangeCandidates(from, end, duration) == all
    requires |Keep(free, seen)| <= room || Keep(free, seen) == []
    requires from + duration > end || |Keep(free, seen)| >= room
    ensures Keep(free, seen) == Take(Keep(free, all), room)
  {
    KeepAppend(free, seen, RangeCandidates(from, end, duration));
    if from + duration > end {
      assert seen + [] == seen;
    } else {
      TakeSaturated(Keep(free, seen), Keep(free, RangeCandidates(from, end, duration)), room);
    }
  }

  /** Once `count` instants are collected, nothing after them can be returned. */
  lemma TakeSaturated(collected: seq<Time>, later: seq<Time>, count: int)
    requires |collected| >= count
    requires |collected| <= count || collected == []
    ensures Take(collected + later, count) == collected
  {
  }

  /** The ranges before `i` gave `collected`; range `i` adds up to the remaining room. */
  lemma RangeScanAppend(ranges: seq<TimeRange>, i: int, duration: int, count: int, free: Time -> bool, collected: seq<Time>)
    requires 0 <= i < |ranges|
    requires collected == Take(Keep(free, Candidates(ranges[..i], duration)), count)
    requires |collected| < count
    ensures collected + Take(Keep(free, RangeCandidates(ranges[i].start, ranges[i].end, duration)), count - |collected|) == Take(Keep(free, Candidates(ranges[..i + 1], duration)), count)
  {
    var positions := RangeCandidates(ranges[i].start, ranges[i].end, duration);
    CandidatesOfOneMore(ranges, i, duration);
    var a := Keep(free, Candidates(ranges[..i], duration));
    var b := Keep(free, positions);
    KeepAppend(free, Candidates(ranges[..i], duration), positions);
    assert collected == a;
    TakeAfter(a, b, count);
  }

  /** The positions of the first `i + 1` ranges. */
  lemma CandidatesOfOneMore(ranges: seq<TimeRange>, i: int, duration: int)
    requires 0 <= i < |ranges|
    ensures Candidates(ranges[..i + 1], duration)
         == Candidates(ranges[..i], duration) + RangeCandidates(ranges[i].start, ranges[i].end, duration)
  {
    assert ranges[..i + 1] == ranges[..i] + [ranges[i]];
    CandidatesAppend(ranges[..i], [ranges[i]], duration);
    assert Candidates([ranges[i]], duration) == RangeCandidates(ranges[i].start, ranges[i].end, duration) + Candidates([], duration);
  }

  /** Taking `n` from `a + b` when `a` is shorter than `n`. */
  lemma TakeAfter(a: seq<Time>, b: seq<Time>, n: int)
    requires |a| < n
    ensures Take(a + b, n) == a + Take(b, n - |a|)
  {
  }

  /** The scan of the ranges before `i` is already full, so the scan of all ranges is the same. */
  lemma ScanFull(ranges: seq<TimeRange>, i: int, duration: int, count: int, free: Time -> bool, collected: seq<Time>)
    requires 0 <= i <= |ranges|
    requires collected == Take(Keep(free, Candidates(ranges[..i], duration)), count)
    requires |collected| >= count
    ensures collected == FirstSlots(ranges, duration, count, free)
  {
    var a := Keep(free, Candidates(ranges[..i], duration));
    assert |a| >= count;
    LaterRangesIgnoredOnceFull(ranges, i, duration, count, free);
  }

  // ---------------------------------------------------------------------------
  // Properties of the scan

  /** The cursor visits exactly the grid points of the range at which a slot still fits. */
  lemma {:induction false} RangeCandidatesAreGridPoints(from: Time, end: Time, duration: int, t: Time)
    ensures t in RangeCandidates(from, end, duration)
        <==> from <= t && (t - from) % Step == 0 && t + duration <= end
    decreases end - duration - from
  {
    if from + duration <= end {
      RangeCandidatesAreGridPoints(from + Step, end, duration, t);
      if from < t && (t - from) % Step == 0 {
        var q := (t - from) / Step;
        assert t - from == Step * q;
        assert q >= 1;
        assert t - (from + Step) == Step * (q - 1);
      }
      if from + Step <= t && (t - (from + Step)) % Step == 0 {
        var q := (t - (from + Step)) / Step;
        assert t - from == Step * (q + 1);
      }
    }
  }

  /** The positions of the whole scan are the grid points of the input ranges. */
  lemma {:induction false} CandidatesAreGridPoints(ranges: seq<TimeRange>, duration: int, t: Time)
    ensures t in Candidates(ranges, duration)
        <==> exists i :: 0 <= i < |ranges| && OnGrid(ranges[i], duration, t)
    decreases |ranges|
  {
    if ranges != [] {
      var head := RangeCandidates(ranges[0].start, ranges[0].end, duration);
      var tail := ranges[1..];
      RangeCandidatesAreGridPoints(ranges[0].start, ranges[0].end, duration, t);
      CandidatesAreGridPoints(tail, duration, t);
      assert Candidates(ranges, duration) == head + Candidates(tail, duration);
      assert t in head <==> OnGrid(ranges[0], duration, t);
      if i :| 0 <= i < |ranges| && OnGrid(ranges[i], duration, t) {
        if i > 0 {
          assert tail[i - 1] == ranges[i];
        }
      }
      if i :| 0 <= i < |tail| && OnGrid(tail[i], duration, t) {
        assert ranges[i + 1] == tail[i];
      }
    }
  }

  /** Concatenating range lists concatenates their positions. */
  lemma {:induction false} CandidatesAppend(a: seq<TimeRange>, b: seq<TimeRange>, duration: int)
    ensures Candidates(a + b, duration) == Candidates(a, duration) + Candidates(b, duration)
    decreases |a|
  {
    if a == [] {
      assert a + b == b;
    } else {
      assert (a + b)[0] == a[0];
      assert (a + b)[1..] == a[1..] + b;
      CandidatesAppend(a[1..], b, duration);
    }
  }

  /** At most `count` slots come back, and none when `count <= 0`. */
  lemma SlotCountBounded(ranges: seq<TimeRange>, duration: int, count: int, free: Time -> bool)
    ensures |FirstSlots(ranges, duration, count, free)| <= if count <= 0 then 0 else count
  {
  }

  /**
   * Every slot is an instant the availability test accepts, lying a whole number of
   * 15-minute steps after the start of some input range, with the whole duration
   * ending by that range's end.
   */
  lemma SlotsAreFreeGridPoints(ranges: seq<TimeRange>, duration: int, count: int, free: Time -> bool, t: Time)
    requires t in FirstSlots(ranges, duration, count, free)
    ensures free(t)
    ensures exists i :: 0 <= i < |ranges| && OnGrid(ranges[i], duration, t)
  {
    var all := Keep(free, Candidates(ranges, duration));
    assert t in all;
    KeepMembers(free, Candidates(ranges, duration));
    CandidatesAreGridPoints(ranges, duration, t);
  }

  /**
   * No free position is skipped: the slots are the free positions in scan order, cut
   * after `count` of them; when fewer than `count` come back, every free position did.
   */
  lemma SlotsArePrefixOfFreePositions(ranges: seq<TimeRange>, duration: int, count: int, free: Time -> bool)
    ensures var all := Keep(free, Candidates(ranges, duration));
      var slots := FirstSlots(ranges, duration, count, free);
      |slots| <= |all| && slots == all[..|slots|] && (|slots| < count ==> slots == all)
  {
  }

  /** Once the ranges before `i` have supplied `count` slots, the ranges from `i` on are never examined. */
  lemma LaterRangesIgnoredOnceFull(ranges: seq<TimeRange>, i: int, duration: int, count: int, free: Time -> bool)
    requires 0 <= i <= |ranges|
    requires |Keep(free, Candidates(ranges[..i], duration))| >= count
    ensures FirstSlots(ranges, duration, count, free) == FirstSlots(ranges[..i], duration, count, free)
  {
    assert ranges == ranges[..i] + ranges[i..];
    CandidatesAppend(ranges[..i], ranges[i..], duration);
    var early := Keep(free, Candidates(ranges[..i], duration));
    var late := Keep(free, Candidates(ranges[i..], duration));
    KeepAppend(free, Candidates(ranges[..i], duration), Candidates(ranges[i..], duration));
    if count > 0 {
      assert (early + late)[..count] == early[..count];
    }
  }

  /** A range too short for one slot (`start + duration > end`) contributes nothing. */
  lemma ShortRangeContributesNothing(ranges: seq<TimeRange>, i: int, duration: int, count: int, free: Time -> bool)
    requires 0 <= i < |ranges|
    requires ranges[i].start + duration > ranges[i].end
    ensures FirstSlots(ranges, duration, count, free) == FirstSlots(ranges[..i] + ranges[i + 1..], duration, count, free)
  {
    assert ranges == ranges[..i] + ([ranges[i]] + ranges[i + 1..]);
    CandidatesAppend(ranges[..i], [ranges[i]] + ranges[i + 1..], duration);
    CandidatesAppend([ranges[i]], ranges[i + 1..], duration);
    CandidatesAppend(ranges[..i], ranges[i + 1..], duration);
    assert RangeCandidates(ranges[i].start, ranges[i].end, duration) == [];
    assert Candidates([ranges[i]], duration)
        == RangeCandidates(ranges[i].start, ranges[i].end, duration) + Candidates([], duration);
    assert Candidates(ranges, duration) == Candidates(ranges[..i] + ranges[i + 1..], duration);
  }

  /** When no range has room for one slot, the scan visits no cursor position at all. */
  lemma {:induction false} NoRoomNoCandidates(ranges: seq<TimeRange>, duration: int)
    requires forall i :: 0 <= i < |ranges| ==> ranges[i].start + duration > ranges[i].end
    ensures Candidates(ranges, duration) == []
  {
    if ranges != [] {
      assert ranges[0].start + duration > ranges[0].end;
      NoRoomNoCandidates(ranges[1..], duration);
    }
  }

  /** An inverted or empty range yields no slot for a positive duration. */
  lemma InvertedRangeYieldsNothing(r: TimeRange, duration: int, count: int, free: Time -> bool)
    requires duration > 0 && r.end <= r.start
    ensures FirstSlots([r], duration, count, free) == []
  {
    assert Candidates([r], duration) == RangeCandidates(r.start, r.end, duration) + Candidates([], duration);
  }

  lemma {:induction false} RangeCandidatesIncrease(from: Time, end: Time, duration: int)
    ensures StrictlyIncreasing(RangeCandidates(from, end, duration))
    decreases end - duration - from
  {
    if from + duration <= end {
      var rest := RangeCandidates(from + Step, end, duration);
      RangeCandidatesIncrease(from + Step, end, duration);
      forall j | 0 <= j < |rest| ensures from < rest[j] {
        RangeCandidatesAreGridPoints(from + Step, end, duration, rest[j]);
      }
    }
  }

  lemma {:induction false} KeepIncreasing(free: Time -> bool, s: seq<Time>)
    requires StrictlyIncreasing(s)
    ensures StrictlyIncreasing(Keep(free, s))
    decreases |s|
  {
    if s != [] {
      var rest := Keep(free, s[1..]);
      KeepIncreasing(free, s[1..]);
      KeepMembers(free, s[1..]);
      forall j | 0 <= j < |rest| ensures s[0] < rest[j] {
        var k :| 0 <= k < |s[1..]| && s[1..][k] == rest[j];
        assert s[k + 1] == rest[j];
      }
    }
  }

  /** Within one range the slots come back in strictly increasing time order. */
  lemma SingleRangeSlotsIncrease(r: TimeRange, duration: int, count: int, free: Time -> bool)
    ensures StrictlyIncreasing(FirstSlots([r], duration, count, free))
  {
    var positions := RangeCandidates(r.start, r.end, duration);
    assert Candidates([r], duration) == positions + Candidates([], duration);
    assert Candidates([r], duration) == positions;
    RangeCandidatesIncrease(r.start, r.end, duration);
    KeepIncreasing(free, positions);
    TakeIncreasing(Keep(free, positions), count);
  }

  lemma TakeIncreasing(s: seq<Time>, n: int)
    requires StrictlyIncreasing(s)
    ensures StrictlyIncreasing(Take(s, n))
  {
  }
}
