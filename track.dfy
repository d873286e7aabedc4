/** The bar-range query of a track (Track.cs, GetEventsInRange): sentinel
    bounds, a binary search over the bar-sorted events, then a forward scan. */
module Tracks {
  import opened Events

  /** `int.MaxValue`, which stands for "no upper bound". */
  const IntMax: int := 0x7fff_ffff

  /** A start bar of 1 or less means "from the beginning". */
  function NormaliseStart(start: int): (s: int)
    ensures s >= 1
    ensures start <= 1 ==> s == 1
    ensures start > 1 ==> s == start
  {
    if start <= 1 then 1 else start
  }

  /** An end bar of 0 or less means "to the end". */
  function NormaliseEnd(last: int): (e: int)
    ensures e >= 1
    ensures last <= 0 ==> e == IntMax
    ensures last > 0 ==> e == last
  {
    if last <= 0 then IntMax else last
  }

  ghost predicate SortedByBar(ev: seq<TimedEvent>) {
    forall i, j :: 0 <= i < j < |ev| ==> ev[i].core.bar <= ev[j].core.bar
  }

  /** No two events share a bar. */
  ghost predicate StrictlySortedByBar(ev: seq<TimedEvent>) {
    forall i, j :: 0 <= i < j < |ev| ==> ev[i].core.bar < ev[j].core.bar
  }

  predicate InRange(x: TimedEvent, s: int, e: int) {
    s <= x.core.bar <= e
  }

  /** What the doc comment of GetEventsInRange promises: the events whose bar
      lies in [s, e], in their original order. */
  function Filter(ev: seq<TimedEvent>, s: int, e: int): seq<TimedEvent> {
    if ev == [] then []
    else (if InRange(ev[0], s, e) then [ev[0]] else []) + Filter(ev[1..], s, e)
  }

  /** The forward scan from index i: events in range are kept, events below the
      range are passed over, and the first event beyond `e` ends the scan. */
  function Scan(ev: seq<TimedEvent>, i: nat, s: int, e: int): seq<TimedEvent>
    requires i <= |ev|
    decreases |ev| - i
  {
    if i == |ev| then []
    else if InRange(ev[i], s, e) then [ev[i]] + Scan(ev, i + 1, s, e)
    else if ev[i].core.bar > e then []
    else Scan(ev, i + 1, s, e)
  }

  /** The index at which the binary search leaves `pointer`, from the state
      (lowIndex, highIndex, pointer). It stops at the first probe whose bar is
      `s`, wherever that probe falls inside a run of events of bar `s`. */
  function Probe(ev: seq<TimedEvent>, s: int, lo: int, hi: int, ptr: int): (p: int)
    requires 0 <= lo && hi < |ev|
    requires 0 <= ptr && (ptr < |ev| || ptr == 0)
    ensures 0 <= p && (p < |ev| || p == 0)
    decreases hi - lo
  {
    if lo > hi then ptr
    else
      var mid := Mid(lo, hi);
      if ev[mid].core.bar < s then Probe(ev, s, mid + 1, hi, mid)
      else if ev[mid].core.bar > s then Probe(ev, s, lo, mid - 1, mid)
      else mid
  }

  /** Half of n, rounded down, by repeated subtraction: the proofs about the
      search then reason about halving without integer division. */
  function Half(n: nat): (h: nat)
    ensures 2 * h <= n < 2 * h + 2
  {
    if n < 2 then 0 else 1 + Half(n - 2)
  }

  /** The probe index `(lo + hi) / 2` of a non-empty range. */
  function Mid(lo: int, hi: int): (m: int)
    requires lo <= hi
    ensures lo <= m <= hi
  {
    lo + Half(hi - lo)
  }

  /** Mid is the average rounded down (C#'s `/` truncates, which agrees on
      non-negative operands). */
  lemma MidIsAverage(lo: int, hi: int)
    requires 0 <= lo <= hi
    ensures Mid(lo, hi) == (lo + hi) / 2
  {
    var h := Half(hi - lo);
    assert lo + hi == 2 * (lo + h) + (hi - lo - 2 * h);
  }

  /** One step of the search. */
  lemma ProbeStep(ev: seq<TimedEvent>, s: int, lo: int, hi: int, ptr: int)
    requires 0 <= lo <= hi < |ev|
    requires 0 <= ptr && (ptr < |ev| || ptr == 0)
    ensures var mid := Mid(lo, hi);
      Probe(ev, s, lo, hi, ptr) ==
        if ev[mid].core.bar < s then Probe(ev, s, mid + 1, hi, mid)
        else if ev[mid].core.bar > s then Probe(ev, s, lo, mid - 1, mid)
        else mid
  {
  }

  /** Where the search of GetEventsInRange leaves `pointer`. */
  function SearchPointer(ev: seq<TimedEvent>, s: int): (p: nat)
    ensures p <= |ev| && (|ev| > 0 ==> p < |ev|)
  {
    Probe(ev, s, 0, |ev| - 1, 0)
  }

  /** The list GetEventsInRange returns, as the code is written. */
  function QueryAsWritten(ev: seq<TimedEvent>, start: int, last: int): seq<TimedEvent> {
    var s, e := NormaliseStart(start), NormaliseEnd(last);
    Scan(ev, SearchPointer(ev, s), s, e)
  }

  /** The in-range events that lie before the search pointer and so are never
      reached by the scan. */
  ghost function Skipped(ev: seq<TimedEvent>, start: int, last: int): seq<TimedEvent> {
    var s, e := NormaliseStart(start), NormaliseEnd(last);
    Filter(ev[..SearchPointer(ev, s)], s, e)
  }

  /** On sorted input the pointer sits in the right place: nothing before it has
      a bar above `s`, nothing after it a bar below `s`, and it points at bar `s`
      unless no event has that bar. */
  ghost predicate Brackets(ev: seq<TimedEvent>, s: int, p: int) {
    0 <= p <= |ev| && (|ev| > 0 ==> p < |ev|) &&
    (SortedByBar(ev) ==> Bracketing(ev, s, p))
  }

  ghost predicate Bracketing(ev: seq<TimedEvent>, s: int, p: int) {
    (forall k :: 0 <= k < p && k < |ev| ==> ev[k].core.bar <= s) &&
    (forall k :: 0 <= p < k < |ev| ==> ev[k].core.bar >= s) &&
    ((0 <= p < |ev| && ev[p].core.bar == s) || (forall k :: 0 <= k < |ev| ==> ev[k].core.bar != s))
  }

  /** The index of the first event at or after i whose bar exceeds e. */
  function FirstAbove(ev: seq<TimedEvent>, i: nat, e: int): (j: nat)
    requires i <= |ev|
    ensures i <= j <= |ev|
    ensures forall k :: i <= k < j ==> ev[k].core.bar <= e
    ensures j < |ev| ==> ev[j].core.bar > e
    decreases |ev| - i
  {
    if i == |ev| || ev[i].core.bar > e then i else FirstAbove(ev, i + 1, e)
  }

  // ---------------------------------------------------------------------------
  // Lemmas about Filter and Scan

  lemma {:induction false} FilterMembers(ev: seq<TimedEvent>, s: int, e: int)
    ensures forall x :: x in Filter(ev, s, e) <==> x in ev && InRange(x, s, e)
    decreases |ev|
  {
    if ev != [] {
      FilterMembers(ev[1..], s, e);
      assert ev == [ev[0]] + ev[1..];
    }
  }

  lemma {:induction false} FilterAppend(a: seq<TimedEvent>, b: seq<TimedEvent>, s: int, e: int)
    ensures Filter(a + b, s, e) == Filter(a, s, e) + Filter(b, s, e)
    decreases |a|
  {
    if a == [] {
      assert a + b == b;
    } else {
      FilterAppend(a[1..], b, s, e);
      assert (a + b)[0] == a[0];
      assert (a + b)[1..] == a[1..] + b;
      var head := if InRange(a[0], s, e) then [a[0]] else [];
      assert Filter(a + b, s, e) == head + Filter(a[1..] + b, s, e);
      assert Filter(a, s, e) == head + Filter(a[1..], s, e);
    }
  }

  lemma {:induction false} FilterNone(a: seq<TimedEvent>, s: int, e: int)
    requires forall k :: 0 <= k < |a| ==> !InRange(a[k], s, e)
    ensures Filter(a, s, e) == []
    decreases |a|
  {
    if a != [] {
      FilterNone(a[1..], s, e);
    }
  }

  lemma {:induction false} FilterAll(a: seq<TimedEvent>, s: int, e: int)
    requires forall k :: 0 <= k < |a| ==> InRange(a[k], s, e)
    ensures Filter(a, s, e) == a
    decreases |a|
  {
    if a != [] {
      FilterAll(a[1..], s, e);
      assert a == [a[0]] + a[1..];
    }
  }

  /** Every event the scan returns is in range. */
  lemma {:induction false} ScanSound(ev: seq<TimedEvent>, i: nat, s: int, e: int)
    requires i <= |ev|
    ensures forall k :: 0 <= k < |Scan(ev, i, s, e)| ==> InRange(Scan(ev, i, s, e)[k], s, e)
    ensures forall k :: 0 <= k < |Scan(ev, i, s, e)| ==> Scan(ev, i, s, e)[k] in ev[i..]
    decreases |ev| - i
  {
    if i < |ev| {
      ScanSound(ev, i + 1, s, e);
      assert ev[i..] == [ev[i]] + ev[i + 1..];
    }
  }

  /** The scan is exactly the in-range events before the first event beyond
      `e`: it keeps original order and stops at the first `Bar > end`. */
  lemma {:induction false} ScanIsFilterBeforeStop(ev: seq<TimedEvent>, i: nat, s: int, e: int)
    requires i <= |ev|
    ensures Scan(ev, i, s, e) == Filter(ev[i..FirstAbove(ev, i, e)], s, e)
    decreases |ev| - i
  {
    if i < |ev| && ev[i].core.bar <= e {
      ScanIsFilterBeforeStop(ev, i + 1, s, e);
      var j := FirstAbove(ev, i, e);
      assert ev[i..j][1..] == ev[i + 1..j];
    }
  }

  /** On sorted input nothing from the first event beyond `e` on is in range. */
  lemma {:induction false} NothingInRangeBeyond(ev: seq<TimedEvent>, j: nat, s: int, e: int)
    requires SortedByBar(ev) && j <= |ev|
    requires j < |ev| ==> ev[j].core.bar > e
    ensures Filter(ev[j..], s, e) == []
  {
    var tail := ev[j..];
    forall k | 0 <= k < |tail| ensures !InRange(tail[k], s, e) {
      assert tail[k] == ev[j + k];
      assert ev[j].core.bar <= ev[j + k].core.bar;
    }
    FilterNone(tail, s, e);
  }

  /** On sorted input the scan from i returns every in-range event from i on. */
  lemma {:induction false} SortedScanIsFilter(ev: seq<TimedEvent>, i: nat, s: int, e: int)
    requires SortedByBar(ev) && i <= |ev|
    ensures Scan(ev, i, s, e) == Filter(ev[i..], s, e)
  {
    var j := FirstAbove(ev, i, e);
    ScanIsFilterBeforeStop(ev, i, s, e);
    assert ev[i..] == ev[i..j] + ev[j..];
    FilterAppend(ev[i..j], ev[j..], s, e);
    NothingInRangeBeyond(ev, j, s, e);
  }

  /** Once the search range is empty, the pointer was left next to it. */
  lemma ProbeExhausted(ev: seq<TimedEvent>, s: int, lo: int, hi: int, ptr: int)
    requires SortedByBar(ev)
    requires 0 <= lo == hi + 1 <= |ev| && (ptr == lo - 1 || ptr == lo)
    requires 0 <= ptr && (ptr < |ev| || ptr == 0)
    requires BarsBelow(ev, s, lo) && BarsAbove(ev, s, hi)
    ensures Bracketing(ev, s, ptr)
  {
    assert forall k :: 0 <= k < |ev| ==> ev[k].core.bar != s by {
      forall k | 0 <= k < |ev| ensures ev[k].core.bar != s {
        if k < lo {
        } else {
          assert hi < k;
        }
      }
    }
  }

  lemma {:induction false} ProbeBracketsSorted(ev: seq<TimedEvent>, s: int, lo: int, hi: int, ptr: int, p: int)
    requires SortedByBar(ev)
    requires 0 <= lo <= hi + 1 <= |ev|
    requires 0 <= ptr && (ptr < |ev| || ptr == 0)
    requires lo <= hi || ptr == lo - 1 || ptr == hi + 1
    requires BarsBelow(ev, s, lo) && BarsAbove(ev, s, hi)
    requires p == Probe(ev, s, lo, hi, ptr)
    ensures Bracketing(ev, s, p)
    decreases hi - lo
  {
    if lo > hi {
      ProbeExhausted(ev, s, lo, hi, ptr);
    } else {
      var mid := Mid(lo, hi);
      ProbeStep(ev, s, lo, hi, ptr);
      if ev[mid].core.bar < s {
        SortedBelow(ev, s, mid);
        ProbeBracketsSorted(ev, s, mid + 1, hi, mid, p);
      } else if ev[mid].core.bar > s {
        SortedAbove(ev, s, mid);
        ProbeBracketsSorted(ev, s, lo, mid - 1, mid, p);
      } else {
        ProbeFound(ev, s, mid);
      }
    }
  }

  /** Every event before index lo has a bar below s. */
  ghost predicate BarsBelow(ev: seq<TimedEvent>, s: int, lo: int) {
    forall k :: 0 <= k < lo && k < |ev| ==> ev[k].core.bar < s
  }

  /** Every event after index hi has a bar above s. */
  ghost predicate BarsAbove(ev: seq<TimedEvent>, s: int, hi: int) {
    forall k :: 0 <= k && hi < k < |ev| ==> ev[k].core.bar > s
  }

  lemma SortedBelow(ev: seq<TimedEvent>, s: int, mid: int)
    requires SortedByBar(ev) && 0 <= mid < |ev| && ev[mid].core.bar < s
    ensures BarsBelow(ev, s, mid + 1)
  {
    forall k | 0 <= k < mid ensures ev[k].core.bar < s {
      assert ev[k].core.bar <= ev[mid].core.bar;
    }
  }

  lemma SortedAbove(ev: seq<TimedEvent>, s: int, mid: int)
    requires SortedByBar(ev) && 0 <= mid < |ev| && ev[mid].core.bar > s
    ensures BarsAbove(ev, s, mid - 1)
  {
    forall k | mid < k < |ev| ensures ev[k].core.bar > s {
      assert ev[mid].core.bar <= ev[k].core.bar;
    }
  }

  lemma ProbeFound(ev: seq<TimedEvent>, s: int, mid: int)
    requires SortedByBar(ev) && 0 <= mid < |ev| && ev[mid].core.bar == s
    ensures Bracketing(ev, s, mid)
  {
    forall k | 0 <= k < mid ensures ev[k].core.bar <= s {
      assert ev[k].core.bar <= ev[mid].core.bar;
    }
    forall k | mid < k < |ev| ensures ev[k].core.bar >= s {
      assert ev[mid].core.bar <= ev[k].core.bar;
    }
  }

  /** The search terminates with the pointer inside [0, Count) whenever there
      are events, bracketing bar `s` on sorted input. */
  lemma SearchBrackets(ev: seq<TimedEvent>, s: int)
    ensures Brackets(ev, s, SearchPointer(ev, s))
  {
    if SortedByBar(ev) {
      ProbeBracketsSorted(ev, s, 0, |ev| - 1, 0, SearchPointer(ev, s));
    }
  }

  // ---------------------------------------------------------------------------
  // Properties of the query as written

  /** Every returned event is an event of the track whose bar lies within the
      normalised bounds. */
  lemma AsWrittenSound(ev: seq<TimedEvent>, start: int, last: int)
    ensures var r, s, e := QueryAsWritten(ev, start, last), NormaliseStart(start), NormaliseEnd(last);
      forall k :: 0 <= k < |r| ==> InRange(r[k], s, e) && r[k] in ev
  {
    var s, e := NormaliseStart(start), NormaliseEnd(last);
    var p := SearchPointer(ev, s);
    ScanSound(ev, p, s, e);
    var r := QueryAsWritten(ev, start, last);
    forall k | 0 <= k < |r| ensures r[k] in ev {
      assert r[k] in ev[p..];
    }
  }

  /** On sorted input the result is a suffix of the intended answer: the only
      in-range events it can miss are events of bar `start` that lie before the
      probe where the search stopped. So every event with start < Bar <= end is
      returned. */
  lemma {:induction false} AsWrittenIsSuffixOfFilter(ev: seq<TimedEvent>, start: int, last: int)
    requires SortedByBar(ev)
    ensures var s, e := NormaliseStart(start), NormaliseEnd(last);
      Filter(ev, s, e) == Skipped(ev, start, last) + QueryAsWritten(ev, start, last) &&
      forall x :: x in Skipped(ev, start, last) ==> x.core.bar == s
  {
    var s, e := NormaliseStart(start), NormaliseEnd(last);
    var p := SearchPointer(ev, s);
    SearchBrackets(ev, s);
    SortedScanIsFilter(ev, p, s, e);
    assert ev == ev[..p] + ev[p..];
    FilterAppend(ev[..p], ev[p..], s, e);
    FilterMembers(ev[..p], s, e);
    forall x | x in Skipped(ev, start, last) ensures x.core.bar == s {
      var k :| 0 <= k < p && ev[..p][k] == x;
    }
  }

  /** When no two events share a bar, the result is exactly the events with
      start <= Bar <= end, as the doc comment promises. */
  lemma AsWrittenExactWhenBarsDistinct(ev: seq<TimedEvent>, start: int, last: int)
    requires StrictlySortedByBar(ev)
    ensures QueryAsWritten(ev, start, last) == Filter(ev, NormaliseStart(start), NormaliseEnd(last))
  {
    var s, e := NormaliseStart(start), NormaliseEnd(last);
    var p := SearchPointer(ev, s);
    assert SortedByBar(ev);
    SearchBrackets(ev, s);
    AsWrittenIsSuffixOfFilter(ev, start, last);
    forall k | 0 <= k < p ensures !InRange(ev[..p][k], s, e) {
      if p < |ev| && ev[p].core.bar == s {
        assert ev[k].core.bar < ev[p].core.bar;
      }
    }
    FilterNone(ev[..p], s, e);
  }

  /** On sorted input the result is one contiguous run of the events. */
  lemma AsWrittenContiguous(ev: seq<TimedEvent>, start: int, last: int)
    requires SortedByBar(ev)
    ensures exists a, b :: 0 <= a <= b <= |ev| && QueryAsWritten(ev, start, last) == ev[a..b]
  {
    var s, e := NormaliseStart(start), NormaliseEnd(last);
    var p := SearchPointer(ev, s);
    var j := FirstAbove(ev, p, e);
    SearchBrackets(ev, s);
    ScanIsFilterBeforeStop(ev, p, s, e);
    if p == j {
      assert QueryAsWritten(ev, start, last) == ev[p..p];
    } else {
      FilterAll(ev[p + 1..j], s, e);
      assert ev[p..j][1..] == ev[p + 1..j];
      if InRange(ev[p], s, e) {
        assert ev[p..j] == [ev[p]] + ev[p + 1..j];
        assert QueryAsWritten(ev, start, last) == ev[p..j];
      } else {
        assert QueryAsWritten(ev, start, last) == ev[p + 1..j];
      }
    }
  }

  /** No events, or an end bar below the start bar after normalisation, gives
      an empty list. */
  lemma AsWrittenEmpty(ev: seq<TimedEvent>, start: int, last: int)
    requires |ev| == 0 || NormaliseEnd(last) < NormaliseStart(start)
    ensures QueryAsWritten(ev, start, last) == []
  {
    var s, e := NormaliseStart(start), NormaliseEnd(last);
    var p := SearchPointer(ev, s);
    ScanIsFilterBeforeStop(ev, p, s, e);
    var j := FirstAbove(ev, p, e);
    FilterNone(ev[p..j], s, e);
  }

  /** Three events in bar 1: the search stops at the middle one, so a query for
      bar 1 misses the first although all three lie in range. */
  lemma AsWrittenSkipsEarlierEventsOfStartBar()
    ensures var ev := [Plain(DefaultCore.(bar := 1, startBeat := 1)),
                       Plain(DefaultCore.(bar := 1, startBeat := 2)),
                       Plain(DefaultCore.(bar := 1, startBeat := 3))];
      SortedByBar(ev) &&
      Filter(ev, 1, 1) == ev &&
      QueryAsWritten(ev, 1, 1) == ev[1..] &&
      Skipped(ev, 1, 1) == ev[..1]
  {
    var ev := [Plain(DefaultCore.(bar := 1, startBeat := 1)),
               Plain(DefaultCore.(bar := 1, startBeat := 2)),
               Plain(DefaultCore.(bar := 1, startBeat := 3))];
    assert SearchPointer(ev, 1) == 1;
    FilterAll(ev, 1, 1);
    FilterAll(ev[1..], 1, 1);
    FilterAll(ev[..1], 1, 1);
    assert Scan(ev, 3, 1, 1) == [];
    assert Scan(ev, 2, 1, 1) == [ev[2]];
  }

  // ---------------------------------------------------------------------------
  // The operation

  lemma AsWrittenFacts(events: seq<TimedEvent>, start: int, last: int)
    ensures var r, s, e := QueryAsWritten(events, start, last), NormaliseStart(start), NormaliseEnd(last);
      (forall k :: 0 <= k < |r| ==> r[k] in events && InRange(r[k], s, e)) &&
      (SortedByBar(events) ==> Filter(events, s, e) == Skipped(events, start, last) + r) &&
      (StrictlySortedByBar(events) ==> r == Filter(events, s, e))
  {
    AsWrittenSound(events, start, last);
    if SortedByBar(events) {
      AsWrittenIsSuffixOfFilter(events, start, last);
    }
    if StrictlySortedByBar(events) {
      AsWrittenExactWhenBarsDistinct(events, start, last);
    }
  }

  /** The binary search of GetEventsInRange as written: it stops at the first
      probe that hits bar `s`. */
  method SearchStart(events: seq<TimedEvent>, s: int) returns (pointer: nat)
    ensures pointer == SearchPointer(events, s)
  {
    var lowIndex, highIndex := 0, |events| - 1;
    pointer := 0;
    var pointerBar := 0;
    while lowIndex <= highIndex
      invariant 0 <= lowIndex <= highIndex + 1 <= |events|
      invariant pointer < |events| || pointer == 0
      invariant lowIndex <= highIndex || pointer == lowIndex - 1 || pointer == highIndex + 1
      invariant Probe(events, s, lowIndex, highIndex, pointer) == SearchPointer(events, s)
      decreases highIndex - lowIndex
    {
      MidIsAverage(lowIndex, highIndex);
      ProbeStep(events, s, lowIndex, highIndex, pointer);
      pointer := (lowIndex + highIndex) / 2;
      pointerBar := events[pointer].core.bar;
      if pointerBar < s {
        lowIndex := pointer + 1;
      } else if pointerBar > s {
        highIndex := pointer - 1;
      } else {
        if pointerBar == s {
          break;
        } else {
          // "pointing beyond start": this branch is only entered when the bar
          // is neither below nor above `s`, so it is never reached
          assert false;
        }
      }
    }
  }

  /** The forward scan of GetEventsInRange from index `from`. */
  method ScanFrom(events: seq<TimedEvent>, from: nat, s: int, e: int) returns (r: seq<TimedEvent>)
    requires from <= |events|
    ensures r == Scan(events, from, s, e)
  {
    r := [];
    var i := from;
    while i < |events|
      invariant from <= i <= |events|
      invariant r + Scan(events, i, s, e) == Scan(events, from, s, e)
    {
      var x := events[i];
      if s <= x.core.bar && x.core.bar <= e {
        r := r + [x];
      } else if x.core.bar > e {
        break;
      }
      i := i + 1;
    }
  }

  /** Track.GetEventsInRange as written. */
  method GetEventsInRange(events: seq<TimedEvent>, start: int, last: int) returns (r: seq<TimedEvent>)
    ensures r == QueryAsWritten(events, start, last)
    ensures forall k :: 0 <= k < |r| ==> r[k] in events && InRange(r[k], NormaliseStart(start), NormaliseEnd(last))
    ensures SortedByBar(events) ==>
      Filter(events, NormaliseStart(start), NormaliseEnd(last)) == Skipped(events, start, last) + r
    ensures StrictlySortedByBar(events) ==> r == Filter(events, NormaliseStart(start), NormaliseEnd(last))
  {
    var s := NormaliseStart(start);
    var e := NormaliseEnd(last);
    var pointer := SearchStart(events, s);
    r := ScanFrom(events, pointer, s, e);
    AsWrittenFacts(events, start, last);
  }

  /** The query as evidently intended: the binary search looks for the first
      event whose bar is at least `s`, so no event of the start bar is skipped. */
  method GetEventsInRangeFromLowerBound(events: seq<TimedEvent>, start: int, last: int) returns (r: seq<TimedEvent>)
    ensures forall k :: 0 <= k < |r| ==> r[k] in events && InRange(r[k], NormaliseStart(start), NormaliseEnd(last))
    ensures SortedByBar(events) ==> r == Filter(events, NormaliseStart(start), NormaliseEnd(last))
  {
    var s := NormaliseStart(start);
    var e := NormaliseEnd(last);
    var from := LowerBound(events, s);
    r := ScanFrom(events, from, s, e);
    LowerBoundScan(events, from, s, e);
  }

  /** The first index whose bar is at least `s`, on sorted input. */
  method LowerBound(events: seq<TimedEvent>, s: int) returns (lowIndex: nat)
    ensures lowIndex <= |events|
    ensures SortedByBar(events) ==> BarsBelow(events, s, lowIndex)
  {
    lowIndex := 0;
    var highIndex := |events|;
    while lowIndex < highIndex
      invariant 0 <= lowIndex <= highIndex <= |events|
      invariant SortedByBar(events) ==> BarsBelow(events, s, lowIndex)
      invariant SortedByBar(events) ==> forall k :: highIndex <= k < |events| ==> events[k].core.bar >= s
    {
      var pointer := (lowIndex + highIndex) / 2;
      if events[pointer].core.bar < s {
        if SortedByBar(events) {
          SortedBelow(events, s, pointer);
        }
        lowIndex := pointer + 1;
      } else {
        highIndex := pointer;
      }
    }
  }

  /** Scanning from past every event below bar `s` finds only events of
      the track in range and, on sorted input, exactly the filtered events. */
  lemma LowerBoundScan(events: seq<TimedEvent>, from: nat, s: int, e: int)
    requires from <= |events|
    requires SortedByBar(events) ==> BarsBelow(events, s, from)
    ensures forall k :: 0 <= k < |Scan(events, from, s, e)| ==>
      Scan(events, from, s, e)[k] in events && InRange(Scan(events, from, s, e)[k], s, e)
    ensures SortedByBar(events) ==> Scan(events, from, s, e) == Filter(events, s, e)
  {
    var r := Scan(events, from, s, e);
    ScanSound(events, from, s, e);
    forall k | 0 <= k < |r| ensures r[k] in events {
      assert r[k] in events[from..];
    }
    if SortedByBar(events) {
      SortedScanIsFilter(events, from, s, e);
      assert events == events[..from] + events[from..];
      FilterAppend(events[..from], events[from..], s, e);
      FilterNone(events[..from], s, e);
    }
  }
}
