/** The dispatcher (MusicDirector.cs): the start-offset gate, the window of
    loaded events and its refill, firing events whose start time has come,
    and repeating sustained ("long") attacks once per step. */
module Music {
  import opened Events
  import Tracks

  /** The Track fields the director reads. */
  datatype TrackData = TrackData(events: seq<TimedEvent>, bpm: real, numerator: int,
                                 denominator: int, startOffset: real)

  /** Seconds per step: a minute divided by the tempo, then by the steps per beat. */
  function StepDuration(bpm: real, denominator: int): (d: real)
    requires bpm > 0.0 && denominator > 0
    ensures d > 0.0
    ensures d * bpm * (denominator as real) == 60.0
  {
    var perBeat := 60.0 / bpm;
    assert perBeat * bpm == 60.0;
    perBeat / (denominator as real)
  }

  /** An offset fits within one step exactly when offset * BPM * Denominator
      is at most a minute. */
  lemma OffsetWithinStepDuration(e: TimedEvent, bpm: real, denominator: int)
    requires bpm > 0.0 && denominator > 0
    ensures OffsetWithinStep(e, StepDuration(bpm, denominator)) <==>
      e.core.offset * bpm * (denominator as real) <= 60.0
  {
    var d := StepDuration(bpm, denominator);
    var k := bpm * (denominator as real);
    assert k > 0.0;
    assert d * k == 60.0;
    if e.core.offset <= d {
      assert e.core.offset * k <= d * k;
    } else {
      assert e.core.offset * k > d * k;
    }
  }

  // ---------------------------------------------------------------------------
  // Firing events from the window

  /** The event fired last (LastPlayedEvent), if any. */
  datatype Played = NothingPlayed | LastPlayed(event: TimedEvent)

  /** The start time the next event has to exceed: 0 before anything fired. */
  function LastTime(p: Played): real {
    if p.LastPlayed? then p.event.core.startTime else 0.0
  }

  /** An event is due when it starts after `last` and not after `timer`. */
  predicate Due(e: TimedEvent, last: real, timer: real) {
    last < e.core.startTime <= timer
  }

  /** The `(AttackNote) e` cast fails for an Attack-typed plain event. */
  predicate FailsCast(e: TimedEvent) {
    e.core.eventType == Attack && e.Plain?
  }

  /** A fired event that joins LongAttacks. */
  predicate IsLong(e: TimedEvent) {
    e.core.eventType == Attack && e.Note? && e.atk.duration > 0
  }

  ghost predicate Increasing(s: seq<TimedEvent>) {
    forall i, j :: 0 <= i < j < |s| ==> s[i].core.startTime < s[j].core.startTime
  }

  /** The events one pass over the window fires, in order, and whether the pass
      ended in a failed cast. */
  datatype Pass = Pass(fired: seq<TimedEvent>, failed: bool)

  /** One pass over the window: an event fires when it is due with respect to
      the last fired event; a failed cast stops the pass after firing. */
  function FirePass(w: seq<TimedEvent>, last: real, timer: real): Pass
    decreases |w|
  {
    if w == [] then Pass([], false)
    else
      var e := w[0];
      if Due(e, last, timer) then
        if FailsCast(e) then Pass([e], true)
        else
          var rest := FirePass(w[1..], e.core.startTime, timer);
          Pass([e] + rest.fired, rest.failed)
      else FirePass(w[1..], last, timer)
  }

  /** A pass fires only due events of the window, each strictly later than the
      one before, and only the last of them can have stopped it. */
  ghost predicate SoundPass(p: Pass, w: seq<TimedEvent>, last: real, timer: real) {
    (forall k :: 0 <= k < |p.fired| ==> p.fired[k] in w && Due(p.fired[k], last, timer)) &&
    Increasing(p.fired) &&
    (p.failed ==> p.fired != [] && FailsCast(p.fired[|p.fired| - 1])) &&
    (forall k :: 0 <= k < |p.fired| - 1 ==> !FailsCast(p.fired[k]))
  }

  lemma {:induction false} FirePassSound(w: seq<TimedEvent>, last: real, timer: real)
    ensures SoundPass(FirePass(w, last, timer), w, last, timer)
    decreases |w|
  {
    if w != [] {
      var e := w[0];
      if Due(e, last, timer) {
        if !FailsCast(e) {
          FirePassSound(w[1..], e.core.startTime, timer);
          SoundPassCons(w, last, timer, FirePass(w[1..], e.core.startTime, timer));
        }
      } else {
        FirePassSound(w[1..], last, timer);
      }
    }
  }

  /** Firing a due, castable first event in front of a sound pass over the
      rest of the window gives a sound pass over the whole window. */
  lemma SoundPassCons(w: seq<TimedEvent>, last: real, timer: real, rest: Pass)
    requires w != [] && Due(w[0], last, timer) && !FailsCast(w[0])
    requires SoundPass(rest, w[1..], w[0].core.startTime, timer)
    ensures SoundPass(Pass([w[0]] + rest.fired, rest.failed), w, last, timer)
  {
    var f := [w[0]] + rest.fired;
    forall k | 0 <= k < |f| ensures f[k] in w && Due(f[k], last, timer) {
      if k > 0 {
        assert f[k] == rest.fired[k - 1];
        assert f[k] in w[1..];
      }
    }
    forall i, j | 0 <= i < j < |f| ensures f[i].core.startTime < f[j].core.startTime {
      assert f[j] == rest.fired[j - 1];
      if i > 0 {
        assert f[i] == rest.fired[i - 1];
      }
    }
    forall k | 0 <= k < |f| - 1 ensures !FailsCast(f[k]) {
      if k > 0 {
        assert f[k] == rest.fired[k - 1];
      }
    }
  }

  /** FirePass on a suffix of the window, one event unfolded. */
  lemma FirePassFrom(w: seq<TimedEvent>, i: nat, last: real, timer: real)
    requires i < |w|
    ensures var e, r := w[i], FirePass(w[i + 1..], w[i].core.startTime, timer);
      FirePass(w[i..], last, timer) ==
        if !Due(e, last, timer) then FirePass(w[i + 1..], last, timer)
        else if FailsCast(e) then Pass([e], true)
        else Pass([e] + r.fired, r.failed)
  {
    assert w[i..][0] == w[i] && w[i..][1..] == w[i + 1..];
  }

  /** The due events of a window. */
  function DueIn(w: seq<TimedEvent>, last: real, timer: real): seq<TimedEvent> {
    if w == [] then []
    else (if Due(w[0], last, timer) then [w[0]] else []) + DueIn(w[1..], last, timer)
  }

  lemma {:induction false} DueInSameAbove(w: seq<TimedEvent>, a: real, b: real, timer: real)
    requires forall k :: 0 <= k < |w| ==> w[k].core.startTime > a && w[k].core.startTime > b
    ensures DueIn(w, a, timer) == DueIn(w, b, timer)
  {
    if w != [] {
      DueInSameAbove(w[1..], a, b, timer);
    }
  }

  /** On a window in increasing start-time order with no failing cast, a pass
      fires exactly the due events. */
  lemma {:induction false} FirePassOnIncreasingWindow(w: seq<TimedEvent>, last: real, timer: real)
    requires Increasing(w)
    requires forall k :: 0 <= k < |w| && Due(w[k], last, timer) ==> !FailsCast(w[k])
    ensures FirePass(w, last, timer) == Pass(DueIn(w, last, timer), false)
  {
    if w != [] {
      var e := w[0];
      if Due(e, last, timer) {
        FirePassOnIncreasingWindow(w[1..], e.core.startTime, timer);
        DueInSameAbove(w[1..], e.core.startTime, last, timer);
      } else {
        FirePassOnIncreasingWindow(w[1..], last, timer);
      }
    }
  }

  /** Events at or before time 0 never fire, whatever was fired before. */
  lemma NothingAtOrBeforeZeroFires(w: seq<TimedEvent>, p: Played, timer: real)
    requires p.LastPlayed? ==> p.event.core.startTime >= 0.0
    ensures forall e :: e in FirePass(w, LastTime(p), timer).fired ==> e.core.startTime > 0.0
  {
    FirePassSound(w, LastTime(p), timer);
    if p.LastPlayed? {
      assert LastTime(p) == p.event.core.startTime;
    }
  }

  /** The long attacks among fired events, in order. */
  function LongOnes(s: seq<TimedEvent>): (r: seq<TimedEvent>)
    ensures forall k :: 0 <= k < |r| ==> r[k] in s && IsLong(r[k])
    ensures forall x :: x in s && IsLong(x) ==> x in r
  {
    if s == [] then []
    else LongOnes(s[..|s| - 1]) + (if IsLong(s[|s| - 1]) then [s[|s| - 1]] else [])
  }

  lemma LongOnesAppend(s: seq<TimedEvent>, e: TimedEvent)
    ensures LongOnes(s + [e]) == LongOnes(s) + (if IsLong(e) then [e] else [])
  {
    assert (s + [e])[..|s|] == s;
  }

  // ---------------------------------------------------------------------------
  // Repeating long attacks

  predicate AllNotes(s: seq<TimedEvent>) {
    forall k :: 0 <= k < |s| ==> s[k].Note?
  }

  /** The one-off attack fired for a repeat: same attack kind, at the current
      beat and step. */
  function Tail(a: TimedEvent, beat: int, step: int): TimedEvent
    requires a.Note?
  {
    NewAttackNote(Attack, a.atk.attack, beat, step)
  }

  /** A long attack after its repeat at `step`. */
  function Countdown(a: TimedEvent, step: int): TimedEvent
    requires a.Note?
  {
    a.(atk := a.atk.(lastStepPlayed := step, durationLeft := a.atk.durationLeft - 1))
  }

  /** The long attacks kept after a pass and the repeats the pass fired. */
  datatype Tails = Tails(kept: seq<TimedEvent>, tails: seq<TimedEvent>)

  /** How many long attacks have not yet repeated at `step`. */
  function Unplayed(l: seq<TimedEvent>, step: int): nat
    requires AllNotes(l)
  {
    if l == [] then 0
    else Unplayed(l[..|l| - 1], step) + (if l[|l| - 1].atk.lastStepPlayed == step then 0 else 1)
  }

  /** One pass over LongAttacks at the current step: an attack that already
      repeated at this step is skipped; any other fires a repeat, counts down
      once, and leaves when nothing is left. */
  function TailPass(l: seq<TimedEvent>, beat: int, step: int): (r: Tails)
    requires AllNotes(l)
    decreases |l|
    ensures AllNotes(r.kept) && |r.kept| <= |l|
    // after the pass every remaining attack has repeated at this step
    ensures forall k :: 0 <= k < |r.kept| ==> r.kept[k].atk.lastStepPlayed == step
    // one repeat per attack that had not yet repeated at this step
    ensures |r.tails| == Unplayed(l, step)
    ensures forall k :: 0 <= k < |r.tails| ==>
      r.tails[k].Note? && r.tails[k].core.eventType == Attack &&
      r.tails[k].core.startBeat == beat && r.tails[k].core.startStep == step
  {
    if l == [] then Tails([], [])
    else
      var r := TailPass(l[..|l| - 1], beat, step);
      var a := l[|l| - 1];
      if a.atk.lastStepPlayed == step then Tails(r.kept + [a], r.tails)
      else
        var b := Countdown(a, step);
        Tails(r.kept + (if b.atk.durationLeft > 0 then [b] else []), r.tails + [Tail(a, beat, step)])
  }

  /** Which long attacks a pass keeps: those that already repeated at this
      step, unchanged, and the counted-down others that have duration left. */
  lemma {:induction false} TailPassKeeps(l: seq<TimedEvent>, beat: int, step: int)
    requires AllNotes(l)
    ensures forall x :: x in TailPass(l, beat, step).kept <==>
      (x in l && x.Note? && x.atk.lastStepPlayed == step) ||
      (exists a :: a in l && a.Note? && a.atk.lastStepPlayed != step &&
                   x == Countdown(a, step) && x.atk.durationLeft > 0)
    decreases |l|
  {
    if l != [] {
      var init, a := l[..|l| - 1], l[|l| - 1];
      TailPassKeeps(init, beat, step);
      assert l == init + [a];
      forall x | x in l ensures x in init || x == a {
      }
    }
  }

  /** What one pass keeps of one long attack. */
  function KeptOf(a: TimedEvent, step: int): seq<TimedEvent>
    requires a.Note?
  {
    if a.atk.lastStepPlayed == step then [a]
    else if Countdown(a, step).atk.durationLeft > 0 then [Countdown(a, step)]
    else []
  }

  /** The repeats one pass fires for one long attack. */
  function TailsOf(a: TimedEvent, beat: int, step: int): seq<TimedEvent>
    requires a.Note?
  {
    if a.atk.lastStepPlayed == step then [] else [Tail(a, beat, step)]
  }

  /** The pass treats each long attack on its own and keeps the order: a pass
      over two lists joined is the two passes joined. */
  lemma {:induction false} TailPassSplit(l1: seq<TimedEvent>, l2: seq<TimedEvent>, beat: int, step: int)
    requires AllNotes(l1) && AllNotes(l2)
    ensures AllNotes(l1 + l2)
    ensures var r, r1, r2 := TailPass(l1 + l2, beat, step), TailPass(l1, beat, step), TailPass(l2, beat, step);
      r.kept == r1.kept + r2.kept && r.tails == r1.tails + r2.tails
    decreases |l2|
  {
    if l2 == [] {
      assert l1 + l2 == l1;
    } else {
      var init, a := l2[..|l2| - 1], l2[|l2| - 1];
      assert AllNotes(init);
      TailPassSplit(l1, init, beat, step);
      assert l1 + l2 == (l1 + init) + [a];
      assert l2 == init + [a];
      TailPassSnoc(l1 + init, a, beat, step);
      TailPassSnoc(init, a, beat, step);
      JoinTails(TailPass(l1 + init, beat, step), TailPass(l1, beat, step), TailPass(init, beat, step),
                KeptOf(a, step), TailsOf(a, beat, step));
    }
  }

  lemma JoinTails(x: Tails, r1: Tails, y: Tails, k: seq<TimedEvent>, t: seq<TimedEvent>)
    requires x.kept == r1.kept + y.kept && x.tails == r1.tails + y.tails
    ensures x.kept + k == r1.kept + (y.kept + k) && x.tails + t == r1.tails + (y.tails + t)
  {
  }

  /** A pass over a list with one more attack at the end. */
  lemma TailPassSnoc(l: seq<TimedEvent>, a: TimedEvent, beat: int, step: int)
    requires AllNotes(l) && a.Note?
    ensures AllNotes(l + [a])
    ensures var r, x := TailPass(l + [a], beat, step), TailPass(l, beat, step);
      r == Tails(x.kept + KeptOf(a, step), x.tails + TailsOf(a, beat, step))
  {
    assert (l + [a])[..|l|] == l;
  }

  lemma {:induction false} TailPassIdle(l: seq<TimedEvent>, beat: int, step: int)
    requires AllNotes(l)
    requires forall k :: 0 <= k < |l| ==> l[k].atk.lastStepPlayed == step
    ensures TailPass(l, beat, step) == Tails(l, [])
  {
    if l != [] {
      TailPassIdle(l[..|l| - 1], beat, step);
      assert l[..|l| - 1] + [l[|l| - 1]] == l;
    }
  }

  /** A second pass within the same step fires nothing and keeps everything. */
  lemma TailPassIdempotentWithinStep(l: seq<TimedEvent>, beat: int, step: int)
    requires AllNotes(l)
    ensures var r := TailPass(l, beat, step);
      TailPass(r.kept, beat, step) == Tails(r.kept, [])
  {
    TailPassIdle(TailPass(l, beat, step).kept, beat, step);
  }

  /** How many repeats one long attack fires over successive passes at the
      given steps. */
  function Repeats(a: TimedEvent, beat: int, steps: seq<int>): nat
    requires a.Note?
    decreases |steps|
  {
    if steps == [] then 0
    else
      var r := TailPass([a], beat, steps[0]);
      |r.tails| + (if r.kept == [] then 0 else Repeats(r.kept[0], beat, steps[1..]))
  }

  function Max(a: int, b: int): int {
    if a >= b then a else b
  }

  /** Over steps that change at every pass, starting at a step it has not
      repeated at, a long attack with DurationLeft n fires max(n, 1) repeats
      and then leaves. */
  lemma {:induction false} LongAttackRepeats(a: TimedEvent, beat: int, steps: seq<int>)
    requires a.Note? && |steps| >= Max(a.atk.durationLeft, 1)
    requires a.atk.lastStepPlayed != steps[0]
    requires forall i :: 0 <= i < |steps| - 1 ==> steps[i] != steps[i + 1]
    ensures Repeats(a, beat, steps) == Max(a.atk.durationLeft, 1)
    decreases |steps|
  {
    var r := TailPass([a], beat, steps[0]);
    assert [a][..0] == [];
    var b := Countdown(a, steps[0]);
    assert r == Tails(if b.atk.durationLeft > 0 then [b] else [], [Tail(a, beat, steps[0])]);
    if b.atk.durationLeft > 0 {
      LongAttackRepeats(b, beat, steps[1..]);
    }
  }

  // ---------------------------------------------------------------------------
  // The director

  /** Whether Update gets past the start-offset gate. While the start is
      delayed only a negative offset with a non-negative timer lets it through;
      a positive offset returns even on the frame that starts the audio. */
  predicate GateOpen(delayed: bool, offset: real, timer: real) {
    !delayed || (offset < 0.0 && timer >= 0.0)
  }

  /** The bars a refill loads: the next bar and LoadedBarCount bars after it. */
  function Refill(ev: seq<TimedEvent>, currentBar: int, count: int): seq<TimedEvent> {
    Tracks.QueryAsWritten(ev, currentBar + 1, currentBar + 1 + count)
  }

  /** On a bar-sorted track a refill loads every event of the requested bars
      except events of the first bar that lie before the search's probe. */
  lemma RefillMissesOnlyFirstBar(ev: seq<TimedEvent>, currentBar: int, count: int)
    requires Tracks.SortedByBar(ev)
    ensures var s, e := Tracks.NormaliseStart(currentBar + 1), Tracks.NormaliseEnd(currentBar + 1 + count);
      var skipped := Tracks.Skipped(ev, currentBar + 1, currentBar + 1 + count);
      Tracks.Filter(ev, s, e) == skipped + Refill(ev, currentBar, count) &&
      forall x :: x in skipped ==> x.core.bar == s
  {
    Tracks.AsWrittenIsSuffixOfFilter(ev, currentBar + 1, currentBar + 1 + count);
  }

  /** Three events in bar 1 and LoadedBarCount 16: Start loads only the last
      two, so the first is never fired. */
  lemma StartMissesFirstEventOfBarOne()
    ensures var ev := [Plain(DefaultCore.(bar := 1, startBeat := 1)),
                       Plain(DefaultCore.(bar := 1, startBeat := 2)),
                       Plain(DefaultCore.(bar := 1, startBeat := 3))];
      Tracks.QueryAsWritten(ev, 0, 16) == ev[1..] &&
      Tracks.Filter(ev, 1, Tracks.NormaliseEnd(16)) == ev
  {
    var ev := [Plain(DefaultCore.(bar := 1, startBeat := 1)),
               Plain(DefaultCore.(bar := 1, startBeat := 2)),
               Plain(DefaultCore.(bar := 1, startBeat := 3))];
    assert Tracks.SearchPointer(ev, 1) == 1;
    Tracks.FilterAll(ev, 1, 16);
    assert Tracks.Scan(ev, 3, 1, 16) == [];
    assert Tracks.Scan(ev, 2, 1, 16) == [ev[2]];
  }

  lemma ExtendPlayed(played: seq<TimedEvent>, fired: seq<TimedEvent>, last: real)
    requires Increasing(played) && Increasing(fired)
    requires forall k :: 0 <= k < |played| ==> played[k].core.startTime > 0.0
    requires last == (if played == [] then 0.0 else played[|played| - 1].core.startTime)
    requires forall k :: 0 <= k < |fired| ==> fired[k].core.startTime > last
    ensures Increasing(played + fired)
    ensures forall k :: 0 <= k < |played + fired| ==> (played + fired)[k].core.startTime > 0.0
  {
    var s := played + fired;
    forall i, j | 0 <= i < j < |s| ensures s[i].core.startTime < s[j].core.startTime {
      if j >= |played| && i < |played| {
        assert s[i].core.startTime <= last;
      }
    }
  }

  /** Update's pass over the window, on the values it updates: the last fired
      event, the current bar, beat and step, and LongAttacks. */
  method FireWindow(window: seq<TimedEvent>, lastPlayed: Played, bar: int, beat: int, step: int,
                    longs: seq<TimedEvent>, timer: real)
    returns (fired: seq<TimedEvent>, failed: bool, lp: Played, bar': int, beat': int, step': int,
             longs': seq<TimedEvent>)
    ensures Pass(fired, failed) == FirePass(window, LastTime(lastPlayed), timer)
    ensures longs' == longs + LongOnes(fired)
    ensures fired == [] ==> lp == lastPlayed && bar' == bar && beat' == beat && step' == step
    ensures fired != [] ==>
      var e := fired[|fired| - 1];
      lp == LastPlayed(e) && bar' == e.core.bar && beat' == e.core.startBeat && step' == e.core.startStep
  {
    fired, failed := [], false;
    lp, bar', beat', step', longs' := lastPlayed, bar, beat, step, longs;
    for i := 0 to |window|
      invariant var r := FirePass(window[i..], LastTime(lp), timer);
        FirePass(window, LastTime(lastPlayed), timer) == Pass(fired + r.fired, r.failed)
      invariant longs' == longs + LongOnes(fired)
      invariant fired == [] ==> lp == lastPlayed && bar' == bar && beat' == beat && step' == step
      invariant fired != [] ==>
        var e := fired[|fired| - 1];
        lp == LastPlayed(e) && bar' == e.core.bar && beat' == e.core.startBeat && step' == e.core.startStep
    {
      var e := window[i];
      var lastEventTime := 0.0;
      if lp.LastPlayed? {
        lastEventTime := lp.event.core.startTime;
      }
      var isBeforeTimer := e.core.startTime <= timer;
      var isAfterLast := lastEventTime < e.core.startTime;
      FirePassFrom(window, i, LastTime(lp), timer);
      if isAfterLast && isBeforeTimer {
        LongOnesAppend(fired, e);
        fired := fired + [e];
        lp := LastPlayed(e);
        bar', beat', step' := e.core.bar, e.core.startBeat, e.core.startStep;
        if e.core.eventType == Attack {
          if e.Plain? {
            // the `(AttackNote) e` cast throws
            failed := true;
            return;
          }
          if e.atk.duration > 0 {
            longs' := longs' + [e];
          }
        }
      }
    }
    assert window[|window|..] == [];
  }

  /** Update's pass over LongAttacks. Removals take effect after the pass. */
  method RepeatLongAttacks(longs: seq<TimedEvent>, beat: int, step: int)
    returns (kept: seq<TimedEvent>, tails: seq<TimedEvent>)
    requires AllNotes(longs)
    ensures Tails(kept, tails) == TailPass(longs, beat, step)
  {
    kept, tails := [], [];
    for j := 0 to |longs|
      invariant TailPass(longs[..j], beat, step) == Tails(kept, tails)
    {
      var attack := longs[j];
      assert longs[..j + 1][..j] == longs[..j];
      if attack.atk.lastStepPlayed == step {
        kept := kept + [attack];
        continue;
      }
      var updated := attack.(atk := attack.atk.(lastStepPlayed := step));
      var tail := NewAttackNote(Attack, attack.atk.attack, beat, step);
      tails := tails + [tail];
      updated := updated.(atk := updated.atk.(durationLeft := updated.atk.durationLeft - 1));
      if updated.atk.durationLeft > 0 {
        kept := kept + [updated];
      }
    }
    assert longs[..|longs|] == longs;
  }

  /** Fired events in strictly increasing start-time order, all after time 0. */
  ghost predicate Chronological(played: seq<TimedEvent>) {
    Increasing(played) && forall k :: 0 <= k < |played| ==> played[k].core.startTime > 0.0
  }

  /** LastPlayedEvent is the last fired event. */
  ghost predicate LastOf(lp: Played, played: seq<TimedEvent>) {
    (lp == NothingPlayed <==> played == []) &&
    (lp.LastPlayed? ==> lp.event == played[|played| - 1])
  }

  /** A pass keeps the fired events chronological and LastPlayedEvent last. */
  lemma PlayedStaysChronological(played: seq<TimedEvent>, w: seq<TimedEvent>, lp: Played, timer: real)
    requires Chronological(played) && LastOf(lp, played)
    ensures var f := FirePass(w, LastTime(lp), timer).fired;
      Chronological(played + f) &&
      LastOf(if f == [] then lp else LastPlayed(f[|f| - 1]), played + f)
  {
    var f := FirePass(w, LastTime(lp), timer).fired;
    FirePassSound(w, LastTime(lp), timer);
    assert forall k :: 0 <= k < |f| ==> f[k].core.startTime > LastTime(lp);
    ExtendPlayed(played, f, LastTime(lp));
    if f != [] {
      assert (played + f)[|played + f| - 1] == f[|f| - 1];
    }
  }

  lemma LongAttacksStayNotes(longs: seq<TimedEvent>, fired: seq<TimedEvent>)
    requires AllNotes(longs)
    ensures AllNotes(longs + LongOnes(fired))
  {
  }

  class MusicDirector {
    const track: TrackData
    /** How many bars a refill loads; 0 loads the whole track at the start. */
    const loadedBarCount: int

    var timer: real
    var delayedStart: bool
    /** The window of loaded events (Events). */
    var events: seq<TimedEvent>
    var longAttacks: seq<TimedEvent>
    var lastPlayed: Played
    var currentBar: int
    var currentBeat: int
    var currentStep: int

    /** Whether the audio has been started. */
    ghost var audioPlaying: bool
    /** Every event fired from the window, in order. */
    ghost var played: seq<TimedEvent>
    /** Every argument ExecuteEvent received, in order: fired events and repeats. */
    ghost var log: seq<TimedEvent>

    ghost predicate Valid()
      reads this
    {
      Chronological(played) && LastOf(lastPlayed, played) &&
      AllNotes(longAttacks) &&
      (delayedStart ==> track.startOffset != 0.0)
    }

    /** The field initialisers. */
    constructor (track: TrackData, loadedBarCount: int)
      ensures Valid()
      ensures this.track == track && this.loadedBarCount == loadedBarCount
      ensures timer == 0.0 && !delayedStart && events == [] && longAttacks == []
      ensures lastPlayed == NothingPlayed && currentBar == 0 && currentBeat == 0 && currentStep == 0
      ensures !audioPlaying && played == [] && log == []
    {
      this.track := track;
      this.loadedBarCount := loadedBarCount;
      timer := 0.0;
      delayedStart := false;
      events := [];
      longAttacks := [];
      lastPlayed := NothingPlayed;
      currentBar, currentBeat, currentStep := 0, 0, 0;
      audioPlaying := false;
      played := [];
      log := [];
    }

    /** Loads bars 1 to LoadedBarCount (all bars when it is 0) and sets up the
        offset: a positive one delays the audio, a negative one starts the
        audio and the timer at -StartOffset. */
    method Start()
      requires Valid()
      modifies this
      ensures Valid()
      ensures events == Tracks.QueryAsWritten(track.events, 0, loadedBarCount)
      ensures delayedStart == (track.startOffset != 0.0)
      ensures timer == (if track.startOffset < 0.0 then -track.startOffset else old(timer))
      ensures audioPlaying == (old(audioPlaying) || track.startOffset < 0.0)
      ensures longAttacks == old(longAttacks) && lastPlayed == old(lastPlayed)
      ensures currentBar == old(currentBar) && currentBeat == old(currentBeat) && currentStep == old(currentStep)
      ensures played == old(played) && log == old(log)
    {
      events := Tracks.GetEventsInRange(track.events, 0, loadedBarCount);
      if track.startOffset > 0.0 {
        delayedStart := true;
      } else if track.startOffset < 0.0 {
        timer := -track.startOffset;
        delayedStart := true;
        audioPlaying := true;
      }
    }

    /** One frame: advance the timer by `dt` (Time.deltaTime), pass the gate,
        refill an empty window, fire the due events and repeat the long
        attacks. A false `ok` is the failed cast, which ends the frame. */
    method Update(dt: real) returns (ok: bool)
      requires Valid()
      modifies this
      ensures Valid()
      ensures timer == old(timer) + dt
      // the start delay is only ever cleared
      ensures delayedStart ==> old(delayedStart)
      ensures old(delayedStart) && track.startOffset > 0.0 ==> delayedStart == (timer < track.startOffset)
      ensures old(delayedStart) && track.startOffset < 0.0 ==> delayedStart == (timer < 0.0)
      ensures audioPlaying ==
        (old(audioPlaying) || (old(delayedStart) && track.startOffset > 0.0 && timer >= track.startOffset))
      // a closed gate: nothing is loaded, fired or repeated
      ensures !GateOpen(old(delayedStart), track.startOffset, timer) ==>
        ok && events == old(events) && longAttacks == old(longAttacks) && lastPlayed == old(lastPlayed) &&
        currentBar == old(currentBar) && currentBeat == old(currentBeat) && currentStep == old(currentStep) &&
        played == old(played) && log == old(log)
      // an open gate: refill only an empty window
      ensures GateOpen(old(delayedStart), track.startOffset, timer) ==>
        events == (if loadedBarCount > 0 && old(events) == []
                   then Refill(track.events, old(currentBar), loadedBarCount) else old(events))
      // an open gate: fire one pass over the window
      ensures GateOpen(old(delayedStart), track.startOffset, timer) ==>
        var p := FirePass(events, LastTime(old(lastPlayed)), timer);
        ok == !p.failed && played == old(played) + p.fired &&
        (p.fired == [] ==>
           lastPlayed == old(lastPlayed) && currentBar == old(currentBar) &&
           currentBeat == old(currentBeat) && currentStep == old(currentStep)) &&
        (p.fired != [] ==>
           var e := p.fired[|p.fired| - 1];
           lastPlayed == LastPlayed(e) && currentBar == e.core.bar &&
           currentBeat == e.core.startBeat && currentStep == e.core.startStep) &&
        (p.failed ==> longAttacks == old(longAttacks) + LongOnes(p.fired) && log == old(log) + p.fired) &&
        (!p.failed ==>
           var t := TailPass(old(longAttacks) + LongOnes(p.fired), currentBeat, currentStep);
           longAttacks == t.kept && log == old(log) + p.fired + t.tails)
    {
      timer := timer + dt;

      if delayedStart {
        var offset := track.startOffset;
        if offset > 0.0 && timer >= offset {
          delayedStart := false;
          audioPlaying := true;
        }
        if offset < 0.0 && timer >= 0.0 {
          delayedStart := false;
        } else {
          return true;
        }
      }

      LoadIfEmpty();
      ok := Play();
    }

    /** Refills the window when it is empty: the next bar and LoadedBarCount
        bars after it. LoadedBarCount 0 never refills. */
    method LoadIfEmpty()
      requires Valid()
      modifies this
      ensures Valid()
      ensures events == (if loadedBarCount > 0 && old(events) == []
                         then Refill(track.events, currentBar, loadedBarCount) else old(events))
      ensures timer == old(timer) && delayedStart == old(delayedStart) && audioPlaying == old(audioPlaying)
      ensures longAttacks == old(longAttacks) && lastPlayed == old(lastPlayed)
      ensures currentBar == old(currentBar) && currentBeat == old(currentBeat) && currentStep == old(currentStep)
      ensures played == old(played) && log == old(log)
    {
      if loadedBarCount > 0 && |events| == 0 {
        var start := currentBar + 1;
        var last := start + loadedBarCount;
        events := Tracks.GetEventsInRange(track.events, start, last);
      }
    }

    /** Fires the due events of the window, then repeats the long attacks at
        the step reached. A false `ok` is the failed cast, which skips the
        repeats. */
    method Play() returns (ok: bool)
      requires Valid()
      modifies this
      ensures Valid()
      ensures events == old(events) && timer == old(timer)
      ensures delayedStart == old(delayedStart) && audioPlaying == old(audioPlaying)
      ensures var p := FirePass(events, LastTime(old(lastPlayed)), timer);
        ok == !p.failed && played == old(played) + p.fired &&
        (p.fired == [] ==>
           lastPlayed == old(lastPlayed) && currentBar == old(currentBar) &&
           currentBeat == old(currentBeat) && currentStep == old(currentStep)) &&
        (p.fired != [] ==>
           var e := p.fired[|p.fired| - 1];
           lastPlayed == LastPlayed(e) && currentBar == e.core.bar &&
           currentBeat == e.core.startBeat && currentStep == e.core.startStep) &&
        (p.failed ==> longAttacks == old(longAttacks) + LongOnes(p.fired) && log == old(log) + p.fired) &&
        (!p.failed ==>
           var t := TailPass(old(longAttacks) + LongOnes(p.fired), currentBeat, currentStep);
           longAttacks == t.kept && log == old(log) + p.fired + t.tails)
    {
      ok := FireAll();
      if ok {
        RepeatAll();
      }
    }

    /** The pass over the window. */
    method FireAll() returns (ok: bool)
      requires Valid()
      modifies this
      ensures Valid()
      ensures events == old(events) && timer == old(timer)
      ensures delayedStart == old(delayedStart) && audioPlaying == old(audioPlaying)
      ensures var p := FirePass(events, LastTime(old(lastPlayed)), timer);
        ok == !p.failed && played == old(played) + p.fired &&
        longAttacks == old(longAttacks) + LongOnes(p.fired) && log == old(log) + p.fired &&
        (p.fired == [] ==>
           lastPlayed == old(lastPlayed) && currentBar == old(currentBar) &&
           currentBeat == old(currentBeat) && currentStep == old(currentStep)) &&
        (p.fired != [] ==>
           var e := p.fired[|p.fired| - 1];
           lastPlayed == LastPlayed(e) && currentBar == e.core.bar &&
           currentBeat == e.core.startBeat && currentStep == e.core.startStep)
    {
      var fired, failed, lp, bar, beat, step, longs :=
        FireWindow(events, lastPlayed, currentBar, currentBeat, currentStep, longAttacks, timer);
      PlayedStaysChronological(played, events, lastPlayed, timer);
      LongAttacksStayNotes(longAttacks, fired);
      played, log := played + fired, log + fired;
      lastPlayed, currentBar, currentBeat, currentStep, longAttacks := lp, bar, beat, step, longs;
      ok := !failed;
    }

    /** The pass over LongAttacks at the current step. */
    method RepeatAll()
      requires Valid()
      modifies this
      ensures Valid()
      ensures var t := TailPass(old(longAttacks), currentBeat, currentStep);
        longAttacks == t.kept && log == old(log) + t.tails
      ensures events == old(events) && timer == old(timer) && played == old(played)
      ensures delayedStart == old(delayedStart) && audioPlaying == old(audioPlaying)
      ensures lastPlayed == old(lastPlayed) && currentBar == old(currentBar)
      ensures currentBeat == old(currentBeat) && currentStep == old(currentStep)
    {
      var kept, tails := RepeatLongAttacks(longAttacks, currentBeat, currentStep);
      longAttacks, log := kept, log + tails;
    }
  }

  /** With a negative start offset the timer starts at -StartOffset > 0, so the
      first frame already passes the gate: the beat counter does not wait for
      the audio's lead-in. */
  method NegativeOffsetOpensAtOnce(track: TrackData, loadedBarCount: int, dt: real)
    returns (d: MusicDirector)
    requires track.startOffset < 0.0 && dt >= 0.0
    ensures !d.delayedStart && d.timer > 0.0
  {
    d := new MusicDirector(track, loadedBarCount);
    d.Start();
    var ok := d.Update(dt);
  }

  /** With a positive start offset, the frame on which the audio starts is
      still a frame without loading or dispatch. */
  method PositiveOffsetStartFrameIsIdle(track: TrackData, loadedBarCount: int, dt: real)
    returns (d: MusicDirector)
    requires track.startOffset > 0.0 && dt >= track.startOffset
    ensures d.audioPlaying && !d.delayedStart
    ensures d.played == [] && d.log == [] && d.currentBar == 0
  {
    d := new MusicDirector(track, loadedBarCount);
    d.Start();
    var ok := d.Update(dt);
  }
}
