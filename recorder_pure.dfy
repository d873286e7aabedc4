/** The beatmap recorder's arithmetic (Recorder.cs): snapping an input to
    the snap steps, carrying an early input into the next step, beat and bar,
    the input-mode table, the beatmap file path, and the record-to-event
    mapping of Load. */
module RecorderLogic {
  import opened Events
  import opened StrippedEventsModel
  import Tracks

  /** A (bar, beat, step) position. */
  datatype Position = Position(bar: int, beat: int, step: int)

  /** The position counted in steps from (1, 1, 1). */
  function Ordinal(p: Position, numerator: int, denominator: int): int {
    ((p.bar - 1) * numerator + (p.beat - 1)) * denominator + (p.step - 1)
  }

  predicate InBounds(p: Position, numerator: int, denominator: int) {
    1 <= p.beat <= numerator && 1 <= p.step <= denominator
  }

  // ---------------------------------------------------------------------------
  // Early-input carry

  /** A step past the denominator carries into the beat, then a beat past the
      numerator carries into the bar. Carrying never changes the ordinal. */
  function Carry(p: Position, numerator: int, denominator: int): (q: Position)
    ensures Ordinal(q, numerator, denominator) == Ordinal(p, numerator, denominator)
    ensures q.bar == p.bar || q.bar == p.bar + 1
    ensures 1 <= p.step <= denominator + 1 && 1 <= p.beat <= numerator && denominator >= 1 ==>
      InBounds(q, numerator, denominator)
  {
    var step, beat := if p.step > denominator then p.step - denominator else p.step,
                      if p.step > denominator then p.beat + 1 else p.beat;
    assert ((p.bar - 1) * numerator + beat - 1) * denominator + step ==
           ((p.bar - 1) * numerator + p.beat - 1) * denominator + p.step by {
      if p.step > denominator {
        var x := (p.bar - 1) * numerator + p.beat - 1;
        assert (x + 1) * denominator == x * denominator + denominator;
      }
    }
    if beat > numerator then
      assert (p.bar * numerator + beat - numerator - 1) == (p.bar - 1) * numerator + beat - 1;
      Position(p.bar + 1, beat - numerator, step)
    else
      Position(p.bar, beat, step)
  }

  /** The step a new event starts from: the override unless it is 0. */
  function BaseStep(stepOverride: int, current: Position): int {
    if stepOverride == 0 then current.step else stepOverride
  }

  /** Where NewEvent places an event: one step later when the input was early
      (TimeSinceLastStep > StepDuration * InputAllowance), else where it is. */
  function EventPosition(stepOverride: int, current: Position, early: bool,
                         numerator: int, denominator: int): (q: Position)
    ensures var p := current.(step := BaseStep(stepOverride, current));
      (!early ==> q == p) &&
      (early ==> Ordinal(q, numerator, denominator) == Ordinal(p, numerator, denominator) + 1)
  {
    var p := current.(step := BaseStep(stepOverride, current));
    if early then Carry(p.(step := p.step + 1), numerator, denominator) else p
  }

  /** An early input on an in-bounds position lands on an in-bounds position
      exactly one step later. */
  lemma EarlyEventStaysInBounds(stepOverride: int, current: Position, numerator: int, denominator: int)
    requires numerator >= 1 && denominator >= 1
    requires InBounds(current.(step := BaseStep(stepOverride, current)), numerator, denominator)
    ensures var q := EventPosition(stepOverride, current, true, numerator, denominator);
      InBounds(q, numerator, denominator) &&
      Ordinal(q, numerator, denominator) == Ordinal(current.(step := BaseStep(stepOverride, current)), numerator, denominator) + 1
  {
  }

  /** How many times NewAttack's override loop advances the step: the length of
      the run of snap entries from index `i` on that continue `step` one by one. */
  function OverrideRun(snaps: seq<int>, step: int, i: nat): nat
    requires 1 <= i
    decreases |snaps| - i
  {
    if i < |snaps| && snaps[i] == step + i then 1 + OverrideRun(snaps, step, i + 1) else 0
  }

  /** The run advances only onto consecutive later snap entries, and stops at
      the first entry that does not continue it. */
  lemma {:induction false} OverrideRunMeaning(snaps: seq<int>, step: int, i: nat)
    requires 1 <= i
    ensures var d := OverrideRun(snaps, step, i);
      (d == 0 || i + d <= |snaps|) &&
      (forall j :: i <= j < i + d ==> snaps[j] == step + j) &&
      (i + d < |snaps| ==> snaps[i + d] != step + i + d)
    decreases |snaps| - i
  {
    if i < |snaps| && snaps[i] == step + i {
      OverrideRunMeaning(snaps, step, i + 1);
    }
  }

  /** With snap steps {1, 3} an override that is itself a snap step is never
      advanced, and the only override that is advanced is 2. */
  lemma OverrideRunWithOneThree(step: int)
    ensures OverrideRun([1, 3], step, 1) == (if step == 2 then 1 else 0)
  {
    assert OverrideRun([1, 3], step, 2) == 0;
  }

  /** Where NewAttack places an attack. An early input with a positive
      override advances along consecutive snap entries; otherwise it is +1. */
  function AttackPosition(snaps: seq<int>, stepOverride: int, current: Position, early: bool,
                          numerator: int, denominator: int): (q: Position)
    ensures stepOverride <= 0 ==> q == EventPosition(stepOverride, current, early, numerator, denominator)
    ensures var p := current.(step := BaseStep(stepOverride, current));
      Ordinal(q, numerator, denominator) == Ordinal(p, numerator, denominator) +
        (if !early then 0 else if stepOverride > 0 then OverrideRun(snaps, stepOverride, 1) else 1)
  {
    var step := BaseStep(stepOverride, current);
    if !early then current.(step := step)
    else if stepOverride > 0 then Carry(current.(step := step + OverrideRun(snaps, step, 1)), numerator, denominator)
    else Carry(current.(step := step + 1), numerator, denominator)
  }

  /** When no snap entry exceeds the denominator, an early attack from an
      in-bounds override lands in bounds: the run ends on a snap entry, so the
      step reached is at most the denominator before the carry. */
  lemma AttackStaysInBounds(snaps: seq<int>, stepOverride: int, current: Position,
                            numerator: int, denominator: int)
    requires numerator >= 1 && denominator >= 1 && stepOverride > 0
    requires InBounds(current.(step := stepOverride), numerator, denominator)
    requires forall k :: 0 <= k < |snaps| ==> snaps[k] <= denominator
    ensures InBounds(AttackPosition(snaps, stepOverride, current, true, numerator, denominator),
                     numerator, denominator)
  {
    OverrideRunMeaning(snaps, stepOverride, 1);
    var d := OverrideRun(snaps, stepOverride, 1);
    if d > 0 {
      assert snaps[d] == stepOverride + d;
    }
  }

  /** An early attack whose snap entries run past the denominator can leave
      the bar's steps: snap steps 1 to 9 in 4/4 from step 1 land on step 5. */
  lemma AttackLeavesBoundsWithLongSnaps()
    ensures !InBounds(AttackPosition([1, 2, 3, 4, 5, 6, 7, 8, 9], 1, Position(1, 1, 1), true, 4, 4), 4, 4)
  {
    var snaps := [1, 2, 3, 4, 5, 6, 7, 8, 9];
    assert OverrideRun(snaps, 1, 8) == 1;
  }

  /** NewAttack's override loop. */
  method AdvanceOverride(snaps: seq<int>, step: int) returns (advanced: int)
    ensures advanced == step + OverrideRun(snaps, step, 1)
  {
    advanced := step;
    var i := 1;
    while i < |snaps|
      invariant 1 <= i
      invariant advanced == step + i - 1
      invariant advanced + OverrideRun(snaps, step, i) == step + OverrideRun(snaps, step, 1)
    {
      if advanced + 1 == snaps[i] {
        advanced := advanced + 1;
      } else {
        break;
      }
      i := i + 1;
    }
  }

  /** NewAttack's early-input handling. */
  method EarlyAttackPosition(snaps: seq<int>, stepOverride: int, current: Position, early: bool,
                             numerator: int, denominator: int) returns (q: Position)
    ensures q == AttackPosition(snaps, stepOverride, current, early, numerator, denominator)
  {
    var assignedStep := if stepOverride == 0 then current.step else stepOverride;
    var assignedBeat := current.beat;
    var assignedBar := current.bar;
    if early {
      if stepOverride > 0 {
        assignedStep := AdvanceOverride(snaps, assignedStep);
      } else {
        assignedStep := assignedStep + 1;
      }
      if assignedStep > denominator {
        assignedStep := assignedStep - denominator;
        assignedBeat := assignedBeat + 1;
      }
      if assignedBeat > numerator {
        assignedBeat := assignedBeat - numerator;
        assignedBar := assignedBar + 1;
      }
    }
    q := Position(assignedBar, assignedBeat, assignedStep);
  }

  // ---------------------------------------------------------------------------
  // Input snapping

  ghost predicate StrictlyAscending(snaps: seq<int>) {
    forall i, j :: 0 <= i < j < |snaps| ==> snaps[i] < snaps[j]
  }

  ghost predicate AllPositive(snaps: seq<int>) {
    forall i :: 0 <= i < |snaps| ==> snaps[i] > 0
  }

  /** What the snapping loop leaves in `assignedStep` from index i on: the
      current step when it equals an entry, the entry when the step lies
      strictly between it and the next entry, and 0 when nothing matches. */
  function SnapFrom(snaps: seq<int>, c: int, i: nat): int
    requires i <= |snaps|
    decreases |snaps| - i
  {
    if i == |snaps| then 0
    else
      var next := if i + 1 == |snaps| then Tracks.IntMax else snaps[i + 1];
      if c == snaps[i] then c
      else if c > snaps[i] && c < next then snaps[i]
      else SnapFrom(snaps, c, i + 1)
  }

  /** The snapped step, falling back to the current step when the loop left 0. */
  function SnappedStep(snaps: seq<int>, c: int): int {
    var a := SnapFrom(snaps, c, 0);
    if a == 0 then c else a
  }

  /** The step passed on to NewAttack/NewEvent: 0 (no override) when snapping
      is disabled by the single-step key. */
  function AssignedStep(usesExactStep: bool, snaps: seq<int>, c: int): int {
    if usesExactStep then 0 else SnappedStep(snaps, c)
  }

  lemma {:induction false} SnapFromIsAtMost(snaps: seq<int>, c: int, i: nat)
    requires i <= |snaps|
    ensures var a := SnapFrom(snaps, c, i);
      a == 0 || a == c || (a < c && a in snaps)
    decreases |snaps| - i
  {
    if i < |snaps| {
      SnapFromIsAtMost(snaps, c, i + 1);
    }
  }

  /** The snapped step never exceeds the current step, and it is either the
      current step or one of the snap steps. */
  lemma SnappedStepIsAtMost(snaps: seq<int>, c: int)
    ensures SnappedStep(snaps, c) <= c
    ensures SnappedStep(snaps, c) == c || SnappedStep(snaps, c) in snaps
  {
    SnapFromIsAtMost(snaps, c, 0);
  }

  lemma {:induction false} SnapFromNone(snaps: seq<int>, c: int, i: nat)
    requires i <= |snaps|
    requires forall k :: i <= k < |snaps| ==> snaps[k] > c
    ensures SnapFrom(snaps, c, i) == 0
    decreases |snaps| - i
  {
    if i < |snaps| {
      SnapFromNone(snaps, c, i + 1);
    }
  }

  /** A step below every snap step falls back to itself. */
  lemma SnappedStepBelowAll(snaps: seq<int>, c: int)
    requires forall k :: 0 <= k < |snaps| ==> snaps[k] > c
    ensures SnappedStep(snaps, c) == c
  {
    SnapFromNone(snaps, c, 0);
  }

  lemma {:induction false} SnapFromLargest(snaps: seq<int>, c: int, i: nat)
    requires StrictlyAscending(snaps) && AllPositive(snaps) && c < Tracks.IntMax
    requires i < |snaps| && snaps[i] <= c
    ensures var a := SnapFrom(snaps, c, i);
      a in snaps[i..] && forall k :: i <= k < |snaps| && snaps[k] <= c ==> snaps[k] <= a
    decreases |snaps| - i
  {
    var next := if i + 1 == |snaps| then Tracks.IntMax else snaps[i + 1];
    if c == snaps[i] {
    } else if c > snaps[i] && c < next {
      forall k | i < k < |snaps| ensures snaps[k] > c {
        assert snaps[i + 1] <= snaps[k];
      }
    } else {
      SnapFromLargest(snaps, c, i + 1);
      assert snaps[i + 1..] == snaps[i..][1..];
    }
  }

  /** With ascending positive snap steps, the snapped step is the largest snap
      step not above the current step. */
  lemma SnappedStepIsLargestSnapBelow(snaps: seq<int>, c: int, k: nat)
    requires StrictlyAscending(snaps) && AllPositive(snaps) && c < Tracks.IntMax
    requires k < |snaps| && snaps[k] <= c
    ensures SnappedStep(snaps, c) in snaps && snaps[k] <= SnappedStep(snaps, c) <= c
  {
    assert snaps[0] <= snaps[k];
    SnapFromLargest(snaps, c, 0);
    SnapFromIsAtMost(snaps, c, 0);
    assert snaps[0..] == snaps;
  }

  /** With the default snap steps {1, 3}: 1 -> 1, 2 -> 1, 3 -> 3, 4 -> 3. */
  lemma SnapWithOneThree()
    ensures SnappedStep([1, 3], 1) == 1 && SnappedStep([1, 3], 2) == 1
    ensures SnappedStep([1, 3], 3) == 3 && SnappedStep([1, 3], 4) == 3
  {
    var snaps := [1, 3];
    SnappedStepIsLargestSnapBelow(snaps, 1, 0);
    SnappedStepIsLargestSnapBelow(snaps, 2, 0);
    SnappedStepIsLargestSnapBelow(snaps, 3, 1);
    SnappedStepIsLargestSnapBelow(snaps, 4, 1);
    SnappedStepIsAtMost(snaps, 2);
    SnappedStepIsAtMost(snaps, 4);
  }

  /** InputListener's snapping loop. */
  method SnapStep(snaps: seq<int>, currentStep: int) returns (assignedStep: int)
    ensures assignedStep == SnappedStep(snaps, currentStep)
    ensures assignedStep <= currentStep
  {
    assignedStep := 0;
    var i := 0;
    while i < |snaps|
      invariant 0 <= i <= |snaps|
      invariant SnapFrom(snaps, currentStep, i) == SnapFrom(snaps, currentStep, 0)
    {
      var currentSnap := snaps[i];
      var nextSnap := if i + 1 == |snaps| then Tracks.IntMax else snaps[i + 1];
      if currentStep == currentSnap {
        assignedStep := currentStep;
        break;
      } else if currentStep > currentSnap && currentStep < nextSnap {
        assignedStep := currentSnap;
        break;
      }
      i := i + 1;
    }
    if assignedStep == 0 {
      assignedStep := currentStep;
    }
    SnappedStepIsAtMost(snaps, currentStep);
  }

  // ---------------------------------------------------------------------------
  // Input modes

  /** The keys the recorder reads. Save and load keys are handled by calling
      Save and Load directly. */
  datatype Key =
    | P1Projectile | P1Laser | P2Projectile | P2Laser
    | NoneEvent | SegmentEvent | CustomEvent
    | StepInput1 | StepInput2 | BeatInput | SingleStepInput

  /** The recorder's input mode: who attacks, what kind of event and attack,
      and InputType (1 = attacks, 2 = other events, anything else = none). */
  datatype Mode = Mode(attackingPlayer: int, eventType: EventType, attackType: AttackType, inputType: int)

  /** Attack mode records attack events; event mode records other events. */
  predicate ModeConsistent(m: Mode) {
    (m.inputType == 1 ==> m.eventType == Attack) &&
    (m.inputType == 2 ==> m.eventType != Attack)
  }

  predicate AttackKeyDown(down: set<Key>) {
    P1Projectile in down || P1Laser in down || P2Projectile in down || P2Laser in down
  }

  predicate EventKeyDown(down: set<Key>) {
    NoneEvent in down || SegmentEvent in down || CustomEvent in down
  }

  /** The mode-switching chain of InputListener: the first pressed key in the
      order P1 projectile, P1 laser, P2 projectile, P2 laser, none, segment,
      custom decides the mode. */
  function SwitchMode(m: Mode, down: set<Key>, p1: int, p2: int): (r: Mode)
    // attack keys select a player and an attack kind in attack mode
    ensures AttackKeyDown(down) ==>
      r.inputType == 1 && r.eventType == Attack &&
      r.attackingPlayer == (if P1Projectile in down || P1Laser in down then p1 else p2) &&
      r.attackType == (if P1Projectile in down || (P1Laser !in down && P2Projectile in down) then Projectile else Laser)
    // event keys select event mode and leave player and attack kind alone
    ensures !AttackKeyDown(down) && EventKeyDown(down) ==>
      r.inputType == 2 && r.attackingPlayer == m.attackingPlayer && r.attackType == m.attackType &&
      r.eventType == (if NoneEvent in down then None else if SegmentEvent in down then Segment else Custom)
    ensures !AttackKeyDown(down) && !EventKeyDown(down) ==> r == m
    ensures ModeConsistent(m) ==> ModeConsistent(r)
  {
    if P1Projectile in down then Mode(p1, Attack, Projectile, 1)
    else if P1Laser in down then Mode(p1, Attack, Laser, 1)
    else if P2Projectile in down then Mode(p2, Attack, Projectile, 1)
    else if P2Laser in down then Mode(p2, Attack, Laser, 1)
    else if NoneEvent in down then m.(eventType := None, inputType := 2)
    else if SegmentEvent in down then m.(eventType := Segment, inputType := 2)
    else if CustomEvent in down then m.(eventType := Custom, inputType := 2)
    else m
  }

  // ---------------------------------------------------------------------------
  // Beatmap file paths

  /** The host values the path is built from: the user's documents folder and
      the product name. */
  datatype Host = Host(documents: string, productName: string)

  /** The Track fields the recorder reads. */
  datatype TrackInfo = TrackInfo(name: string, artist: string, beatMapCreator: string,
                                 numerator: int, denominator: int)

  function BeatmapFolder(host: Host): string {
    host.documents + "/" + host.productName + "/Beatmaps"
  }

  function BeatmapFileName(track: TrackInfo): string {
    "DDBeatmap by " + track.beatMapCreator + ", " + track.artist + " - " + track.name + ".json"
  }

  /** The path Save writes: a JSON file under the Beatmaps folder. */
  function SavePath(host: Host, track: TrackInfo): (path: string)
    ensures |path| > |BeatmapFolder(host)| + 1
    ensures path[..|BeatmapFolder(host)| + 1] == BeatmapFolder(host) + "/"
    ensures path[|path| - 5..] == ".json"
  {
    var folder := BeatmapFolder(host);
    var file := BeatmapFileName(track);
    assert file[|file| - 5..] == ".json";
    folder + "/" + file
  }

  /** `LoadFilePath` counts as absolute when it is longer than two characters
      and its second character is a drive colon. */
  predicate IsAbsolute(loadFilePath: string) {
    |loadFilePath| > 2 && loadFilePath[1] == ':'
  }

  /** The path Load reads: LoadFilePath when absolute, else the path Save
      writes for the same Track fields. */
  function LoadPath(loadFilePath: string, host: Host, track: TrackInfo): (path: string)
    ensures IsAbsolute(loadFilePath) ==> path == loadFilePath
    ensures !IsAbsolute(loadFilePath) ==> path == SavePath(host, track)
  {
    if IsAbsolute(loadFilePath) then loadFilePath else SavePath(host, track)
  }

  // ---------------------------------------------------------------------------
  // Records and events

  /** The event NewEvent records. */
  function EventRecord(eventType: EventType, p: Position): TimedEvent {
    Plain(DefaultCore.(eventType := eventType, bar := p.bar, startBeat := p.beat, startStep := p.step))
  }

  /** The attack NewAttack records. */
  function AttackRecord(m: Mode, p: Position): TimedEvent {
    Note(DefaultCore.(eventType := m.eventType, bar := p.bar, startBeat := p.beat, startStep := p.step),
         DefaultAttack.(attack := m.attackType, playerId := m.attackingPlayer))
  }

  /** The event Load rebuilds from one record: an attack note when the record's
      type is Attack, a plain event otherwise; everything else keeps its
      initial value. */
  function Rebuild(n: StrippedEvents): (e: TimedEvent)
    ensures e.Note? <==> n.eventType == Attack
    ensures e.core.eventType == n.eventType
    ensures e.core.bar == n.startBar && e.core.startBeat == n.startBeat && e.core.startStep == n.startStep
    ensures e.core.offset == 0.0 && e.core.target == 0 && e.core.startTime == 0.0
    ensures e.Note? ==> e.atk.attack == n.attackType && e.atk.playerId == n.ownerId &&
                        e.atk.weight == 1 && e.atk.extendedWeight == 0 && e.atk.duration == 0
  {
    if n.eventType == Attack then
      Note(DefaultCore.(eventType := n.eventType, bar := n.startBar, startBeat := n.startBeat, startStep := n.startStep),
           DefaultAttack.(attack := n.attackType, playerId := n.ownerId))
    else
      Plain(DefaultCore.(eventType := n.eventType, bar := n.startBar, startBeat := n.startBeat, startStep := n.startStep))
  }

  /** Flattening and then rebuilding keeps the type and the position, and for
      attack notes of type Attack the owner and the attack kind; weights,
      duration and offset are not restored. */
  lemma RebuildAfterStrip(e: TimedEvent)
    ensures var r := Rebuild(Strip(e));
      r.core.eventType == e.core.eventType &&
      r.core.bar == e.core.bar && r.core.startBeat == e.core.startBeat && r.core.startStep == e.core.startStep &&
      r.core.offset == 0.0 &&
      (e.Note? && e.core.eventType == Attack ==>
         r.Note? && r.atk.playerId == e.atk.playerId && r.atk.attack == e.atk.attack &&
         r.atk.weight == 1 && r.atk.duration == 0)
  {
  }
}
