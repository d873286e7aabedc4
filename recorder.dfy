/** The beatmap recorder component (Recorder.cs): the input mode it keeps,
    the events it records as children, and saving and loading them. */
module Recording {
  import opened Events
  import opened StrippedEventsModel
  import opened RecorderLogic

  /** What `CurrentAttack` / `CurrentEvent` refer to: nothing, the recorded
      child at an index, or a child that Save has since destroyed. */
  datatype Slot = Empty | At(index: nat) | Detached

  /** After Save destroys the children, a reference to one of them no longer
      reaches a recorded event. */
  function Detach(s: Slot): Slot {
    if s.At? then Detached else s
  }

  /** An attack note with `steps` more steps of duration. */
  function Extend(n: TimedEvent, steps: int): TimedEvent
    requires n.Note?
  {
    n.(atk := n.atk.(duration := n.atk.duration + steps))
  }

  /** The children after ExtendAttack: only a live current attack changes, and
      only when there are steps to add. */
  function ExtendedChildren(children: seq<TimedEvent>, current: Slot, steps: int): seq<TimedEvent>
    requires current.At? ==> current.index < |children| && children[current.index].Note?
  {
    if steps == 0 || !current.At? then children
    else children[current.index := Extend(children[current.index], steps)]
  }

  predicate Pressed(down: set<Key>) {
    StepInput1 in down || StepInput2 in down || BeatInput in down
  }

  predicate StillPressed(held: set<Key>) {
    StepInput1 in held || StepInput2 in held || BeatInput in held
  }

  /** What a press records in the given mode: an attack in attack mode, an
      event in event mode, nothing otherwise. */
  function PressRecord(m: Mode, snaps: seq<int>, step: int, current: Position, early: bool,
                       track: TrackInfo): seq<TimedEvent>
  {
    if m.inputType == 1 then
      [AttackRecord(m, AttackPosition(snaps, step, current, early, track.numerator, track.denominator))]
    else if m.inputType == 2 then
      [EventRecord(m.eventType, EventPosition(step, current, early, track.numerator, track.denominator))]
    else []
  }

  /** `isReleased` as written: its third term reads the held beat key. */
  predicate Released(up: set<Key>, held: set<Key>) {
    StepInput1 in up || StepInput2 in up || BeatInput in held
  }

  class Recorder {
    var mode: Mode
    var children: seq<TimedEvent>
    var currentAttack: Slot
    var currentEvent: Slot
    var snapSteps: seq<int>
    var loadFilePath: string

    ghost predicate Valid()
      reads this
    {
      ModeConsistent(mode) &&
      (currentAttack.At? ==> currentAttack.index < |children| && children[currentAttack.index].Note?) &&
      (currentEvent.At? ==> currentEvent.index < |children|)
    }

    /** The field initialisers: no mode, no events, snap steps {1, 3}. */
    constructor ()
      ensures Valid()
      ensures mode == Mode(0, None, Projectile, 0)
      ensures children == [] && currentAttack == Empty && currentEvent == Empty
      ensures snapSteps == [1, 3] && loadFilePath == ""
    {
      mode := Mode(0, None, Projectile, 0);
      children := [];
      currentAttack := Empty;
      currentEvent := Empty;
      snapSteps := [1, 3];
      loadFilePath := "";
    }

    /** Records an event of the current event type at the current position,
        one step later for an early input. */
    method NewEvent(stepOverride: int, current: Position, early: bool, track: TrackInfo)
      requires Valid()
      modifies this
      ensures Valid()
      ensures children == old(children) +
        [EventRecord(mode.eventType, EventPosition(stepOverride, current, early, track.numerator, track.denominator))]
      ensures currentEvent == At(|old(children)|)
      ensures mode == old(mode) && currentAttack == old(currentAttack)
      ensures snapSteps == old(snapSteps) && loadFilePath == old(loadFilePath)
    {
      var assignedStep := if stepOverride == 0 then current.step else stepOverride;
      var assignedBeat := current.beat;
      var assignedBar := current.bar;
      if early {
        assignedStep := assignedStep + 1;
        if assignedStep > track.denominator {
          assignedStep := assignedStep - track.denominator;
          assignedBeat := assignedBeat + 1;
        }
        if assignedBeat > track.numerator {
          assignedBeat := assignedBeat - track.numerator;
          assignedBar := assignedBar + 1;
        }
      }
      var note := EventRecord(mode.eventType, Position(assignedBar, assignedBeat, assignedStep));
      children := children + [note];
      currentEvent := At(|children| - 1);
    }

    /** Records an attack of the current player and attack kind and makes it
        the current attack. */
    method NewAttack(stepOverride: int, current: Position, early: bool, track: TrackInfo)
      requires Valid()
      modifies this
      ensures Valid()
      ensures children == old(children) +
        [AttackRecord(mode, AttackPosition(snapSteps, stepOverride, current, early, track.numerator, track.denominator))]
      ensures currentAttack == At(|old(children)|)
      ensures mode == old(mode) && currentEvent == old(currentEvent)
      ensures snapSteps == old(snapSteps) && loadFilePath == old(loadFilePath)
    {
      var p := EarlyAttackPosition(snapSteps, stepOverride, current, early, track.numerator, track.denominator);
      var note := AttackRecord(mode, p);
      children := children + [note];
      currentAttack := At(|children| - 1);
    }

    /** A press: an attack in attack mode, an event in event mode, nothing
        otherwise. */
    method Record(stepOverride: int, current: Position, early: bool, track: TrackInfo)
      requires Valid()
      modifies this
      ensures Valid()
      ensures children == old(children) + PressRecord(mode, snapSteps, stepOverride, current, early, track)
      ensures currentAttack == (if mode.inputType == 1 then At(|old(children)|) else old(currentAttack))
      ensures currentEvent == (if mode.inputType == 2 then At(|old(children)|) else old(currentEvent))
      ensures mode == old(mode) && snapSteps == old(snapSteps) && loadFilePath == old(loadFilePath)
    {
      if mode.inputType == 1 {
        NewAttack(stepOverride, current, early, track);
      } else if mode.inputType == 2 {
        NewEvent(stepOverride, current, early, track);
      }
    }

    /** Adds the accumulated steps to the current attack's duration. With no
        current attack and steps to add, the dereference fails (ok is false). */
    method ExtendAttack(stepsToAdd: int) returns (ok: bool)
      requires Valid()
      modifies this
      ensures Valid()
      ensures ok == (stepsToAdd == 0 || old(currentAttack) != Empty)
      ensures children == ExtendedChildren(old(children), old(currentAttack), stepsToAdd)
      ensures stepsToAdd == 0 ==> children == old(children)
      ensures mode == old(mode) && currentAttack == old(currentAttack) && currentEvent == old(currentEvent)
      ensures snapSteps == old(snapSteps) && loadFilePath == old(loadFilePath)
    {
      if stepsToAdd == 0 {
        return true;
      }
      match currentAttack
      case Empty =>
        ok := false;
      case Detached =>
        ok := true;
      case At(i) =>
        children := children[i := Extend(children[i], stepsToAdd)];
        ok := true;
    }

    /** One frame of InputListener without the save and load keys: switch the
        mode, snap the step, then record, extend or release. `early` stands for
        TimeSinceLastStep > StepDuration * InputAllowance. A false `ok` is the
        null dereference of ExtendAttack, which ends the frame. */
    method InputListener(down: set<Key>, held: set<Key>, up: set<Key>, current: Position,
                         early: bool, stepsAccumulated: int, p1: int, p2: int, track: TrackInfo)
      returns (ok: bool)
      requires Valid()
      modifies this
      ensures Valid()
      ensures mode == SwitchMode(old(mode), down, p1, p2)
      ensures snapSteps == old(snapSteps) && loadFilePath == old(loadFilePath)
      ensures var step := AssignedStep(SingleStepInput in held, snapSteps, current.step);
        if Pressed(down) then
          ok && children == old(children) + PressRecord(mode, snapSteps, step, current, early, track)
        else if StillPressed(held) && mode.inputType == 1 then
          ok == (stepsAccumulated == 0 || old(currentAttack) != Empty) &&
          children == ExtendedChildren(old(children), old(currentAttack), stepsAccumulated)
        else
          ok && children == old(children)
      ensures currentEvent == (if Pressed(down) && mode.inputType == 2 then At(|old(children)|) else old(currentEvent))
      ensures var recorded := if Pressed(down) && mode.inputType == 1 then At(|old(children)|) else old(currentAttack);
        currentAttack == (if ok && Released(up, held) && !StillPressed(held) then Empty else recorded)
    {
      mode := SwitchMode(mode, down, p1, p2);

      var isPressed := Pressed(down);
      var stillPressed := StillPressed(held);
      var isReleased := Released(up, held);
      var usesExactStep := SingleStepInput in held;

      var assignedStep := 0;
      if !usesExactStep {
        assignedStep := SnapStep(snapSteps, current.step);
      }

      ok := true;
      if isPressed {
        Record(assignedStep, current, early, track);
      } else if stillPressed && mode.inputType == 1 {
        ok := ExtendAttack(stepsAccumulated);
        if !ok {
          return;
        }
      }

      if isReleased && !stillPressed {
        currentAttack := Empty;
      }
    }

    /** Flattens every recorded child into a record, destroys the children and
        gives the path and the records to write. */
    method Save(host: Host, track: TrackInfo) returns (path: string, records: seq<StrippedEvents>)
      requires Valid()
      modifies this
      ensures Valid()
      ensures path == SavePath(host, track)
      ensures |records| == |old(children)|
      ensures forall i :: 0 <= i < |records| ==> records[i] == Strip(old(children)[i])
      ensures children == []
      ensures currentAttack == Detach(old(currentAttack)) && currentEvent == Detach(old(currentEvent))
      ensures mode == old(mode) && snapSteps == old(snapSteps) && loadFilePath == old(loadFilePath)
    {
      records := ToJson(children);
      children := [];
      currentAttack := Detach(currentAttack);
      currentEvent := Detach(currentEvent);
      path := SavePath(host, track);
    }

    /** Reads the records at the load path from `disk` (the files that exist)
        and appends one rebuilt event per record. A missing file changes nothing. */
    method Load(host: Host, track: TrackInfo, disk: map<string, seq<StrippedEvents>>) returns (found: bool)
      requires Valid()
      modifies this
      ensures Valid()
      ensures found == (LoadPath(loadFilePath, host, track) in disk)
      ensures !found ==> children == old(children)
      ensures found ==> var records := disk[LoadPath(loadFilePath, host, track)];
        |children| == |old(children)| + |records| &&
        children[..|old(children)|] == old(children) &&
        forall i :: 0 <= i < |records| ==> children[|old(children)| + i] == Rebuild(records[i])
      ensures mode == old(mode) && currentAttack == old(currentAttack) && currentEvent == old(currentEvent)
      ensures snapSteps == old(snapSteps) && loadFilePath == old(loadFilePath)
    {
      var path := LoadPath(loadFilePath, host, track);
      if path !in disk {
        return false;
      }
      found := true;
      var strippedEvents := disk[path];
      ghost var before := children;
      for i := 0 to |strippedEvents|
        invariant Valid()
        invariant |children| == |before| + i
        invariant children[..|before|] == before
        invariant forall k :: 0 <= k < i ==> children[|before| + k] == Rebuild(strippedEvents[k])
        invariant mode == old(mode) && currentAttack == old(currentAttack) && currentEvent == old(currentEvent)
        invariant snapSteps == old(snapSteps) && loadFilePath == old(loadFilePath)
      {
        children := children + [Rebuild(strippedEvents[i])];
      }
    }
  }

  /** Saving and then loading with a relative LoadFilePath reads back what was
      saved: one event per saved event, with its type and position. */
  method SaveThenLoad(r: Recorder, host: Host, track: TrackInfo, disk: map<string, seq<StrippedEvents>>)
    returns (disk': map<string, seq<StrippedEvents>>)
    requires r.Valid() && !IsAbsolute(r.loadFilePath)
    modifies r
    ensures r.Valid()
    ensures |r.children| == |old(r.children)|
    ensures forall i :: 0 <= i < |r.children| ==> r.children[i] == Rebuild(Strip(old(r.children)[i]))
    ensures forall i :: 0 <= i < |r.children| ==>
      r.children[i].core.eventType == old(r.children)[i].core.eventType &&
      r.children[i].core.bar == old(r.children)[i].core.bar &&
      r.children[i].core.startBeat == old(r.children)[i].core.startBeat &&
      r.children[i].core.startStep == old(r.children)[i].core.startStep
  {
    var path, records := r.Save(host, track);
    disk' := disk[path := records];
    var found := r.Load(host, track, disk');
    forall i | 0 <= i < |r.children| ensures r.children[i] == Rebuild(Strip(old(r.children)[i])) {
      assert r.children[i] == r.children[0 + i];
    }
    forall i | 0 <= i < |old(r.children)| {
      RebuildAfterStrip(old(r.children)[i]);
    }
  }
}
