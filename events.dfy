/** The event records of a beatmap: the generic timed event (TimedEvent.cs) and
    its attack specialisation (AttackNote.cs), as one tagged datatype. */
module Events {

  /** The kinds of events that may be triggered. */
  datatype EventType = None | Segment | Attack | Custom

  /** The kinds of attack a player can do. */
  datatype AttackType = Projectile | Laser

  /** The fields every timed event carries. `bar` is the field the sources call
      `Bar` in some files and `StartBar` in others; `target` and `startTime` are
      used by the scheduler and the serialiser but not declared in TimedEvent.cs. */
  datatype EventCore = EventCore(
    bar: int,
    startBeat: int,
    startStep: int,
    offset: real,
    eventType: EventType,
    target: int,
    startTime: real)

  /** The fields only an attack note carries. `playerId`, `extendedWeight`,
      `duration`, `durationLeft` and `lastStepPlayed` are used by the scheduler,
      the recorder and the serialiser but not declared in AttackNote.cs. */
  datatype AttackFields = AttackFields(
    playerId: int,
    endBeat: int,
    endStep: int,
    attack: AttackType,
    weight: int,
    extendedWeight: int,
    duration: int,
    durationLeft: int,
    lastStepPlayed: int)

  /** A timed event. The constructor is the runtime class: `Note` is an
      AttackNote object, `Plain` any other TimedEvent. The class is independent
      of `core.eventType`, which the AttackNote constructor lets the caller choose. */
  datatype TimedEvent = Plain(core: EventCore) | Note(core: EventCore, atk: AttackFields)

  /** The field initialisers of TimedEvent; undeclared fields start at 0. */
  const DefaultCore := EventCore(0, 0, 0, 0.0, None, 0, 0.0)

  /** The field initialisers of AttackNote (`Weight = 1`, `Attack = Projectile`);
      undeclared fields start at 0. */
  const DefaultAttack := AttackFields(0, 0, 0, Projectile, 1, 0, 0, 0, 0)

  /** A position is valid when bar, beat and step all count from 1. */
  predicate ValidPosition(e: TimedEvent) {
    e.core.bar >= 1 && e.core.startBeat >= 1 && e.core.startStep >= 1
  }

  /** The offset of an event must not exceed the duration of one step. */
  predicate OffsetWithinStep(e: TimedEvent, stepDuration: real) {
    e.core.offset <= stepDuration
  }

  /** `new TimedEvent(type, beat, step = 1, offset = 0)`. */
  function NewTimedEvent(eventType: EventType, beat: int, step: int := 1, offset: real := 0.0): (e: TimedEvent)
    ensures e.Plain?
    ensures e.core.eventType == eventType && e.core.startBeat == beat
    ensures e.core.startStep == step && e.core.offset == offset
    // the constructor never sets the bar, which keeps the invalid value 0
    ensures e.core.bar == 0 && !ValidPosition(e)
    ensures e.core.target == 0 && e.core.startTime == 0.0
  {
    Plain(DefaultCore.(eventType := eventType, startBeat := beat, startStep := step, offset := offset))
  }

  /** `new AttackNote(type, attack, beatStart, stepStart = 1, beatEnd = 0,
      stepEnd = 0, offset = 0)`: the base constructor is called with
      `EventType.Attack`, after which `Type` is overwritten with `type`. */
  function NewAttackNote(eventType: EventType, attack: AttackType, beatStart: int,
                         stepStart: int := 1, beatEnd: int := 0, stepEnd: int := 0,
                         offset: real := 0.0): (n: TimedEvent)
    ensures n.Note?
    ensures n.core.eventType == eventType
    ensures n.atk.attack == attack
    ensures n.core.startBeat == beatStart && n.core.startStep == stepStart
    ensures n.atk.endBeat == beatEnd && n.atk.endStep == stepEnd
    ensures n.core.offset == offset
    // the weight keeps its initialiser; the bar is never set
    ensures n.atk.weight == 1 && n.core.bar == 0
    ensures n.atk.duration == 0 && n.atk.durationLeft == 0 && n.atk.playerId == 0
  {
    var base := NewTimedEvent(Attack, beatStart, stepStart, offset);
    Note(base.core.(eventType := eventType, startBeat := beatStart, startStep := stepStart, offset := offset),
         DefaultAttack.(attack := attack, endBeat := beatEnd, endStep := stepEnd))
  }

  /** The beat of the last projectile of a long attack: stored end beats below 2
      stand for the start beat. */
  function EffectiveEndBeat(n: TimedEvent): (b: int)
    requires n.Note?
    ensures b == n.core.startBeat || (b == n.atk.endBeat && b >= 2)
    ensures n.atk.endBeat < 2 ==> b == n.core.startBeat
    ensures n.atk.endBeat >= 2 ==> b == n.atk.endBeat
  {
    if n.atk.endBeat < 2 then n.core.startBeat else n.atk.endBeat
  }

  /** The step of the last projectile of a long attack: stored end steps below 2
      stand for the start step. */
  function EffectiveEndStep(n: TimedEvent): (s: int)
    requires n.Note?
    ensures s == n.core.startStep || (s == n.atk.endStep && s >= 2)
    ensures n.atk.endStep < 2 ==> s == n.core.startStep
    ensures n.atk.endStep >= 2 ==> s == n.atk.endStep
  {
    if n.atk.endStep < 2 then n.core.startStep else n.atk.endStep
  }

  /** A note built with the default end values ends where it starts. */
  lemma DefaultNoteEndsAtStart(eventType: EventType, attack: AttackType, beat: int, step: int)
    ensures var n := NewAttackNote(eventType, attack, beat, step);
      EffectiveEndBeat(n) == beat && EffectiveEndStep(n) == step
  {
  }
}
