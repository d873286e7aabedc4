/** The flat beatmap record (StrippedEvents.cs) and the flattening of timed
    events into records that precedes serialisation. */
module StrippedEventsModel {
  import opened Events

  /** One record of a beatmap file. */
  datatype StrippedEvents = StrippedEvents(
    ownerId: int,
    targetId: int,
    eventType: EventType,
    attackType: AttackType,
    weight: int,
    extendedWeight: int,
    startBar: int,
    startBeat: int,
    startStep: int,
    offset: real,
    duration: int)

  /** The constructor. Its parameters come in a different order from the
      fields; each one is stored in the field of the same name. */
  function Make(owner: int, target: int, startBar: int, startBeat: int, startStep: int,
                duration: int, offset: real, weight: int, extendedWeight: int,
                eventType: EventType, attackType: AttackType): (r: StrippedEvents)
    ensures r.ownerId == owner && r.targetId == target
    ensures r.startBar == startBar && r.startBeat == startBeat && r.startStep == startStep
    ensures r.duration == duration && r.offset == offset
    ensures r.weight == weight && r.extendedWeight == extendedWeight
    ensures r.eventType == eventType && r.attackType == attackType
  {
    StrippedEvents(owner, target, eventType, attackType, weight, extendedWeight,
                   startBar, startBeat, startStep, offset, duration)
  }

  /** The record ToJson builds for one event. Whether the attack fields are
      copied depends on the runtime class (`as AttackNote`), not on the type. */
  function Strip(e: TimedEvent): (r: StrippedEvents)
    // every record copies the position, offset, type and target
    ensures r.startBar == e.core.bar && r.startBeat == e.core.startBeat && r.startStep == e.core.startStep
    ensures r.offset == e.core.offset && r.eventType == e.core.eventType && r.targetId == e.core.target
    // events that are not attack notes get zeros and attack ordinal 0
    ensures e.Plain? ==> r.ownerId == 0 && r.duration == 0 && r.weight == 0 &&
                         r.extendedWeight == 0 && r.attackType == Projectile
    // attack notes copy their attack fields
    ensures e.Note? ==> r.ownerId == e.atk.playerId && r.duration == e.atk.duration &&
                        r.weight == e.atk.weight && r.extendedWeight == e.atk.extendedWeight &&
                        r.attackType == e.atk.attack
  {
    var isNote := e.Note?;
    Make(if isNote then e.atk.playerId else 0,
         e.core.target,
         e.core.bar,
         e.core.startBeat,
         e.core.startStep,
         if isNote then e.atk.duration else 0,
         e.core.offset,
         if isNote then e.atk.weight else 0,
         if isNote then e.atk.extendedWeight else 0,
         e.core.eventType,
         if isNote then e.atk.attack else Projectile)
  }

  /** `ToJson(List<TimedEvent>)` up to the serialiser call: one record per
      event, in the same order. */
  method ToJson(events: seq<TimedEvent>) returns (notes: seq<StrippedEvents>)
    ensures |notes| == |events|
    ensures forall i :: 0 <= i < |events| ==> notes[i] == Strip(events[i])
  {
    notes := [];
    for i := 0 to |events|
      invariant |notes| == i
      invariant forall k :: 0 <= k < i ==> notes[k] == Strip(events[k])
    {
      notes := notes + [Strip(events[i])];
    }
  }
}
