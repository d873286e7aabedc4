/** The older flat record (NoteJson.cs): the same fields and the same
    flattening as StrippedEvents under another name. */
module NoteJsonModel {
  import opened Events
  import StrippedEventsModel

  /** One record of a beatmap file, older name. */
  datatype NoteJson = NoteJson(
    ownerId: int,
    targetId: int,
    eventType: EventType,
    attackType: AttackType,
    weight: int,
    extendedWeight: int,
    startBar: int,
    startBeat: int,
    startStep: int,
    offset: real,
    duration: int)

  /** The constructor; each argument is stored in the field of the same name. */
  function Make(owner: int, target: int, startBar: int, startBeat: int, startStep: int,
                duration: int, offset: real, weight: int, extendedWeight: int,
                eventType: EventType, attackType: AttackType): (r: NoteJson)
    ensures r.ownerId == owner && r.targetId == target
    ensures r.startBar == startBar && r.startBeat == startBeat && r.startStep == startStep
    ensures r.duration == duration && r.offset == offset
    ensures r.weight == weight && r.extendedWeight == extendedWeight
    ensures r.eventType == eventType && r.attackType == attackType
  {
    NoteJson(owner, target, eventType, attackType, weight, extendedWeight,
             startBar, startBeat, startStep, offset, duration)
  }

  /** The record ToJson builds for one event. */
  function Strip(e: TimedEvent): (r: NoteJson)
    ensures r.startBar == e.core.bar && r.startBeat == e.core.startBeat && r.startStep == e.core.startStep
    ensures r.offset == e.core.offset && r.eventType == e.core.eventType && r.targetId == e.core.target
    ensures e.Plain? ==> r.ownerId == 0 && r.duration == 0 && r.weight == 0 &&
                         r.extendedWeight == 0 && r.attackType == Projectile
    ensures e.Note? ==> r.ownerId == e.atk.playerId && r.duration == e.atk.duration &&
                        r.weight == e.atk.weight && r.extendedWeight == e.atk.extendedWeight &&
                        r.attackType == e.atk.attack
  {
    var isNote := e.Note?;
    Make(if isNote then e.atk.playerId else 0,
         e.core.target,
         e.core.bar,
         e.core.startBeat,
         e.core.startStep,
         if isNote then e.atk.duration else 0,
         e.core.offset,
         if isNote then e.atk.weight else 0,
         if isNote then e.atk.extendedWeight else 0,
         e.core.eventType,
         if isNote then e.atk.attack else Projectile)
  }

  /** `ToJson(List<TimedEvent>)` up to the serialiser call. */
  method ToJson(events: seq<TimedEvent>) returns (notes: seq<NoteJson>)
    ensures |notes| == |events|
    ensures forall i :: 0 <= i < |events| ==> notes[i] == Strip(events[i])
  {
    notes := [];
    for i := 0 to |events|
      invariant |notes| == i
      invariant forall k :: 0 <= k < i ==> notes[k] == Strip(events[k])
    {
      notes := notes + [Strip(events[i])];
    }
  }

  /** A NoteJson record read field by field as a StrippedEvents record. */
  function AsStripped(n: NoteJson): StrippedEventsModel.StrippedEvents {
    StrippedEventsModel.StrippedEvents(n.ownerId, n.targetId, n.eventType, n.attackType,
      n.weight, n.extendedWeight, n.startBar, n.startBeat, n.startStep, n.offset, n.duration)
  }

  /** Both flattenings turn one event into the same record, field for field. */
  lemma StripsAgree(e: TimedEvent)
    ensures AsStripped(Strip(e)) == StrippedEventsModel.Strip(e)
  {
  }

  /** For the same input list both flattenings produce, field for field, the
      same records. */
  method BothFlatteningsAgree(events: seq<TimedEvent>)
    returns (older: seq<NoteJson>, newer: seq<StrippedEventsModel.StrippedEvents>)
    ensures |older| == |newer| == |events|
    ensures forall i :: 0 <= i < |events| ==> AsStripped(older[i]) == newer[i]
  {
    older := ToJson(events);
    newer := StrippedEventsModel.ToJson(events);
    forall i | 0 <= i < |events| {
      StripsAgree(events[i]);
    }
  }
}
