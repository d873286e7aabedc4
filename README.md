# Duet-Duel rhythm scheduling, modelled in Dafny

This project models the rhythm-scheduling core of the Duet-Duel Unity game.
It covers the data a beatmap is made of, the bar-range query that loads it, the
director that fires events on time, and the recorder that turns key presses into
events and writes and reads beatmap files.

- `events.dfy` (module `Events`): `TimedEvent` and `AttackNote` as one tagged
  datatype. `Plain(core)` is a plain `TimedEvent` and `Note(core, atk)` is an
  `AttackNote`. The tag is the runtime class, which is what `as AttackNote`
  tests; it is independent of the `Type` field. The file also has both
  constructors with their default arguments, and the "effective end" rule for
  end beats and end steps below 2.
- `track.dfy` (module `Tracks`): `Track.GetEventsInRange`.
  - The sentinel bounds are normalised: a start of 1 or less means 1, and an
    end of 0 or less means `int.MaxValue`.
  - The binary search is written as the code has it. `Probe` is its recursive
    mirror, and the `while` loop is proved equal to it.
  - A forward scan follows the search.
  - `Filter` is the answer the doc comment promises. The lemmas relate the
    result as written to `Filter`.
  - `GetEventsInRangeFromLowerBound` is the corrected query (see Findings).
    The director loads through the query as written, as the game does.
- `stripped_events.dfy` and `note_json.dfy` (modules `StrippedEventsModel` and
  `NoteJsonModel`): the flat records, their constructors and the flattening
  `ToJson(List<TimedEvent>)` up to the serialiser call. A separate member
  shows that the two flattenings agree field for field.
- `recorder_pure.dfy` (module `RecorderLogic`): the recorder's pure arithmetic.
  It covers:
  - snapping to `SnapSteps`;
  - the early-input carry from step into beat and from beat into bar, which
    keeps the position's step count (its ordinal);
  - `NewAttack`'s override loop;
  - the input-mode table;
  - the beatmap path that Save writes and Load reads;
  - the record-to-event mapping of Load.
- `recorder.dfy` (module `Recording`): the `Recorder` component as a class.
  - Its fields are the input mode, the recorded children, `CurrentAttack`,
    `CurrentEvent`, `SnapSteps` and `LoadFilePath`.
  - Its methods are `NewEvent`, `NewAttack`, `ExtendAttack`, one frame of
    `InputListener`, `Save` and `Load`.
  - `SaveThenLoad` proves the partial round trip.
  - `CurrentAttack` and `CurrentEvent` are indices into the children. After
    Save destroys the children they are `Detached`.
- `music_director.dfy` (module `Music`): the `MusicDirector` component as a
  class.
  - `Start` covers the initial load and the offset setup.
  - `Update` covers the offset gate, the refill of an empty window, one
    firing pass and one pass over the long attacks.
  - `ExecuteEvent` is empty in the game. Here it appends to a ghost log, and
    the events fired from the window are kept in a ghost `played` sequence.
  - The firing pass is specified by the function `FirePass` and the
    long-attack pass by `TailPass`. Both get lemmas about what they fire, the
    order they fire in, and how often a long attack repeats.

Several inputs from the game engine become parameters:
- the frame time `Time.deltaTime` becomes `dt`;
- `TimeSinceLastStep > StepDuration * InputAllowance` becomes the boolean
  `early`;
- `StepsAccumulated()` becomes `stepsAccumulated`;
- the keys pressed, held and released become three sets of keys;
- the documents folder and the product name become `Host`;
- the files on disk become a map from path to records.

Some fields are read by the logic but not declared in the types shown, because
the files come from different versions. These are `StartTime`, `Duration`,
`DurationLeft`, `LastStepPlayed`, `PlayerID`, `ExtendedWeight` and `Target`.
They are model fields that start at 0. `Bar` and `StartBar` are the same field.

## Model

| member | source | states |
|---|---|---|
| Events.NewTimedEvent | Assets/Script/TimedEvent.cs:44-49 | the constructor stores type, beat, step (default 1) and offset (default 0); the bar is never set and stays 0, so the position is not valid |
| Events.NewAttackNote | Assets/Script/AttackNote.cs:43-60 | the result is an attack note whose Type is the `type` argument, not the Attack passed to the base constructor; it stores attack, start and end beat and step, and offset; Weight keeps its initialiser 1 |
| Events.EffectiveEndBeat | Assets/Script/AttackNote.cs:8-14 | the end beat is the start beat when the stored end beat is below 2, and exactly the stored end beat when it is 2 or more |
| Events.EffectiveEndStep | Assets/Script/AttackNote.cs:16-24 | the end step is the start step when the stored end step is below 2, and exactly the stored end step when it is 2 or more |
| Events.DefaultNoteEndsAtStart | Assets/Script/AttackNote.cs:43-51 | a note built with the default end arguments ends at its start beat and step |
| Tracks.NormaliseStart | Assets/Script/Track.cs:101 | a start of 1 or less becomes 1; any other start is kept |
| Tracks.NormaliseEnd | Assets/Script/Track.cs:102 | an end of 0 or less becomes int.MaxValue; any other end is kept |
| Tracks.MidIsAverage | Assets/Script/Track.cs:111 | the probe index used by the proofs equals `(lowIndex + highIndex) / 2` |
| Tracks.Probe | Assets/Script/Track.cs:105-155 | the whole binary search, recursively: each probe is the midpoint of the bounds; the search ends at the first probe whose bar is the start, otherwise moves the low bound above it or the high bound below it, and stops with the last probe once the bounds cross; its contract keeps the pointer inside the events whenever there are any (`SearchStart` is proved equal to it) |
| Tracks.Scan | Assets/Script/Track.cs:160-174 | the forward scan from an index: in-range events are kept, an event past the end stops it (defined, not contracted; `ScanIsFilterBeforeStop` states its meaning) |
| Tracks.QueryAsWritten | Assets/Script/Track.cs:98-177 | the query as written: empty for no events, otherwise the scan from the search pointer between the normalised bounds (defined, not contracted; `AsWrittenSound` and `AsWrittenIsSuffixOfFilter` state its meaning) |
| Tracks.SearchPointer | Assets/Script/Track.cs:105-155 | the search ends with the pointer inside [0, Count) whenever Count > 0 |
| Tracks.SearchBrackets | Assets/Script/Track.cs:107-124 | on bar-sorted events, nothing before the pointer has a bar above the start and nothing after it a bar below; the pointer is at the start bar unless no event has that bar |
| Tracks.SearchStart | Assets/Script/Track.cs:104-155 | the `while` loop terminates and leaves the pointer where `SearchPointer` says; the "pointing beyond start" branch is unreachable |
| Tracks.ScanFrom | Assets/Script/Track.cs:157-174 | the `for` loop returns the forward scan from the pointer: in-range events are kept and the first event past the end stops the scan |
| Tracks.FilterMembers | Assets/Script/Track.cs:79-97 | the promised answer holds exactly the events whose bar lies in [start, end] |
| Tracks.ScanIsFilterBeforeStop | Assets/Script/Track.cs:160-174 | the scan returns, in original order, the in-range events before the first event whose bar exceeds the end |
| Tracks.SortedScanIsFilter | Assets/Script/Track.cs:160-174 | on bar-sorted events, the scan from any index returns every in-range event from that index on |
| Tracks.AsWrittenSound | Assets/Script/Track.cs:160-167 | every returned event is an event of the track with start <= Bar <= end after normalisation |
| Tracks.AsWrittenIsSuffixOfFilter | Assets/Script/Track.cs:105-174 | on bar-sorted events, the promised answer is the skipped events followed by the result, and every skipped event has the start bar; so every event with start < Bar <= end is returned |
| Tracks.AsWrittenExactWhenBarsDistinct | Assets/Script/Track.cs:79-174 | when no two events share a bar, the result is exactly the events with start <= Bar <= end |
| Tracks.AsWrittenContiguous | Assets/Script/Track.cs:160-174 | on bar-sorted events, the result is one contiguous run of the events |
| Tracks.AsWrittenEmpty | Assets/Script/Track.cs:105-174 | no events, or an end below the start after normalisation, gives an empty list |
| Tracks.AsWrittenSkipsEarlierEventsOfStartBar | Assets/Script/Track.cs:117-124 | three sorted events in bar 1: a query for bar 1 returns only the last two, because the search stops at the middle one |
| Tracks.GetEventsInRange | Assets/Script/Track.cs:98-177 | the method as written returns the as-written query: sound, a suffix of the promised answer on sorted input, and exactly the promised answer when bars are distinct |
| Tracks.GetEventsInRangeFromLowerBound | Assets/Script/Track.cs:98-177 | the corrected query returns only in-range events of the track, and on bar-sorted input exactly the events with start <= Bar <= end, in order |
| Tracks.LowerBoundScan | Assets/Script/Track.cs:157-174 | scanning from past every event below the start bar returns exactly the promised answer on sorted input |
| StrippedEventsModel.Make | Assets/Script/StrippedEvents.cs:87-111 | every argument is stored in the field of the same name, although parameters and fields come in different orders |
| StrippedEventsModel.Strip | Assets/Script/StrippedEvents.cs:136-151 | every record copies bar, beat, step, offset, type and target; a non-attack event gets owner, duration and weights 0 and attack kind Projectile (ordinal 0); an attack note copies its player, duration, weights and attack kind |
| StrippedEventsModel.ToJson | Assets/Script/StrippedEvents.cs:133-155 | one record per event, in the same order, each the flattening of its event |
| NoteJsonModel.Make | Assets/Script/NoteJson.cs:85-109 | every argument is stored in the field of the same name |
| NoteJsonModel.Strip | Assets/Script/NoteJson.cs:134-149 | the same per-field rule as the StrippedEvents flattening |
| NoteJsonModel.ToJson | Assets/Script/NoteJson.cs:131-153 | one record per event, in the same order |
| NoteJsonModel.StripsAgree | Assets/Script/NoteJson.cs:134-149 | both flattenings turn one event into the same record, field for field |
| NoteJsonModel.BothFlatteningsAgree | Assets/Script/NoteJson.cs:131-153 | for the same input list both flattenings produce the same number of records, field for field the same |
| RecorderLogic.Carry | Assets/Script/Recorder.cs:246-256 | carrying a step past the denominator into the beat, and a beat past the numerator into the bar, keeps the position's ordinal; it stays in bounds when the input is at most one step past them |
| RecorderLogic.EventPosition | Assets/Script/Recorder.cs:238-257 | NewEvent's position is unchanged when not early, and exactly one step later (by ordinal) when early |
| RecorderLogic.EarlyEventStaysInBounds | Assets/Script/Recorder.cs:242-257 | an early input on an in-bounds position lands on an in-bounds position one step later |
| RecorderLogic.OverrideRun | Assets/Script/Recorder.cs:298-306 | the number of times the override loop advances, from snap index i (defined, not contracted; `OverrideRunMeaning` states its meaning) |
| RecorderLogic.OverrideRunMeaning | Assets/Script/Recorder.cs:298-306 | the override loop advances only onto consecutive later snap entries and stops at the first entry that does not continue the run |
| RecorderLogic.OverrideRunWithOneThree | Assets/Script/Recorder.cs:298-306 | with snap steps {1, 3} only the override 2 is advanced; an override that is a snap step is never changed |
| RecorderLogic.AttackPosition | Assets/Script/Recorder.cs:289-325 | NewAttack's position moves by the override run when early with an override, by exactly one step when early without one, and not at all otherwise |
| RecorderLogic.AttackStaysInBounds | Assets/Script/Recorder.cs:298-324 | when no snap step exceeds Denominator, an early attack from an in-bounds override lands in bounds |
| RecorderLogic.AttackLeavesBoundsWithLongSnaps | Assets/Script/Recorder.cs:298-324 | with snap steps 1 to 9 in 4/4, an early attack from step 1 lands on step 5, outside the bar's steps |
| RecorderLogic.AdvanceOverride | Assets/Script/Recorder.cs:298-306 | the loop adds the length of the override run to the step |
| RecorderLogic.EarlyAttackPosition | Assets/Script/Recorder.cs:289-325 | NewAttack's early-input handling computes `AttackPosition` |
| RecorderLogic.SnapFrom | Assets/Script/Recorder.cs:136-160 | the snapping loop from index i: the first snap step whose successor is above the current step, or the last one when it is not above it; the current step when no snap step is at most it (defined, not contracted; the `SnappedStep*` lemmas state its meaning) |
| RecorderLogic.SnappedStep | Assets/Script/Recorder.cs:136-160 | the snapped step is the loop from index 0 (defined, not contracted) |
| RecorderLogic.SnappedStepIsAtMost | Assets/Script/Recorder.cs:136-160 | the snapped step never exceeds the current step, and is the current step or a snap step |
| RecorderLogic.SnappedStepBelowAll | Assets/Script/Recorder.cs:144-159 | a current step below every snap step falls back to itself |
| RecorderLogic.SnappedStepIsLargestSnapBelow | Assets/Script/Recorder.cs:138-154 | with ascending positive snap steps, the snapped step is the largest snap step not above the current step |
| RecorderLogic.SnapWithOneThree | Assets/Script/Recorder.cs:213-219 | with the default snap steps {1, 3}: 1 to 1, 2 to 1, 3 to 3, 4 to 3 |
| RecorderLogic.SnapStep | Assets/Script/Recorder.cs:136-160 | the snapping loop with its fallback computes the snapped step, which is at most the current step |
| RecorderLogic.SwitchMode | Assets/Script/Recorder.cs:57-105 | attack keys set InputType 1, type Attack, the player and the attack kind by key priority; event keys set InputType 2 and keep the player and attack kind; no key keeps the mode |
| RecorderLogic.SavePath | Assets/Script/Recorder.cs:385-389 | the path starts with the Beatmaps folder of the documents folder followed by `/`, and ends in `.json` |
| RecorderLogic.LoadPath | Assets/Script/Recorder.cs:404-420 | LoadFilePath is used when it is longer than two characters with a colon at index 1; otherwise the path is the one Save writes for the same Track fields |
| RecorderLogic.EventRecord | Assets/Script/Recorder.cs:261-269 | the event NewEvent creates: a plain event of the current event type at the given bar, beat and step, every other field at its initial value (defined, not contracted; `Recording.Recorder.NewEvent` uses it) |
| RecorderLogic.AttackRecord | Assets/Script/Recorder.cs:329-339 | the note NewAttack creates: an attack note of the current type, attack kind and player at the given bar, beat and step (defined, not contracted; `Recording.Recorder.NewAttack` uses it) |
| RecorderLogic.Rebuild | Assets/Script/Recorder.cs:432-455 | a record of type Attack becomes an attack note with its owner and attack kind; any other record becomes a plain event; both keep type and bar, beat and step |
| RecorderLogic.RebuildAfterStrip | Assets/Script/Recorder.cs:437-454 | flattening then rebuilding keeps type and bar, beat and step, plus owner and attack kind for attack notes; weight, duration and offset are not restored |
| Recording.Released | Assets/Script/Recorder.cs:119-122 | `isReleased` as written: step key 1 or 2 released, or the beat key held (the third term calls `GetKey`, not `GetKeyUp`) (defined, not contracted; `InputListener` uses it) |
| Recording.Recorder.constructor | Assets/Script/Recorder.cs:207-219 | the field initialisers: no input type, no children, no current attack or event, snap steps {1, 3}, empty load path |
| Recording.Recorder.NewEvent | Assets/Script/Recorder.cs:232-276 | appends a plain event of the current event type at `EventPosition` and makes it the current event; nothing else changes |
| Recording.Recorder.NewAttack | Assets/Script/Recorder.cs:283-349 | appends an attack note of the current type, player and attack kind at `AttackPosition` and makes it the current attack |
| Recording.Recorder.Record | Assets/Script/Recorder.cs:165-169 | a press records an attack in attack mode and an event in event mode, making it the current attack or event, and nothing in any other mode |
| Recording.Recorder.ExtendAttack | Assets/Script/Recorder.cs:352-360 | adds the accumulated steps to the current attack's duration; 0 steps changes nothing; steps with no current attack are the null dereference |
| Recording.Recorder.InputListener | Assets/Script/Recorder.cs:53-188 | switches the mode, then records an attack or event on a press, extends on a hold in attack mode, and clears the current attack on release |
| Recording.Recorder.Save | Assets/Script/Recorder.cs:366-399 | returns the save path and one flattened record per child, in order, and destroys the children |
| Recording.Recorder.Load | Assets/Script/Recorder.cs:401-460 | a missing file changes nothing; otherwise one rebuilt event per record is appended, in order |
| Recording.SaveThenLoad | Assets/Script/Recorder.cs:366-460 | with a relative LoadFilePath, saving then loading gives back one event per saved event with the same type, bar, beat and step |
| Music.StepDuration | Assets/Script/MusicDirector.cs:56-58 | the step duration is positive and multiplies with BPM and Denominator to one minute |
| Music.OffsetWithinStepDuration | Assets/Script/TimedEvent.cs:25-32 | an offset fits within one step exactly when offset * BPM * Denominator is at most 60 seconds |
| Music.FirePass | Assets/Script/MusicDirector.cs:154-179 | the `foreach` over the window as a function: a due event (start time above LastPlayed and at most the timer) fires; an event of type Attack that is not an `AttackNote` fails the cast and stops the pass (defined, not contracted; `FirePassSound` and `FirePassOnIncreasingWindow` state its meaning) |
| Music.GateOpen | Assets/Script/MusicDirector.cs:108-132 | the frame proceeds past the offset gate when the start is not delayed, or when the offset is negative and the timer has reached 0; a delayed positive-offset frame always returns (defined, not contracted; `Update` uses it) |
| Music.Refill | Assets/Script/MusicDirector.cs:139-142 | the refill is the as-written query of bars CurrentBar+1 to CurrentBar+1+LoadedBarCount (defined, not contracted; `RefillMissesOnlyFirstBar` states its meaning) |
| Music.RefillMissesOnlyFirstBar | Assets/Script/MusicDirector.cs:139-142 | on a bar-sorted track, the refill misses from the promised answer only events of bar CurrentBar+1, which come before everything it returns |
| Music.StartMissesFirstEventOfBarOne | Assets/Script/MusicDirector.cs:60-70 | three events in bar 1 and LoadedBarCount 16: Start loads only the last two, while the promised answer is all three |
| Music.FirePassSound | Assets/Script/MusicDirector.cs:154-179 | a pass fires only due events of the window, in strictly increasing start time; only the last can be a failed cast, and it stops the pass |
| Music.FirePassOnIncreasingWindow | Assets/Script/MusicDirector.cs:154-179 | on a window in increasing start-time order with no failing cast among the due events, a pass fires exactly the due events |
| Music.NothingAtOrBeforeZeroFires | Assets/Script/MusicDirector.cs:155-161 | an event whose start time is 0 or less never fires |
| Music.LongOnes | Assets/Script/MusicDirector.cs:170-176 | the events that join LongAttacks are exactly the fired attack notes with a positive duration |
| Music.TailPass | Assets/Script/MusicDirector.cs:182-197 | after a pass every kept long attack has repeated at the current step; one repeat is fired per attack that had not; every repeat is an attack at the current beat and step |
| Music.TailPassKeeps | Assets/Script/MusicDirector.cs:182-197 | an attack is kept exactly when it already repeated at this step (kept unchanged), or it did not and its counted-down copy still has DurationLeft > 0 |
| Music.TailPassSplit | Assets/Script/MusicDirector.cs:182-197 | the pass over two lists joined is the two passes joined: kept attacks and repeats keep the order of LongAttacks |
| Music.TailPassIdle | Assets/Script/MusicDirector.cs:183 | attacks that already repeated at this step are kept unchanged and fire nothing |
| Music.TailPassIdempotentWithinStep | Assets/Script/MusicDirector.cs:183-184 | a second pass within the same step fires nothing and keeps everything |
| Music.LongAttackRepeats | Assets/Script/MusicDirector.cs:182-197 | over steps that change at every pass, a long attack with DurationLeft n fires max(n, 1) repeats before it leaves |
| Music.PlayedStaysChronological | Assets/Script/MusicDirector.cs:154-179 | fired events stay in strictly increasing start time across passes, and LastPlayedEvent stays the last of them |
| Music.FireWindow | Assets/Script/MusicDirector.cs:154-179 | the `foreach` over the window fires what `FirePass` fires, moves bar, beat and step to the last fired event, and adds the long ones to LongAttacks |
| Music.RepeatLongAttacks | Assets/Script/MusicDirector.cs:182-197 | the `foreach` over LongAttacks computes `TailPass` |
| Music.MusicDirector.constructor | Assets/Script/MusicDirector.cs:13-54 | the field initialisers: timer 0, no delay, nothing loaded, fired or playing |
| Music.MusicDirector.Start | Assets/Script/MusicDirector.cs:60-99 | loads the as-written query of bars 0 to LoadedBarCount (bar 1 on, all bars for 0); a positive offset delays the start; a negative one starts the audio with the timer at -StartOffset |
| Music.MusicDirector.Update | Assets/Script/MusicDirector.cs:101-200 | advances the timer; the delay is only ever cleared; a closed gate changes nothing else; an open gate refills only an empty window with the as-written query of bars CurrentBar+1 to CurrentBar+1+LoadedBarCount, fires one pass and repeats the long attacks |
| Music.MusicDirector.LoadIfEmpty | Assets/Script/MusicDirector.cs:139-148 | a refill happens only when LoadedBarCount > 0 and the window is empty, and then the window is the as-written query of the next bars |
| Music.MusicDirector.Play | Assets/Script/MusicDirector.cs:152-197 | fires the pass and then repeats the long attacks at the step reached; a failed cast skips the repeats |
| Music.MusicDirector.FireAll | Assets/Script/MusicDirector.cs:154-179 | the fired events join the played and logged events; bar, beat, step and LongAttacks follow the last fired event |
| Music.MusicDirector.RepeatAll | Assets/Script/MusicDirector.cs:181-197 | LongAttacks becomes the kept attacks, and the repeats are logged |
| Music.NegativeOffsetOpensAtOnce | Assets/Script/MusicDirector.cs:95-128 | with a negative offset the timer starts at -StartOffset > 0, so the first frame already opens the gate |
| Music.PositiveOffsetStartFrameIsIdle | Assets/Script/MusicDirector.cs:108-132 | with a positive offset, the frame that starts the audio still returns before loading or dispatch |

## Left out

- Unity and library calls are not modelled: GameObject creation and `Destroy`, `AudioSource.Play` (a ghost `audioPlaying` flag stands in), `Debug.Log`, `Input.GetKey*` (sets of keys stand in), Newtonsoft serialisation, and file and directory I/O (a map from path to records stands in).
- `Player.FireProjectile` and `FireLaser`, called by `NewAttack`, are not modelled. They are engine calls.
- Times are `real`, not IEEE floats or doubles. Rounding in `Timer += deltaTime` and in the step duration is not modelled.
- Integers are unbounded. 32-bit overflow in the carry arithmetic and in `CurrentBar + 1 + LoadedBarCount` is not modelled.
- Null strings for the artist and the beatmap creator are not modelled. All strings are plain sequences.
- The float length estimate in the Track constructor is not modelled. It is floating-point only.
- The save and load key dispatch at the end of `InputListener` is not modelled. `Save` and `Load` are separate methods.
- `StrippedEvents.FromJsonPath` and its null result on a missing path are not modelled. Load checks the same path first.
- Recording.Recorder.InputListener: the frame ends at the failed dereference of `ExtendAttack`. The exception itself is not modelled.
- RecorderLogic.SavePath: names are not checked for `/`, so a name holding `/` makes the path point into a subfolder; the model only states the prefix and the suffix.
- Music.MusicDirector.Update: `LongAttacks` is never initialised in the game and would throw on first use. The model starts it empty.
- Music.RepeatLongAttacks: the game removes entries from `LongAttacks` inside its own `foreach`, which throws in C#. The model applies the removals after the pass.
- Music.FireWindow: long attacks are values in the model. An entry of `LongAttacks` does not alias the event in the window or in the track.
- Music.MusicDirector.Update: the window is never emptied after firing, so a refill only follows an empty load. This is modelled as written.
- Music.StepDuration: requires a positive BPM and denominator. In the game a zero gives an infinite or undefined float.
- Music.MusicDirector.Start: with a negative offset, the comment says the beat counter waits, but the code sets the timer to -StartOffset. That is positive, so the gate opens on the first frame. The model keeps the code, and `NegativeOffsetOpensAtOnce` states the effect.

## Findings

| source | as written | input that shows it | evidently intended | confidence | as-written member | corrected member |
|---|---|---|---|---|---|---|
| Assets/Script/Track.cs:117-124 | the binary search stops at whichever probe first hits bar `start`, and the scan starts there (line 160), so earlier events of the same bar are never reached | three events all in bar 1 and `GetEventsInRange(1, 1)`: the first probe is index 1, so the result misses index 0 | all events with start <= Bar <= end, as the doc comment at lines 79-97 promises; a lower-bound search finds the first event whose bar is at least `start` | high (proved; not executed) | Tracks.AsWrittenSkipsEarlierEventsOfStartBar | Tracks.GetEventsInRangeFromLowerBound |
