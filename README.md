# Music studio instruments: drum pad and piano

This project models the two instruments of a browser music studio written in React
and TypeScript. It covers their state, the tables that drive them and the timers
behind them.

- **The electronic drum pad** (`src/components/DrumPad.tsx`) has twelve pads.
  - A trigger plays a pad's instrument and lights the pad for a short pulse: 100 ms, or 150 ms during the demo.
  - Holding a pad (mouse or keyboard) plays it at once. It then repeats at the pad's own rate through a browser interval, and releasing it cancels that interval.
  - The demo player schedules 171 timed hits and an end timeout 15 s after the start. Each hit reports the progress as a whole percentage. The end sets the progress to 100, and a further one-second timeout resets it to 0. Stopping cancels every tracked timeout.
  - Unmounting cancels every registered interval and every tracked timeout.
- **The one-octave piano** (`src/components/Piano.tsx`) has thirteen keys, C4 to C5.
  - A mouse press or a mapped keyboard key attacks a note on a monophonic synthesizer and makes it the active note.
  - A release lets it go.
  - A key is lit exactly when its note is the active note.

The browser's `setTimeout`, `setInterval`, `clearTimeout` and `clearInterval` are
modelled by module `Timers`. The class `Scheduler` keeps a map from handles to
pending timers and hands out handles 1, 2, 3, … in order. `FireNext` runs the
earliest timer, breaking ties by handle, advances the clock to its due time and
re-arms it if it is an interval. A timer callback is a `Task` value. One call of
`DrumPadState.Step` is one turn of the event loop: it fires a timer and runs its
callback on the component state.

The drum pad keeps two invariants through every handler, every timer callback and
every demo operation:

- **The repeat invariant.** A pad is held exactly when it has a registered interval. That interval is live and repeats its pad at the pad's rate, and no other live interval repeats the pad.
- **The demo invariant.**
  - Every live demo timer is tracked and belongs to the running demo.
  - While the demo plays, its end is pending, every pending hit is due before the end, and the progress is below 100.
  - When the demo is idle, no demo timer is pending and the progress is 0 or 100.

Modules:

| file | module | contents |
|---|---|---|
| `wrappers.dfy` | `Wrappers` | `Option` |
| `text.dfy` | `Text` | ASCII `toLowerCase`/`toUpperCase` |
| `timers.dfy` | `Timers` | the browser timer queue |
| `drum_data.dfy` | `DrumData` | pad table, repeat rates, colours, key lookup, demo beat, progress formula |
| `drum_schedule.dfy` | `DrumSchedule` | timer tasks, the two invariants and the lemmas that each step keeps them |
| `drum_pad.dfy` | `DrumPad` | the drum pad component as a class |
| `piano.dfy` | `Piano` | the piano tables, the lighting rule and the piano component as a class |

## Model

| member | source | states |
|---|---|---|
| Timers.AfterFiring | src/components/DrumPad.tsx:414-416 | a fired timeout disappears; a fired interval stays with the same task and period and is due again exactly one period later; every other timer is untouched |
| Timers.EarliestUnique | src/components/DrumPad.tsx:633-643 | the next timer to fire is unique: timers due at the same time fire in the order they were registered |
| Timers.Scheduler.constructor | src/components/DrumPad.tsx:69-72 | the clock starts at 0 with no pending timers, and the first handle will be 1 |
| Timers.Scheduler.SetTimeout | src/components/DrumPad.tsx:634-640 | returns a fresh handle (the next counter, at least 1) and registers a one-shot timer due `delay` later; a retired handle stays retired |
| Timers.Scheduler.SetInterval | src/components/DrumPad.tsx:414-416 | returns a fresh handle and registers a repeating timer with period `delay`, first due `delay` later |
| Timers.Scheduler.Clear | src/components/DrumPad.tsx:405-407 | removes exactly that handle, which is then retired for good; clearing an unknown handle changes nothing |
| Timers.Scheduler.Earliest | src/components/DrumPad.tsx:633-643 | finds the earliest pending timer, or none exactly when nothing is pending |
| Timers.Scheduler.FireNext | src/components/DrumPad.tsx:387-389 | fires the earliest timer: the clock moves to its due time and the timers become `AfterFiring`; nothing fires exactly when nothing is pending |
| Timers.Scheduler.AdvanceTo | src/components/DrumPad.tsx:387-389 | time passes up to a moment no timer is due before, changing nothing else |
| Text.Lower | src/components/DrumPad.tsx:675 | `toLowerCase` maps each character to its lower-case form (A-Z to a-z, everything else unchanged), keeping the length |
| Text.LowerIdempotent | src/components/DrumPad.tsx:675 | lower-casing twice is lower-casing once |
| Text.LowerOfUpper | src/components/DrumPad.tsx:675 | lower-casing after upper-casing gives the lower-cased key |
| DrumData.PadNamesAreTableIds | src/components/DrumPad.tsx:91-104 | the twelve pad names are exactly the ids of the `drumPads` table |
| DrumData.PadIdsDistinct | src/components/DrumPad.tsx:91-104 | no two pads share an id |
| DrumData.RateOf | src/components/DrumPad.tsx:413 | a pad's repeat rate is its table rate, or 200 ms when it has none, and it is always positive |
| DrumData.RatesCoverPads | src/components/DrumPad.tsx:71-84 | the rate table names exactly the twelve pads |
| DrumData.GetColor | src/components/DrumPad.tsx:21-37 | a button is grey exactly when its id is not one of the twelve pads |
| DrumData.PadColorsAgree | src/components/DrumPad.tsx:91-104 | the colour stored for each pad in the `drumPads` table is the colour its button computes |
| DrumData.FindPadIndex | src/components/DrumPad.tsx:675 | `find` returns the first pad whose trigger matches the key ignoring case, and none when no pad matches |
| DrumData.KeyToPad | src/components/DrumPad.tsx:675 | a key drives no pad exactly when no pad's trigger matches it ignoring case, and otherwise one of the twelve pads |
| DrumData.KeyTriggersDistinct | src/components/DrumPad.tsx:91-104 | no two pads' key triggers are equal ignoring case |
| DrumData.KeyToPadExact | src/components/DrumPad.tsx:684 | a key drives exactly the pad whose trigger matches it, and no pad when none matches |
| DrumData.KeyToPadIgnoresCase | src/components/DrumPad.tsx:675 | a key, its lower-case and its upper-case form drive the same pad |
| DrumData.IntroInWindow | src/components/DrumPad.tsx:445-456 | the intro's hits lie in 0-2 s, are on defined pads and are in time order |
| DrumData.BuildUpInWindow | src/components/DrumPad.tsx:459-481 | the build-up's hits lie in 2-4 s, are on defined pads and are in time order |
| DrumData.DropInWindow | src/components/DrumPad.tsx:484-506 | the drop's hits lie in 4-6 s, are on defined pads and are in time order |
| DrumData.VocalSectionInWindow | src/components/DrumPad.tsx:509-532 | the vocal section's hits lie in 6-8 s, are on defined pads and are in time order |
| DrumData.ChordSectionInWindow | src/components/DrumPad.tsx:535-558 | the chord section's hits lie in 8-10 s, are on defined pads and are in time order |
| DrumData.ArpSectionInWindow | src/components/DrumPad.tsx:561-584 | the arp section's hits lie in 10-12 s, are on defined pads and are in time order |
| DrumData.ClimaxInWindow | src/components/DrumPad.tsx:587-613 | the climax's hits lie in 12-14 s, are on defined pads and are in time order |
| DrumData.OutroInWindow | src/components/DrumPad.tsx:616-629 | the outro's hits lie in 14-15 s, are on defined pads and are in time order |
| DrumData.Demo | src/components/DrumPad.tsx:443-630 | the demo `sequence` is the eight sections in order, 171 hits |
| DrumData.ConcatWindows | src/components/DrumPad.tsx:443-630 | two sections, one after the other, form one well-ordered section |
| DrumData.DemoWellFormed | src/components/DrumPad.tsx:443-630 | the demo has 171 hits, each strictly before the 15 s end and on a defined pad, all in time order |
| DrumData.InWindowOrdered | src/components/DrumPad.tsx:443-630 | in a well-ordered section, a later hit is never earlier in time |
| DrumData.ProgressAt | src/components/DrumPad.tsx:638 | the progress is the floor of time/15000 as a percentage, below 100 before the end and 100 from the end on |
| DrumData.ProgressMonotone | src/components/DrumPad.tsx:638 | a later time never reports less progress |
| DrumData.DemoProgressBounded | src/components/DrumPad.tsx:638-639 | along the demo, the reported progress never goes down and never reaches 100 |
| DrumSchedule.OneIntervalPerPad | src/components/DrumPad.tsx:404-416 | under the repeat invariant, two live repeats of one pad are the same interval |
| DrumSchedule.RepeatInvFire | src/components/DrumPad.tsx:414-416 | any timer firing keeps the repeat invariant: a repeat is re-armed in place |
| DrumSchedule.RepeatInvRelease | src/components/DrumPad.tsx:417-426 | releasing a pad and cancelling its interval keeps the repeat invariant and leaves no live repeat of that pad |
| DrumSchedule.RepeatInvRearm | src/components/DrumPad.tsx:412-416 | arming one new interval for a released pad at a fresh handle makes it held again, with the invariant intact |
| DrumSchedule.RepeatInvAddOther | src/components/DrumPad.tsx:387-389 | registering a timer that is not a repeat keeps the repeat invariant |
| DrumSchedule.DemoInvAddOther | src/components/DrumPad.tsx:387-389 | registering a timer that is not a demo timer at the next handle keeps the demo invariant |
| DrumSchedule.DemoInvFireOther | src/components/DrumPad.tsx:414-416 | a timer that is not a demo timer firing keeps the demo invariant |
| DrumSchedule.DemoInvFireHit | src/components/DrumPad.tsx:634-640 | a hit fires only while the demo plays, from a tracked handle, before the end; firing it keeps the demo invariant |
| DrumSchedule.DemoInvProgress | src/components/DrumPad.tsx:638-639 | while playing, any progress below 100 keeps the demo invariant |
| DrumSchedule.DemoInvFireEnd | src/components/DrumPad.tsx:646-653 | the end fires only while playing and after every hit; after it, no demo timer is pending and the idle state with progress 100 keeps the invariant |
| DrumSchedule.IdleDemoIsRetired | src/components/DrumPad.tsx:431-437 | while idle, no tracked handle is pending and no demo timer is pending, so clearing them changes nothing |
| DrumSchedule.DemoInvStop | src/components/DrumPad.tsx:660-669 | cancelling every tracked handle removes every demo timer and only demo timers, leaving the idle state with progress 0 |
| DrumSchedule.UnmountLeavesPulses | src/components/DrumPad.tsx:314-323 | after the unmount clean-up, only pulse clears and the progress reset can still be pending |
| DrumSchedule.HitTimersAt | src/components/DrumPad.tsx:633-643 | the first n hit timeouts sit at consecutive handles from the base, the k-th one playing hit k at its time |
| DrumSchedule.RunTimersAt | src/components/DrumPad.tsx:633-655 | every timer of a run is a one-shot demo timeout at a run handle; each hit is due before the end, and the end holds the last handle |
| DrumSchedule.DemoInvPlay | src/components/DrumPad.tsx:430-657 | arming a run from idle gives the demo invariant for the playing state with the run's handles tracked |
| DrumSchedule.RepeatInvPlay | src/components/DrumPad.tsx:633-655 | arming a run adds no repeat, so the repeat invariant holds |
| DrumSchedule.PlayKeepsInvariants | src/components/DrumPad.tsx:430-657 | both invariants hold after a run is armed from idle |
| DrumPad.DrumPadState.PulseKeepsInvariants | src/components/DrumPad.tsx:383-389 | the pulse timer of a trigger keeps both invariants |
| DrumPad.DrumPadState.ReleaseThenPulse | src/components/DrumPad.tsx:404-410 | cancelling the old interval and then triggering keeps the repeat invariant for the released pad and leaves the next handle free |
| DrumPad.DrumPadState.HoldKeepsRepeatInv | src/components/DrumPad.tsx:400-416 | a hold start keeps the repeat invariant with the pad held at the new interval |
| DrumPad.DrumPadState.HoldKeepsDemoInv | src/components/DrumPad.tsx:400-416 | a hold start keeps the demo invariant |
| DrumPad.DrumPadState.constructor | src/components/DrumPad.tsx:60-72 | nothing active or held, no interval, the demo idle at progress 0, no timers pending, and the invariants hold |
| DrumPad.DrumPadState.LitPads | src/components/DrumPad.tsx:742 | a pad button is lit exactly when it is the active pad or has a live repeat, and that repeat is pending at its rate |
| DrumPad.DrumPadState.HandlePadTrigger | src/components/DrumPad.tsx:342-396 | a loaded pad sounds, becomes the active pad and arms a clear after the pulse length; an unloaded pad changes nothing; no other state changes |
| DrumPad.DrumPadState.HandlePadHold | src/components/DrumPad.tsx:399-427 | holding gives the exact post-state of a hold start (sound, active pad, new interval at the handle after the pulse, pending timers); releasing gives the exact post-state of a hold end; the demo is untouched and the invariants are kept |
| DrumPad.DrumPadState.StartHold | src/components/DrumPad.tsx:400-416 | the pad is held and lit, its old interval is cancelled, it triggers once and one new interval repeats it at its rate; the invariants are kept |
| DrumPad.DrumPadState.RestartRepeat | src/components/DrumPad.tsx:400-416 | the exact state after a hold start: held map, sound, active pad, the new interval's handle after the pulse's, and the pending timers |
| DrumPad.DrumPadState.ArmInterval | src/components/DrumPad.tsx:413-416 | registers an interval at the pad's rate under the next handle and records it for the pad |
| DrumPad.DrumPadState.ClearInterval | src/components/DrumPad.tsx:405-407 | cancels the pad's registered interval if it has one, retiring its handle |
| DrumPad.DrumPadState.EndHold | src/components/DrumPad.tsx:417-426 | the pad is no longer held, its interval is cancelled and forgotten, and no live repeat of it remains; nothing sounds |
| DrumPad.DrumPadState.Step | src/components/DrumPad.tsx:387-389 | one timer fires and its callback runs: per task, the exact sounds, active pad, demo state, pending timers and next handle; held pads, registered intervals and tracked timeouts never change; retired handles stay retired; the invariants are kept |
| DrumPad.DrumPadState.RunRepeatTick | src/components/DrumPad.tsx:414-416 | a repeat fires only for a held pad from its registered interval; it triggers the pad and arms its pulse clear, and the demo state and registrations are unchanged |
| DrumPad.DrumPadState.RunClearActive | src/components/DrumPad.tsx:387-389 | a pulse clear leaves no active pad |
| DrumPad.DrumPadState.RunProgressReset | src/components/DrumPad.tsx:650-652 | the progress reset sets the progress to 0 |
| DrumPad.DrumPadState.RunDemoHit | src/components/DrumPad.tsx:634-640 | a hit fires only while the demo plays, from a tracked handle; it triggers its pad in demo mode, arms the pulse clear and reports the progress of its time; held pads and registrations are unchanged |
| DrumPad.DrumPadState.RunDemoEnd | src/components/DrumPad.tsx:646-653 | the end stops the demo at progress 100, leaves no demo timer, arms the progress reset one second later under the next handle, and keeps the pads and the tracked list |
| DrumPad.DrumPadState.ArmProgressReset | src/components/DrumPad.tsx:650-652 | registers the reset one second later under the next handle |
| DrumPad.DrumPadState.Wait | src/components/DrumPad.tsx:634-640 | time passes up to a moment no timer is due before |
| DrumPad.DrumPadState.ClearDemoTimeouts | src/components/DrumPad.tsx:662-664 | cancels exactly the tracked handles |
| DrumPad.DrumPadState.PlayDemo | src/components/DrumPad.tsx:430-657 | while playing, nothing changes; from idle, the demo plays at progress 0 with one timeout per hit plus the end, all tracked, at consecutive fresh handles; the invariants are kept |
| DrumPad.DrumPadState.RestartRun | src/components/DrumPad.tsx:433-655 | the old tracked timeouts are cancelled and the run's timeouts registered and tracked |
| DrumPad.DrumPadState.ScheduleRun | src/components/DrumPad.tsx:633-655 | registers one timeout per hit at its time and the end timeout, at consecutive handles, and tracks them in order |
| DrumPad.DrumPadState.StopDemo | src/components/DrumPad.tsx:660-669 | cancels the tracked timeouts, leaves no demo timer, and sets the demo idle at progress 0; pads are untouched |
| DrumPad.DrumPadState.ToggleDemo | src/components/DrumPad.tsx:716-722 | the button flips the playing state: a start arms exactly the run's timeouts at consecutive fresh handles at progress 0; a stop cancels exactly the tracked handles, leaving no demo timer at progress 0; pads are untouched either way |
| DrumPad.DrumPadState.Unmount | src/components/DrumPad.tsx:314-330 | cancels every registered interval and every tracked timeout; only pulse clears and the progress reset remain |
| DrumPad.DrumPadState.HandleKeyDown | src/components/DrumPad.tsx:673-681 | a non-repeat key that matches a pad gives the exact post-state of a hold start on that pad; any other key changes nothing |
| DrumPad.DrumPadState.HandleKeyUp | src/components/DrumPad.tsx:683-689 | a key that matches a pad gives the exact post-state of a hold end on that pad; any other key changes nothing |
| DrumPad.DrumPadState.HandlePadMouse | src/components/DrumPad.tsx:43-46 | mouse down gives the exact post-state of a hold start, mouse up and leave that of a hold end, and a click triggers the pad once with its pulse clear; the demo is untouched |
| Piano.NoteFor | src/components/Piano.tsx:141 | a key plays a note exactly when its lower-case form is in `keyMap`, and that note has a label and is non-empty |
| Piano.KeyMapCoversNotes | src/components/Piano.tsx:134-138 | every note of `keyMap` is labelled in `keyboardMap` and is a truthy string |
| Piano.PianoKeysDistinct | src/components/Piano.tsx:44-58 | the piano has thirteen keys with pairwise distinct notes |
| Piano.PianoKeysLabelled | src/components/Piano.tsx:18-22 | every drawn key has a keyboard label, and every labelled note is drawn |
| Piano.KeyMapsInverse | src/components/Piano.tsx:134-138 | `keyMap` and `keyboardMap` are inverse: the notes played are the notes labelled, a key's note is labelled with the key in upper case, and a label lower-cased plays its note |
| Piano.KeyLabelsUpper | src/components/Piano.tsx:18-22 | the label of a key's note is the key in upper case |
| Piano.LabelsLower | src/components/Piano.tsx:18-22 | a label lower-cased is a key of `keyMap` that plays the labelled note |
| Piano.LabelPlaysItsNote | src/components/Piano.tsx:140-144 | pressing the label printed on a key, in either case, plays that key's note |
| Piano.BlackKeys | src/components/Piano.tsx:44-58 | the black keys are C#4, D#4, F#4, G#4 and A#4 |
| Piano.BlackKeyLabels | src/components/Piano.tsx:189 | the black keys are labelled W, E, T, Y and U |
| Piano.AtMostOneActive | src/components/Piano.tsx:184 | at most one key is lit at a time |
| Piano.ActiveNoteLightsOneKey | src/components/Piano.tsx:184 | an active labelled note lights a key |
| Piano.LitKeys | src/components/Piano.tsx:184 | with no active note no key is lit; an active labelled note lights exactly the one key drawn for it |
| Piano.PianoState.constructor | src/components/Piano.tsx:38-39 | no synthesizer yet, no active note and no calls |
| Piano.PianoState.SynthCreated | src/components/Piano.tsx:83-84 | the synthesizer now exists; nothing else changes |
| Piano.PianoState.HandleKeyDown | src/components/Piano.tsx:117-122 | with a synthesizer, the note is attacked and becomes active; without one, nothing changes |
| Piano.PianoState.HandleKeyUp | src/components/Piano.tsx:125-130 | with a synthesizer and a truthy active note, the synthesizer releases and no note is active; otherwise nothing changes |
| Piano.PianoState.HandleKeyboardDown | src/components/Piano.tsx:140-144 | with a synthesizer, a mapped non-repeat key attacks its note, which becomes active and lights a key; anything else changes nothing |
| Piano.PianoState.HandleKeyboardUp | src/components/Piano.tsx:146-150 | a mapped key, with a synthesizer and a truthy active note, releases and empties the slot; in every other case nothing changes |
| Piano.PianoState.HandleKeyMouse | src/components/Piano.tsx:27-29 | mouse down attacks the key's note and lights the key, or does nothing without a synthesizer; mouse up and leave release a truthy active note, or do nothing |

## Left out

- DrumData.ProgressAt: computes `floor(time * 100 / 15000)` in exact arithmetic. The source divides in IEEE doubles first. Among the demo's hit times, the two differ only at 8700 ms: the source reports 57 (0.58 × 100 is 57.99999999999999) and the model reports 58. Floating point is not modelled.
- Text.Lower: folds only the ASCII letters A-Z. Every key name the two instruments compare is ASCII; locale-dependent and non-ASCII case mappings are not modelled.
- The instruments of the drum pad are a fixed set of pads given at construction. The asynchronous loading of the Tone.js instruments, its failure path and the `isMounted` guard are not modelled.
- The sound engine is not modelled: the note, duration and arpeggio of each pad, the synthesizers' envelopes and effects, `Tone.start` and `handleStartAudio`, and the `try`/`catch` around a trigger. A trigger is recorded as a `Sound` and, on the piano, as an `Attack` or `Release` call.
- Timers fire punctually and in order of due time, then handle. Browser lateness, clamping and throttling are not modelled.
- React rendering is not modelled. State updates take effect at once and are never batched. Each handler sees the current state rather than the one captured by its closure.
- The loading spinner, its 500 ms timeout, the disabled button, the progress bar markup and the `isAudioReady` flags of both components are presentation state only and are not modelled.
- Disposing the instruments and the piano synthesizer on unmount is not modelled.
- `TabContainer.tsx` and `App.tsx`, which only mount the two instruments, are not part of this model.
- The model keeps three as-written behaviours of the source, none of which breaks either invariant:
  - holding a pad that is already held triggers it again;
  - pulse clears are never cancelled, so an earlier pulse's clear can end a later pulse early;
  - the progress-reset timeout is not tracked, so neither stopping nor restarting the demo cancels it: a demo restarted within one second of its natural end has its progress dropped to 0 by the old reset, until the next hit reports again (5, then 0, then 6, for example).
