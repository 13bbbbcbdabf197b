# Drive Impact reaction trainer — Dafny model

This project models the core of the Street Fighter 6 "Drive Impact" reaction trainer. It has two parts.

- **The trainer's reaction-window state machine** (`trainer.dfy`, module `ReactionTrainer`, class `Trainer`). A clip plays. A frame tick whose media time reaches the clip's `driveImpactTime` (inclusive) opens the window once and arms a deadline of `DRIVE_WINDOW_MS` (25 frames at 60 Hz = 1250/3 ms). A press, the deadline or the end of the clip resolves the trial through `handleResult`. That locks input, shows the verdict, moves exactly one of the pass/fail counters and schedules the advance to the next clip. Each event is one method: `OnFrame`, `OnDeadline`, `OnInput`, `OnEnded` and `OnAdvance`. Time is a parameter of the event. The component state (`currentIdx`, `windowOpen`, `inputEnabled`, `stats`, overlay and feedback, `windowRef.current.open`) and the effect's per-clip closure variables (`opened`, written `hasOpened` because `opened` is a Dafny keyword, `userClicked`, `windowTimer`) are fields. A ghost history of verdicts ties the counters to what was reported, and `Valid()` is the object invariant, kept by every event:
  - in the model, the window is open only on a clip that has an impact time (that it opens at most once per clip is `OnFrame`'s contract);
  - an armed deadline implies the indicator is on;
  - `pass` is the number of successes in the history, and `pass + fail` is its length;
  - every reported verdict schedules exactly one advance;
  - `windowRef.current.open` is never true (the code only ever clears it).
- **The admin editor's manifest updates** (`admin.dfy`, module `Admin`). These cover the `current` lookup (first entry with the selected id), and the slider and "mark" updates. Each update rewrites `driveImpactTime` on the selected entry only. They are pure functions over `seq<Sequence>`, with lemmas:
  - length, order, `id` and `src` are preserved;
  - other entries are untouched;
  - an update is a no-op when the id is absent;
  - the later of two updates wins, and a repeated update changes nothing more;
  - looking up the entry after an update finds the updated record.

`manifest.dfy` holds the shared clip record. `scenarios.dfy` holds client methods that drive a fresh trainer through concrete event sequences. Their postconditions, proved from the event methods' contracts alone, give the outcomes.

The model follows the code as written:

- A press on a clip with no impact time compares against `Infinity` (`Trainer.tsx:98`), so it is always "DI wasn't active!". The `"False positive"` string at `Trainer.tsx:105` shows this case was meant to be a false positive; it is unreachable (`Classify`).
- "Too late!" comes from a press at or past the impact time before any frame has opened the window. In the model, which reads `inputEnabled` as a field (see Left out), input is locked after the deadline reports "Missed!", so this is the only way to get it. In the running page the lock has no effect, so a press after "Missed!" at or past the impact time, with `opened` still set, gives "Good DI!" and a second result.
- The next clip is the next index in order, wrapping around (`Trainer.tsx:157`). It is not a random draw that avoids repeats.
- `opened` is never reset by the deadline. With a single clip the advance keeps the same clip, the effect does not run again, and a later press past the impact time is "Good DI!" (`Scenarios.SingleClipKeepsWindow`).
- `onEnded` checks only `userClicked`. A clip that ends while its window is still open reports "Missed!" twice, once from the end of media and once from the still-armed deadline. One showing is counted twice, and the second advance skips a clip (`Scenarios.EndedInsideWindow`).
- A press before the impact time sets `userClicked` but does not stop a later frame from arming the deadline. That is why the deadline callback's own `!userClicked` check is needed.
- No reaction time is measured; the code computes none.

## Model

| member | source | states |
|---|---|---|
| `ReactionTrainer.Classify` | sf6-di-react/src/components/Trainer.tsx:97-107 | press classification table, both directions: "DI wasn't active!" iff the clip has no impact time or the press is before it; "Good DI!" (the only success) iff at or past the impact time with the window opened; "Too late!" iff at or past it with the window not opened; never "False positive" |
| `ReactionTrainer.EndedVerdict` | sf6-di-react/src/components/Trainer.tsx:113-117 | end-of-media verdict is a success exactly when the clip has no impact time; success is "Good Block!", failure is "Missed!" |
| `ReactionTrainer.NextIndex` | sf6-di-react/src/components/Trainer.tsx:157 | the next index stays below the number of clips and is the following index, or 0 after the last clip |
| `ReactionTrainer.CountPassesAppend` | sf6-di-react/src/components/Trainer.tsx:145-148 | recording one verdict adds exactly its success bit to the pass tally; passes never exceed verdicts |
| `ReactionTrainer.Trainer.Clip` | sf6-di-react/src/components/Trainer.tsx:37 | the clip shown is an entry of the manifest |
| `ReactionTrainer.Trainer.constructor` | sf6-di-react/src/components/Trainer.tsx:22-25 | mounting starts at clip 0 with input enabled, zero counters, no overlay, the window closed and no deadline armed |
| `ReactionTrainer.Trainer.HandleResult` | sf6-di-react/src/components/Trainer.tsx:137-160 | locks input, shows the verdict, increments `pass` on success or `fail` on failure (total grows by exactly 1), appends it to the history, schedules one advance, and leaves the per-clip state alone |
| `ReactionTrainer.Trainer.OnFrame` | sf6-di-react/src/components/Trainer.tsx:64-85 | opens the window and arms the deadline (due `now + DRIVE_WINDOW_MS`) exactly when not yet opened, the clip has an impact time and the media time is at or past it; otherwise changes nothing; once opened it stays opened and no later frame changes anything, so the window opens at most once per clip |
| `ReactionTrainer.Trainer.OnDeadline` | sf6-di-react/src/components/Trainer.tsx:78-81 | a cleared or already-run deadline does nothing; otherwise the indicator goes off, `opened` stays set, and "Missed!" is recorded exactly when no press was accepted; after an accepted press no counter moves |
| `ReactionTrainer.Trainer.OnInput` | sf6-di-react/src/components/Trainer.tsx:91-108 | a press while input is locked changes nothing; an accepted press sets `userClicked`, cancels the deadline and records `Classify` of its time, the clip's impact time and `opened` |
| `ReactionTrainer.Trainer.OnEnded` | sf6-di-react/src/components/Trainer.tsx:111-118 | after an accepted press nothing changes; otherwise records `EndedVerdict` of the clip's impact time |
| `ReactionTrainer.Trainer.OnAdvance` | sf6-di-react/src/components/Trainer.tsx:153-159 | with no advance scheduled nothing changes; otherwise index becomes `NextIndex`, input is re-enabled, overlay cleared, counters kept; when the index changes the new clip starts with `opened`, `userClicked`, deadline and indicator all cleared, and with one clip the per-clip state is kept |
| `ReactionTrainer.Trainer.RestartClip` | sf6-di-react/src/components/Trainer.tsx:126-131 | the effect cleanup clears the deadline, the ref's open flag and the indicator, and the new effect starts with `opened` and `userClicked` false; session state is unchanged |
| `Admin.Find` | sf6-di-react/src/app/admin/page.tsx:38 | `None` iff no entry has the id; otherwise an entry of the list with that id, before which no entry has it (the first match) |
| `Admin.SetImpact` | sf6-di-react/src/app/admin/page.tsx:42-43 | same length, each entry keeps `id` and `src`, entries with the id get the new time, all other entries are identical |
| `Admin.SliderChange` | sf6-di-react/src/app/admin/page.tsx:40-46 | the selected entries get a time that is the slider value in seconds (times 1000 gives the value back); length, ids, sources and other entries are preserved |
| `Admin.Mark` | sf6-di-react/src/app/admin/page.tsx:48-55 | with no video or no current entry the list is unchanged; with a video the result is the update of the selected entry to the video's current time |
| `Admin.SetImpactNoMatch` | sf6-di-react/src/app/admin/page.tsx:42-43 | if no entry has the selected id, the update returns the list unchanged |
| `Admin.SetImpactLastWins` | sf6-di-react/src/app/admin/page.tsx:42-43 | two updates of the same id equal the later update alone |
| `Admin.SliderChangeIdempotent` | sf6-di-react/src/app/admin/page.tsx:40-46 | applying the same slider value twice equals applying it once |
| `Admin.MarkIdempotent` | sf6-di-react/src/app/admin/page.tsx:48-55 | marking twice at the same video time equals marking once |
| `Admin.FindAfterSetImpact` | sf6-di-react/src/app/admin/page.tsx:38-45 | after an update, `current` is the previously found record with the new time (and still none if there was none) |
| `Admin.FindOtherAfterSetImpact` | sf6-di-react/src/app/admin/page.tsx:42-43 | an update of one id does not change what a lookup of any other id finds |
| `Scenarios.GoodReaction` | sf6-di-react/src/components/Trainer.tsx:69-101 | frame at 2.0 s opens the window, a press at 2.1 s is "Good DI!", stats become pass 1 fail 0, and the advance moves to clip 1 with input enabled |
| `Scenarios.DeadlineMiss` | sf6-di-react/src/components/Trainer.tsx:69-81 | the window opens on the first frame reaching 2.0 s, due 2000 + 1250/3 ms; the deadline reports "Missed!" (pass 0 fail 1) and a later press is locked out |
| `Scenarios.TooSoon` | sf6-di-react/src/components/Trainer.tsx:97-99 | a press before the impact time is "DI wasn't active!" |
| `Scenarios.PressBeforeFrame` | sf6-di-react/src/components/Trainer.tsx:100-106 | a press at the impact time before a frame has opened the window is "Too late!" |
| `Scenarios.NoImpactClip` | sf6-di-react/src/components/Trainer.tsx:97-118 | on a clip without impact time the window never opens, the untouched end is "Good Block!", and a press at any time is "DI wasn't active!" |
| `Scenarios.InputFencesDeadline` | sf6-di-react/src/components/Trainer.tsx:91-118 | after an accepted press, the deadline and the end of media report nothing (pass 1 fail 0) |
| `Scenarios.EndedInsideWindow` | sf6-di-react/src/components/Trainer.tsx:78-118 | ending inside the open window counts "Missed!" twice for one showing, and the two advances skip a clip |
| `Scenarios.SingleClipKeepsWindow` | sf6-di-react/src/components/Trainer.tsx:153-159 | with one clip "Missed!" is followed by the same clip with `opened` still set, so a press past the impact time is "Good DI!" |
| `Scenarios.SequentialOrder` | sf6-di-react/src/components/Trainer.tsx:157 | three advances over three clips visit indices 1, 2, 0 |

## Left out

- Rendering: JSX, the MUI components, overlay styling and the percentage formatting with `toFixed` are presentation.
- Media element: `play()`, `pause()`, restarting the video on a clip change, re-arming `requestVideoFrameCallback`, and swallowing the autoplay error are not modelled. Frames, the end of media, presses and timer expiry are method calls, and the caller chooses their order and times. No constraint is placed on which events a paused video still delivers.
- Timers: `setTimeout` delays are not timed. A deadline or advance runs when its method is called while it is scheduled. The deadline's due time is recorded but not enforced.
- React scheduling: state batching is not modelled, and the state updates of one handler take effect together. The effect cleanup and re-run caused by an index change happen inside `OnAdvance`.
- Stale closure: the input handler in the code reads the `inputEnabled` captured when the effect ran, so in the running page the lock has no effect. The model reads the field instead.
- Listener leak: the keydown listener removed in the cleanup is not the one added, so old clips' key handlers stay registered. This is not modelled.
- Frame-loop leak: the effect cleanup never cancels the frame-callback chain, so past clips' `onFrame` closures keep running on later clips with their own clip, `opened`, `userClicked` and deadline. Their `setWindowOpen` calls are not modelled. Neither is the late "Missed!" from the deadline of a clip that ended before reaching its impact time (with a later clip reaching that time), which moves `fail` and schedules an extra advance.
- Numbers: times are exact `real`s (seconds of media time, milliseconds of wall-clock time), not IEEE doubles.
- `ReactionTrainer.Trainer.constructor`: requires a non-empty manifest. The code reads `sequences[currentIdx].src` on the first render and takes `% sequences.length` when advancing, and neither has a meaning for an empty list.
- `Admin.SliderChange`: the slider value is a single number. The `number[]` case of a range slider, which the code casts away, is not modelled.
- `Admin.Mark`: `current` is taken from the same list that the update rewrites. The code computes `current` from the rendered list and applies the update to React's `prev`.
- Fetching and saving the manifest, the initial selection of the first id after the fetch, `alert`, the API routes that read and write the manifest file, the page loader, and `console.log` are input/output.
