# Trial planning and trial logic of the sense-of-agency experiments

This project is a Dafny model of the parts of a PsychoPy sense-of-agency (SoA) experiment suite that can be stated without a screen. The originals are Python. The model covers:

- **The trial-plan generator (`utils.py`, `config.py`).**
  - A seeded generator assigns Active and Pre-tone trial types by a ratio.
  - It draws one delay per trial in one of four modes, in precedence order: fixed delay, discrete set, uniform range, Gaussian over the global delay set.
  - It builds each block's trial records.
  - It concatenates the blocks of a preset's `block_order` and gives every trial a contiguous global index.
  - The epsilon regressor is the delay minus the centre delay `MU_0`.
- **The non-blocking tone scheduler (`audio.py` `AudioScheduler`).**
- **The three-block experiment (`experiment_bamba2020.py`).**
  - Block 1's shuffled list.
  - Block 2's adaptation delays.
  - Block 3's "shuffle and check" ordering, which keeps every two neighbouring delays at most 250 ms apart, with the catch trials inserted at drawn positions.
  - The rule that catch trials are not rated.
- **The continuous-rating experiment (`experiment_continuous_rating.py`).**
  - The fixed 60-trial, three-step sequence of a condition.
  - The cursor clamp and the click threshold.
  - The conversion of a VAS position to a rating in [0, 100].
- **The data logger (`logger.py` `DataLogger`).**
  - The fields `add_trial` derives.
  - The append-only record list.
  - The CSV column selection and its order.
  - The summary counts.
- **One trial of the boundary-trigger experiment (`experiment.py` `run_trial`).**
  - The states `waiting_start → moving → waiting_sound`.
  - The one-time boundary crossing.
  - The Pre-tone tone at the crossing.
  - A target click that counts only after the crossing.
  - The Active tone scheduled at the click, and the two-second tone wait.
  - The blocks that skip the rating.
  - The record handed to the logger.

Each Python file is one module:

| file | module |
|---|---|
| `random.dfy` | `Random` |
| `utils.dfy` | `Utils` |
| `config.dfy` | `Config` |
| `audio.dfy` | `Audio` |
| `bamba.dfy` | `Bamba` |
| `continuous.dfy` | `Continuous` |
| `logger.dfy` | `Logger` |
| `experiment.dfy` | `Experiment` |

`options.dfy` holds the `Option` type.

Code that updates state in place is modelled that way:

- classes with `modifies` clauses;
- loops with invariants;
- numpy's in-place shuffle on an array copy.

Each such method is proved equal to a specification function of the state it starts from. That covers `RandomGenerator`, `AudioScheduler`, `DataLogger`, `SoAExperiment`, `ContinuousRatingExperiment` and `BoundaryTriggerExperiment`. The properties the source promises are lemmas about those functions.

**The random source.** numpy's generator is a natural-number state. `Random.Draw(st, bound)` is the draw in `[0, bound)` that a state yields, and `Random.Next` is a stand-in step. Every proof about the callers uses only the range of `Draw`, so the results hold for any generator with that range. Every builder's result is a function of the starting state, so two runs from the same seed and preset give the same plan. That is `Utils.ReplayIsIdentical`. The Bamba 2020 experiment takes no seed: `SoAExperiment(subject_id, condition)` draws from numpy's module-level generator, which nothing seeds, so its sessions are not reproducible. Its constructor takes that generator's state as an arbitrary `entropy`.

**Frames as inputs.** Mouse positions, button states and the clock readings `core.getTime()` of each screen refresh are inputs, as finite sequences of frames. A refresh of the moving loop has two readings: one after the flip, for the crossing and the click, and one at the scheduler poll that ends the refresh. A loop whose frames run out before it ends reports `false`. The rating sliders are parameters.

**What the code does, as modelled:**

- **No retry cap.** `_sort_delays_with_constraint` shuffles until an order meets the bound, with no cap on its retries (experiment_bamba2020.py:515-529).
  - The model gives it a fuel parameter and returns `None` once the fuel is spent.
  - `Bamba.NoAdmissibleOrder` shows that without a cap the search may never end.
- **Gaussian mode shuffles again.** It shuffles the sampled delays after sampling them (utils.py:68-69).
- **Global delay table.** Gaussian mode and the epsilon use the global `DELAY_SET` and `MU_0` (utils.py:58-59, 200), never a preset's own `mu_0` or `delay_set`.
- **Pre-tone count.** The count is Python's `int(n * ratio)`, which truncates toward zero. The model takes `n * ratio` as the exact product, so its count is the truncation of that product. This equals `floor(n * ratio)` for ratios in [0, 1], as `Utils.AssignedTypeCounts` proves. The code's float product can differ (see "## Left out"). A negative ratio gives no Pre-tone trials and more than `n` Active entries.
- **Scheduling overwrites.** Scheduling a tone while one is pending overwrites it without complaint (audio.py:87). Nothing restricts scheduling to an idle scheduler.
- **The click hold delays short tones.** After an accepted click the moving loop schedules the tone, holds the screen with `core.wait(0.2)` and only then polls the scheduler (experiment.py:280-299). Every Active delay of at most 200 ms (0, 50, 100, 150 and 200 of `DELAY_SET`) therefore plays at that poll, at least 0.2 s after the click, and its logged `actual_tone_latency_ms` is at least 200. `Experiment.ActiveClickSchedules` and `Experiment.HeldClickLatency` state this.
- **Zero times count as missing.** The logged times use Python truthiness (experiment.py:342-344), so a time of exactly 0.0 is logged as `None`.

## Model

| member | source | states |
|---|---|---|
| `Random.ShuffledPermutes` | utils.py:17-21 | a shuffle returns a permutation of its argument: the same elements, each as often |
| `Random.RandomGenerator.constructor` | utils.py:14-15 | the generator starts in the state given by the seed; numpy accepts seeds in [0, 2^32) |
| `Random.RandomGenerator.Global` | experiment_bamba2020.py:69-95 | a generator in an arbitrary given state: numpy's module-level generator, which the Bamba experiment never seeds |
| `Random.RandomGenerator.Shuffle` | utils.py:17-21 | shuffles a fresh copy in place by numpy's Fisher-Yates order; the result and the new state are those of `Shuffled` on the old state; the result is a permutation of the argument, which is a value and stays as it was |
| `Random.RandomGenerator.Choice` | utils.py:23-25 | one pick is a member of the non-empty list, determined by the state, and the state advances once |
| `Random.RandomGenerator.ChoiceMany` | utils.py:23-25 | `size` picks, each a member of the list, equal to `Picks` of the old state |
| `Random.RandomGenerator.RandInt` | utils.py:124 | `randint(low, high)` lies in [low, high), determined by the state |
| `Random.Picks` | utils.py:120 | `k` picks from a list, every one a member of it |
| `Random.Integers` | utils.py:124 | `k` integers, every one in [lo, hi) |
| `Config.RangeZeroToFiveHundred` | config.py:37-41 | `list(range(0, 501, 50))` is the eleven values 0, 50, ..., 500 |
| `Config.PresetTable` | config.py:12-65 | the five preset names, and the preset each one maps to |
| `Config.PresetsConsistent` | config.py:12-65 | in every preset each id of `block_order` is a key of `blocks`; fixed and discrete blocks have no sigma, Gaussian blocks have one |
| `Config.DefaultTablesAreOriginal` | config.py:71-72 | `BLOCKS` and `BLOCK_ORDER` are the 'original' preset's four blocks and their order |
| `Config.OnlyLearningTestOverridesRatio` | config.py:63-81 | only 'learning_test' sets its own Pre-tone ratio (0.1); the default is 0.2 |
| `Config.OriginalTotal` | config.py:13-21 | the 'original' preset runs 160 + 80 + 160 + 80 = 480 trials |
| `Utils.TruncToInt` | utils.py:84 | Python's `int()` on a float truncates toward zero, for either sign |
| `Utils.TimesIsProduct` | utils.py:84 | the repeated sum used for `n_trials * pretone_ratio` is the product |
| `Utils.AssignedTypes` | utils.py:84-88 | the shuffled type list has at least `n` entries |
| `Utils.AssignedTypeCounts` | utils.py:84-88 | exactly `int(n * r)` Pre-tone entries, with `n * r` the exact product, (none if negative) and the rest Active; for r in [0, 1] the list has `n` entries and the count is `floor(n * r)`; r = 0 gives all Active, a count reaching `n` gives all Pre-tone |
| `Utils.AssignTrialTypes` | utils.py:72-88 | the method returns the shuffled list of `AssignedTypes`, with its Pre-tone and Active counts |
| `Utils.BlockDelays` | utils.py:113-127 | one delay per trial in whichever mode the block's keys select |
| `Utils.BlockDelaysAllowed` | utils.py:114-127 | mode precedence fixed > discrete > uniform > Gaussian: each delay is the fixed delay, a member of the discrete set, in the inclusive uniform range, or a member of the global `DELAY_SET`; fixed mode repeats the fixed delay |
| `Utils.GenerateDelaySequence` | utils.py:46-69 | Gaussian mode picks `n` delays from the global `DELAY_SET` and then shuffles them again |
| `Utils.DrawBlockDelays` | utils.py:113-127 | the delay branch of `create_block_trials`, equal to `BlockDelays` of the old generator state |
| `Utils.ResolveBlockArgs` | utils.py:104-108 | a missing block info is looked up in `BLOCKS`, a missing ratio defaults to 0.2 |
| `Utils.BlockTrials` | utils.py:110-145 | a block's trial list has exactly `n_trials` records |
| `Utils.BlockTrialsShape` | utils.py:110-145 | record `i` has index `i` in the block and the block's id, name and sigma; its delay is absent exactly for a Pre-tone trial, and an Active trial `i` has the `i`-th drawn delay, one its mode allows; for r in [0, 1] exactly `int(n * r)` records are Pre-tone, with `n * r` the exact product |
| `Utils.CreateBlockTrials` | utils.py:91-145 | the method equals `BlockTrials` of the old generator state and of the resolved block info and ratio |
| `Utils.NumberTrials` | utils.py:178-180 | the inner loop sets the global indices `g, g + 1, ...` and returns the next index |
| `Utils.BuildBlocks` | utils.py:174-175 | one block per id of the order, from one generator threaded through all of them |
| `Utils.BuildBlocksShape` | utils.py:174-175 | block `i` of the build is a block of `order[i]`, with that block's records |
| `Utils.PlanFromIndexing` | utils.py:174-184 | the plan has the sum of its blocks' `n_trials` records, and its global indices run `g, g + 1, ...` without gaps |
| `Utils.PlanFromBlockIds` | utils.py:174-184 | the blocks appear in `block_order` order, each as one contiguous run of its own records |
| `Utils.PlanFromRecords` | utils.py:174-184 | every record of the plan keeps its block's name, sigma and delay rule |
| `Utils.PlanLoopStep` | utils.py:174-182 | one turn of the block loop keeps "records so far + plan of the remaining blocks = whole plan" |
| `Utils.CreateTrialsFor` | utils.py:159-184 | one generator seeded once for the whole plan; the loop's result is the plan, numbered from 0 |
| `Utils.ResolvePreset` | utils.py:163-172 | a known preset gives its tables and its ratio or 0.2; `None` or an unknown name falls back to `BLOCKS`, `BLOCK_ORDER`, `PRETONE_RATIO`; the result can always be built |
| `Utils.PresetsBuildable` | config.py:12-65 | every preset and the default tables satisfy what the builder needs (ids resolve, draws possible, Gaussian sigma set) |
| `Utils.PlanIndexing` | utils.py:148-184 | `trial_index_global` runs 0 .. len - 1, the length is the sum of `n_trials`, and the blocks appear in order |
| `Utils.DefaultResolvesToOriginal` | utils.py:164-172 | no preset or an unknown one resolves as 'original' does, to 480 trials |
| `Utils.DefaultPlanLength` | utils.py:164-184 | the default plan is the 'original' preset's plan, 480 records long |
| `Utils.Plan` | utils.py:148-184 | the plan of a seed and a preset: the preset resolved, one generator seeded once, the blocks of the order built in turn and numbered from 0; `PlanIndexing`, `PlanFromBlockIds`, `PlanFromRecords` and `ReplayIsIdentical` state its properties |
| `Utils.CreateAllTrials` | utils.py:148-184 | the method returns `Plan(seed, preset)`, with global indices 0 .. len - 1 |
| `Utils.ReplayIsIdentical` | utils.py:148-184 | two builds from the same seed and preset give the same plan |
| `Utils.CalculateEpsilon` | utils.py:187-202 | `None` gives `(None, None)`; a delay `d` gives `(d - MU_0, (d - MU_0)^2)`, the square non-negative |
| `Audio.Poll` | audio.py:89-106 | a poll plays exactly when a tone is scheduled and its time has come |
| `Audio.ScheduleOverwrites` | audio.py:79-87 | scheduling sets the pending time to `ref + d / 1000` and plays nothing; scheduling again overwrites it |
| `Audio.PollWaits` | audio.py:96-106 | with nothing scheduled or before the scheduled time a poll returns false and changes nothing |
| `Audio.PollPlaysOnce` | audio.py:100-104 | at or after the scheduled time a poll plays once, records `now`, clears the schedule, and the next poll plays nothing |
| `Audio.ScheduledToneTiming` | audio.py:87-104 | a tone scheduled `d` ms after a click plays at the first poll at or after `click + d / 1000`, never before the click |
| `Audio.ImmediateAndCleared` | audio.py:108-118 | playing immediately records `now` and keeps the pending time; reset clears both times, after which no poll plays |
| `Audio.AudioScheduler.constructor` | audio.py:74-77 | a new scheduler has no pending tone and no play time |
| `Audio.AudioScheduler.ScheduleTone` | audio.py:79-87 | updates the fields as `Scheduled` says |
| `Audio.AudioScheduler.PlayIfReady` | audio.py:89-106 | updates the fields and answers as `Poll` says |
| `Audio.AudioScheduler.PlayImmediately` | audio.py:108-113 | updates the fields as `PlayedNow` says |
| `Audio.AudioScheduler.Reset` | audio.py:115-118 | updates the fields as `Cleared` says |
| `Audio.AudioScheduler.GetActualPlayTime` | audio.py:120-122 | returns the last play time |
| `Audio.ActiveToneScenario` | audio.py:79-106 | a tone scheduled at a click is not played before its time, is played at its time, and is played only once |
| `Bamba.ListRepeat` | experiment_bamba2020.py:416-419 | Python's `list * k` has `k` times the length |
| `Bamba.RatingRule` | experiment_bamba2020.py:425-431 | a trial is rated exactly when its delay is neither 'negative' nor 1000 ms; every target delay is rated |
| `Bamba.Retry` | experiment_bamba2020.py:515-529 | shuffle-and-check: the first of at most `fuel` shuffles whose neighbours all differ by at most `max_diff`, or `None`, and the generator state after the shuffles made; `RetrySound` and `NoAdmissibleOrder` state its properties |
| `Bamba.ConstrainedOrder` | experiment_bamba2020.py:499-529 | a list of length at most 1 as it is, any other through `Retry`; `ConstrainedOrderSound` states its properties |
| `Bamba.ConstrainedOrderSound` | experiment_bamba2020.py:499-529 | a returned order is a permutation of the input whose neighbours differ by at most `max_diff`; lists of length at most 1 come back unchanged |
| `Bamba.RetrySound` | experiment_bamba2020.py:515-529 | every accepted shuffle is a permutation meeting the neighbour bound |
| `Bamba.NoAdmissibleOrder` | experiment_bamba2020.py:515-529 | two delays further apart than `max_diff` are never accepted, however many shuffles are made |
| `Bamba.TargetsOrderable` | experiment_bamba2020.py:23 | the target delays in their listed order meet the 250 ms bound, so Block 3's order exists |
| `Bamba.Block1Composition` | experiment_bamba2020.py:416-423 | Block 1 is a permutation of the targets three times and the catches once: 29 trials, each target 3 times, each catch once |
| `Bamba.Block2Range` | experiment_bamba2020.py:446-452 | Low gives twenty 0 ms delays; High gives twenty delays in [0, 500], each equal to its draw when the draw lies in that range |
| `Bamba.InsertCatches` | experiment_bamba2020.py:485-487 | inserting the catches lengthens the list by their number |
| `Bamba.InsertCatchKeepsOrder` | experiment_bamba2020.py:486-487 | one `list.insert` of a catch keeps the rated trials and their order, and adds the catch |
| `Bamba.InsertCatchesKeepsOrder` | experiment_bamba2020.py:484-487 | inserting the catches keeps the rated trials in order as a subsequence and adds exactly the catches |
| `Bamba.OrderedWithCatchesShape` | experiment_bamba2020.py:480-487 | when the ordering succeeds, the list holds the targets plus the catches, and its rated trials are the ordered targets |
| `Bamba.Block3Shape` | experiment_bamba2020.py:474-487 | Block 3 has 11 trials when the ordering succeeds: the targets in an order within 250 ms, kept as the rated subsequence, and the two catches |
| `Bamba.BlockRecords` | experiment_bamba2020.py:425-433 | one record per delay, numbered from 1 |
| `Bamba.SoAExperiment.constructor` | experiment_bamba2020.py:69-95 | a new experiment has its condition and no records; it takes no seed, and its generator is numpy's module-level one in whatever state it is in |
| `Bamba.SoAExperiment.AppendBlock` | experiment_bamba2020.py:425-433 | the trial loop appends one record per delay, rated when the block rates and the delay is no catch |
| `Bamba.SoAExperiment.RunBlock1` | experiment_bamba2020.py:402-433 | Block 1 appends the records of the shuffled Block 1 list |
| `Bamba.SoAExperiment.RunBlock2` | experiment_bamba2020.py:435-457 | Block 2 appends unrated records of the zero or clipped delays |
| `Bamba.SoAExperiment.SortDelaysWithConstraint` | experiment_bamba2020.py:499-529 | the shuffle-and-scan loop returns `ConstrainedOrder` of the old state, `None` once the fuel is spent |
| `Bamba.SoAExperiment.InsertCatchTrials` | experiment_bamba2020.py:484-487 | the insertion loop returns `InsertCatches` of the old state |
| `Bamba.SoAExperiment.RunBlock3` | experiment_bamba2020.py:459-497 | Block 3 appends the records of the ordered list with catches, or nothing when the ordering runs out of fuel; either way the generator ends in the state the shuffles (and insertions) left |
| `Bamba.SoAExperiment.Run` | experiment_bamba2020.py:531-573 | Block 1 and three cycles of Blocks 2 and 3 add 29 + 3 * (20 + 11) = 122 records |
| `Continuous.Phase` | experiment_continuous_rating.py:733-739 | one step's twenty appends give twenty entries |
| `Continuous.TrialSequence` | experiment_continuous_rating.py:730-772 | twenty baseline entries, twenty intervention entries with the condition's delays, twenty washout entries; `TrialSequenceShape` states its properties |
| `Continuous.TrialSequenceShape` | experiment_continuous_rating.py:730-772 | 60 entries numbered 1 .. 60 in order; 1-20 baseline and 41-60 washout without delays; 21-40 intervention with (0, 0) for A, (mu, 0) for B, (mu, mu) for C |
| `Continuous.ContinuousRatingExperiment.constructor` | experiment_continuous_rating.py:66-95 | a new experiment has its condition, `mu_delay` and no rows |
| `Continuous.ContinuousRatingExperiment.GenerateTrialSequence` | experiment_continuous_rating.py:723-772 | the three loops build `TrialSequence` of the condition |
| `Continuous.CursorOnBar` | experiment_continuous_rating.py:380-418 | the clamped cursor stays on the bar [-500, 500], follows the mouse on the bar and sits on the nearer edge off it |
| `Continuous.ClickRule` | experiment_continuous_rating.py:385-426 | a click counts exactly when the button is down with the mouse at 490 px or further right |
| `Continuous.FirstAccepted` | experiment_continuous_rating.py:410-426 | the frame that ends the click loop lies in the searched range |
| `Continuous.FirstAcceptedIsFirst` | experiment_continuous_rating.py:410-426 | that frame is the first accepted one; no frame before it is accepted, and `None` means none is |
| `Continuous.WaitForClick` | experiment_continuous_rating.py:410-426 | the click loop stops at `FirstAccepted` |
| `Continuous.VasRating` | experiment_continuous_rating.py:576-579 | the clamped cursor's offset from the left edge, in percent of the scale width, clamped to [0, 100]; `VasRatingScale` states its properties |
| `Continuous.VasRatingScale` | experiment_continuous_rating.py:538-582 | ratings lie in [0, 100]; left edge 0, centre 50, right edge 100; positions off the scale rate 0 or 100; on the scale the position can be read back from the rating; the rating is monotone |
| `Continuous.FirstPressed` | experiment_continuous_rating.py:552-584 | the frame that ends the rating loop lies in the searched range |
| `Continuous.FirstPressedIsFirst` | experiment_continuous_rating.py:552-584 | that frame is the first with the button down |
| `Continuous.RatingOfRange` | experiment_continuous_rating.py:552-584 | a recorded rating is in [0, 100], and one is recorded exactly when some frame presses |
| `Continuous.GetImmediateVasRating` | experiment_continuous_rating.py:550-584 | the rating loop returns `RatingOf` the frames |
| `Continuous.SessionRecords` | experiment_continuous_rating.py:698-707 | one row per sequence entry |
| `Continuous.ContinuousRatingExperiment.Run` | experiment_continuous_rating.py:685-707 | the run appends one row per sequence entry, in order, with its rating, step, condition and `mu_delay` |
| `Logger.WithDerived` | logger.py:40-54 | the record `add_trial` appends: the input with `epsilon_k`, `epsilon_k_squared` and `actual_tone_latency_ms` set; `DerivedFields` states its properties |
| `Logger.DerivedFields` | logger.py:40-54 | epsilon and its square only for an Active trial with a delay, else both `None`; latency `t_tone - t_click` when both present, else `None`; other keys unchanged |
| `Logger.DataLogger.constructor` | logger.py:18-26 | a new logger has its participant, seed and no records |
| `Logger.DataLogger.AddTrial` | logger.py:33-56 | exactly one record, with its derived fields, is appended at the end; earlier records are unchanged |
| `Logger.ColumnsAreKeys` | logger.py:72-94 | the DataFrame's columns are exactly the keys present in some record |
| `Logger.SelectColumnsMembers` | logger.py:94 | the selection keeps exactly the listed columns that are present |
| `Logger.SelectColumnsOrdered` | logger.py:94 | from a list without repeats the selection keeps the listed order, each column once |
| `Logger.ColumnsOrderDistinct` | logger.py:75-91 | `columns_order` is fifteen different names |
| `Logger.CsvColumnsSpec` | logger.py:72-95 | the CSV keeps a listed column exactly when some record has it, each once, in the listed order |
| `Logger.DataLogger.CsvColumns` | logger.py:72-95 | the columns `save_csv` keeps, stated from the logger's records |
| `Logger.CountType` | logger.py:146-147 | a count of records by type never exceeds the number of records |
| `Logger.CountsBounded` | logger.py:145-147 | `n_active + n_pretone <= n_trials` |
| `Logger.CountAppend` | logger.py:146-147 | appending a record adds one to the count of its own type only |
| `Logger.SummaryAfterAdd` | logger.py:143-147 | after `add_trial` the summary counts one more record of the added record's type |
| `Logger.DataLogger.Summary` | logger.py:143-147 | `n_trials` is the number of records, and the two type counts add up to at most it |
| `Experiment.WaitStep` | experiment.py:315-320 | one poll of the tone wait never changes the click time |
| `Experiment.RunStart` | experiment.py:212-228 | the start loop ends in `moving` or is still waiting |
| `Experiment.MoveStep` | experiment.py:250-299 | one refresh of the moving loop: the crossing check (a Pre-tone trial plays at once), the new previous x, the target click (an Active trial schedules its tone), and an Active trial's poll at the poll reading; `CrossingRule`, `PretonePlaysAtCrossing`, `ClickNeedsCrossing` and `ActiveClickSchedules` state its properties |
| `Experiment.RunMove` | experiment.py:243-299 | the moving loop ends only in `waiting_sound` with a click time |
| `Experiment.WaitEnd` | experiment.py:306-320 | the first refresh of the tone wait that reaches the tone or the timeout |
| `Experiment.TrialRun` | experiment.py:183-327 | a trial's three loops in turn from the reset state: the start loop, the moving loop, and for an Active trial whose tone is still pending the tone wait; `false` when a loop's refreshes run out |
| `Experiment.ResetClears` | experiment.py:194-200 | at trial start the state is `waiting_start`, with nothing recorded and the scheduler cleared |
| `Experiment.StartClickRule` | experiment.py:219-228 | a start click inside `START_RADIUS` moves to `moving` and records `prev_mouse_x`, which lies left of the boundary; anything else changes nothing |
| `Experiment.CrossingRule` | experiment.py:253-264 | the crossing is registered at most once, only when prev x < `BOUNDARY_X` <= current x, at that refresh's time |
| `Experiment.PretonePlaysAtCrossing` | experiment.py:259-262 | a Pre-tone trial plays at the crossing and records the tone time, and touches the scheduler at no other refresh |
| `Experiment.ClickNeedsCrossing` | experiment.py:266-294 | a target click is accepted exactly when the boundary was crossed; otherwise the state stays `moving` |
| `Experiment.ActiveClickSchedules` | experiment.py:273-299 | an accepted Active click schedules the tone at click + delay / 1000; the poll after the 0.2 s hold plays it at the poll reading when it is due, else leaves it scheduled; so a delay of at most 200 ms plays at least 0.2 s after the click |
| `Experiment.HeldClickLatency` | experiment.py:273-299 | when the tone plays in the click refresh (every delay of at most 200 ms), the logged `actual_tone_latency_ms` is at least 200, whatever the delay |
| `Experiment.WaitEnds` | experiment.py:306-320 | the tone wait ends at the first refresh that reaches the scheduled time or is more than 2 s after the click, and the tone has played exactly when the scheduled time was reached |
| `Experiment.RatingSkipRule` | experiment.py:329-345 | the rating is skipped exactly for 'practice' and 'learning', and the record holds it otherwise |
| `Experiment.TrialRecord` | experiment.py:335-348 | the `trial_data` dictionary: the plan's indices, block, type and delay, the times in ms since the trial start with Python truthiness, the rating when the block asks for it, sigma and the response time; `RecordFields` and `RatingSkipRule` state its properties |
| `Experiment.RecordFields` | experiment.py:335-348 | the record's click and tone times are milliseconds since the trial start, beside the delay and the type |
| `Experiment.LoggedLatency` | experiment.py:342-350 | the logger accepts the record, and its latency is the time from click to tone in ms |
| `Experiment.LoggedEpsilon` | experiment.py:339-350 | the logged epsilon is delay - `MU_0` for an Active trial, and `None` for a Pre-tone trial |
| `Experiment.BoundaryTriggerExperiment.constructor` | experiment.py:22-66 | a new experiment has a fresh scheduler and logger, the plan of `create_all_trials`, and no trial state |
| `Experiment.BoundaryTriggerExperiment.StartTrial` | experiment.py:194-200 | the fields are reset as `Reset` says |
| `Experiment.BoundaryTriggerExperiment.StartFrame` | experiment.py:220-228 | one refresh of the start loop updates the fields as `StartStep` says |
| `Experiment.BoundaryTriggerExperiment.MoveFrame` | experiment.py:250-299 | one refresh of the moving loop updates the fields and the scheduler as `MoveStep` says, polling at the refresh's poll reading |
| `Experiment.BoundaryTriggerExperiment.WaitFrame` | experiment.py:315-320 | one refresh of the tone wait: poll, then the two-second timeout |
| `Experiment.BoundaryTriggerExperiment.WaitForStart` | experiment.py:212-238 | the start loop equals `RunStart` |
| `Experiment.BoundaryTriggerExperiment.MoveToTarget` | experiment.py:243-303 | the moving loop equals `RunMove` |
| `Experiment.BoundaryTriggerExperiment.WaitForTone` | experiment.py:306-324 | the tone wait equals `RunWait` |
| `Experiment.BoundaryTriggerExperiment.RunTrial` | experiment.py:183-350 | the trial's fields end as `TrialRun` says, and a completed trial logs exactly its record with the derived fields |

## Left out

- numpy's Mersenne Twister: the generator is an abstract state with a stand-in step, so the model shows reproducibility but not numpy's actual numbers.
- `gaussian_weights`: the float `exp` weights are not modelled. Gaussian mode's picks are only known to be members of `DELAY_SET`, and the error for weights that underflow is not modelled.
- Random.RandomGenerator.ChoiceMany: ignores the weights `p`, so it states membership, not the distribution.
- Utils.GenerateDelaySequence: states membership in `DELAY_SET` and the extra shuffle, not the Gaussian shape of the counts.
- The Block 2 normal draws (`np.random.normal(0, 80, 20)`) are a parameter. Because of that, the model's generator does not advance for them, although numpy's does.
- Bamba.SoAExperiment.Run: states only the number of records. Each block's own contents are stated by `RunBlock1`, `RunBlock2` and `RunBlock3`.
- Bamba.SoAExperiment.SortDelaysWithConstraint: has a fuel bound that the code lacks. An order that is found only after more shuffles than the fuel allows is reported as `None`, and `RunBlock3` then adds no records.
- `run_trial` of `experiment_bamba2020.py` and of `experiment_continuous_rating.py` (beyond the cursor clamp, the click rule and the rating): their timed waits, tone playing and timestamps are GUI and clock code.
- Continuous.ContinuousRatingExperiment.Run: takes each trial's rating as a parameter, because `run_trial` is not modelled. Its rows leave out the measured times and the subject id.
- The `get_soa_rating` slider loops of `experiment.py` and `experiment_bamba2020.py`: the slider is GUI input, and its answer is a parameter.
- `BoundaryTriggerExperiment.run`, the break screens, instructions, dialogs, `quit`, the ESC key and every `draw`/`flip`/`core.wait`: GUI.
- Experiment.BoundaryTriggerExperiment.MoveFrame: uses the refresh's first reading for the crossing, the Pre-tone play and the click alike, while the code reads `core.getTime()` for each of them separately, microseconds apart; the poll after the hold has its own reading. `Experiment.WaitStep` and `BoundaryTriggerExperiment.WaitFrame` likewise use one reading for the tone wait's poll and its two-second timeout, which the code reads separately (experiment.py:315 and 319).
- Experiment.LoggedLatency: states the latency only when both times are non-zero, because the code's truthiness test logs a time of exactly 0.0 as `None`.
- The builder's Python exceptions are excluded by `Utils.WellFormedBlock` rather than modelled as error results: a Gaussian block with `sigma` `None` (a TypeError) or 0 (NaN weights, so numpy's `choice` raises), and an empty discrete set or uniform range for a block with trials (numpy raises). Every preset meets it (`Utils.PresetsBuildable`).
- The `sqrt` distance tests: modelled as squared-distance comparisons, which agree for non-negative radii.
- Times and positions: exact reals, with no floating-point rounding.
- Utils.AssignedTypeCounts: `n * ratio` is the exact product, and the float rounding of `int(n_trials * pretone_ratio)` is not modelled. For a ratio with no exact binary form the float product can fall just below an integer: the code gives `int(100 * 0.29) == 28` where the model gives 29. The configured ratios 0.2 and 0.1 are stored slightly above their decimal values, so for the block sizes 20, 80 and 160 their float products do not fall below the integer, and code and model agree there. The same holds for `Utils.BlockTrialsShape`'s Pre-tone count.
- `DataLogger.save_csv` and `save_json` file output, the JSON metadata, and the `datetime` timestamps: I/O. Only the column selection is modelled.
- The mutation of the caller's dictionary in `add_trial`: the logger appends the caller's own dict object, so the caller sees the derived fields too. The model treats records as values.
- `ToneGenerator`: tone synthesis and playback. A play is counted in the scheduler's `plays` field.
- The record's `trial_index_global`: the code reads it from the plan with `[]`. The model logs `None` for a trial that has none, where Python would raise.
- Utils.BlockTrialsShape: states the Pre-tone count only for ratios in [0, 1]. `Utils.AssignedTypeCounts` covers every ratio.
- `analysis.py`, the plotting scripts, `add_soa_ratings.py` and `test_components.py`: analysis, plotting and interactive scripts. They are not part of this model.
