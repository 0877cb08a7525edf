# corn: a one-second cron scheduler, modelled in Dafny

`corn` is an in-process scheduler for recurring tasks. A caller registers
task functions, each with a six-field crontab-style time specification
(`second minute hour day-of-month day-of-week month`), an optional dedup key
and an optional description. Once a second, a driver takes a snapshot of the
wall clock as the string `"YYYY-MM-DD hh:mm:ss w"`. It then goes through the
registered items in order, skips those whose key is on the ignore list, and
offers each of the others to a bounded pool. Each admitted item's six
tokens are checked against fixed slices of that snapshot. A fully matching
item runs unless another run with the same key is still in flight. An
in-flight record of keys provides that mutual exclusion. The key `"none"` is
a sentinel meaning "no dedup".

The model has six modules:

- `GoStrings` (`go_strings.dfy`): the parts of Go's library the matcher
  relies on, as pure functions. These are `strings.Index` and
  `strings.Split` with a one-character separator, and `strconv.Atoi` with
  its sign rule, its 0 on error and its saturation at 64 bits. `GoRem` is
  Go's truncating `%`.
- `Snapshot` (`snapshot.dfy`): the snapshot string a round builds, the fixed
  slices the evaluator cuts from it, and a decoder that reads it back.
- `TimeMatch` (`time_match.dfy`): `analyzeTime`, the field matcher. It is a
  method that mirrors the source, proved equal to a reference function
  `FieldVerdict` (classify the token, then evaluate it). The source returns a
  boolean meaning "skip" and panics on a zero step. The model names its three
  outcomes `Match`, `NoMatch` and `Fault`.
- `CronItems` (`cron_items.dfy`): the six-field check of one item.
  `ItemVerdict` gives the first verdict other than `Match`, in the order the
  source checks the fields (hour, minute, second, day, month, weekday).
- `Record` (`record.dfy`): the in-flight record, a class whose `keys` set is
  updated by a test-and-set `Add` and a remove `Del`.
- `Scheduler` (`scheduler.dfy`): the `ServerCron` class, with the registry,
  the ignore set, the record, the capacity and the status. Its methods are
  registration, listing, start/pause, capacity selection, manual runs, one
  scheduled evaluation, one round and one tick. The two run paths that touch
  the record are proved against the pure step functions `CronStep` and
  `ManualStep`, and the record-level properties are lemmas about those
  functions.

Inputs the source takes from its environment are parameters here:

- the wall-clock reading (a `Clock`);
- whether each admission attempt to the pool succeeded;
- whether each task body returned or panicked.

Behaviours of the code worth knowing, each stated by a lemma:

- **A zero-step fault releases a key that another run still holds.** A step
  token whose divisor reads as 0 (`*/0`, `*/x`) makes `%` panic. The
  evaluation's recover then deletes the item's key, even though this
  evaluation never added it. If another run of that key is still in flight,
  the next matching evaluation of the key runs alongside it instead of being
  skipped (`FaultReleasesForeignRun`).
- **A manual run that panics leaves its key marked as running.** Unforced
  `DoTask` removes the key only after the task returns. If the task panics,
  the key stays in the record. From then on every scheduled run of that key
  is skipped as a duplicate, until a zero-step fault on an item with that key
  clears it (`PanickedManualRunBlocksKey`).
- **Only indexes more than one past the end are reported as not found.** An
  index equal to the registry length, or a negative one, passes the
  `len < code` guard and fails on the lookup. The recover turns that into a
  logged error. Nothing runs in either case (`ManualOutOfRange`).
- **The fields are checked hour first.** The order is hour, minute, second,
  day, month, weekday, and the first field that does not match decides. An
  item matches exactly when all six fields match, whatever the order
  (`ItemMatchIff`). The order decides only whether a zero step in a later
  field faults or is never reached (`ItemFaultIff`).
- **Exact tokens are compared as strings with the snapshot's slice.** In a
  two-digit field (second, minute, hour, day, month) the slice is
  zero-padded, so a token like `5` never matches and only `05` matches 5
  (`PaddedField`, `PaddingMatters`). The weekday is a single digit, so `5` is
  the right token there and `05` never matches (`WeekdayField`).
- **A paused driver returns at once.** It does not wait out the tick first
  (`ServerGo` returns `Paused`).

## Model

| member | source | states |
|---|---|---|
| GoStrings.Index | corn.go:249 | the result is -1 exactly when the character is absent; otherwise it is the first position holding it |
| GoStrings.Split | corn.go:213 | at least one part, no part contains the separator, and joining the parts around it gives back the input |
| GoStrings.SplitSingle | corn.go:249-253 | splitting gives one part exactly when the separator is absent, and that part is the whole string |
| GoStrings.SplitPair | corn.go:250-252 | for a string containing the separator, there are two parts exactly when the separator occurs once, and they are the text before and after it |
| GoStrings.SplitJoin | corn.go:213 | parts free of the separator are recovered by splitting their join (the round trip the other way) |
| GoStrings.Atoi | corn.go:254-256 | the value is within Go's 64-bit int range, any input that is not an optionally signed run of digits reads as 0, and a digit run reads as its value, saturated |
| GoStrings.GoRem | corn.go:284 | for a non-negative dividend and positive divisor it is the ordinary remainder; in general it is smaller in magnitude than the divisor and never has the opposite sign to the dividend |
| Snapshot.Format | corn.go:188 | the snapshot of a valid clock is 21 characters long |
| Snapshot.FormatSlice | corn.go:218-233 | each fixed slice the evaluator cuts from a snapshot is that field's rendering (two zero-padded digits, or one digit for the weekday) and reads back as the clock's value |
| Snapshot.DecodeFormat | corn.go:188 | reading a snapshot back gives the clock it was built from |
| Snapshot.FormatInjective | corn.go:186-188 | distinct clocks give distinct snapshots |
| TimeMatch.Classify | corn.go:249-290 | a token read as exact contains none of `-`, `,` and `/`; a token read as a range is the two sides of its only `-` |
| TimeMatch.AnalyzeTime | corn.go:245-294 | the matcher's verdict equals the reference verdict of the classified token against the value |
| TimeMatch.StarMatchesAll | corn.go:246-248 | `*` matches every value |
| TimeMatch.ExactIsVerbatim | corn.go:290-293 | a token with none of `-,/` matches exactly the identical string and never faults |
| TimeMatch.RangeMeaning | corn.go:249-262 | any token containing `-` matches only if it splits into two parts, and then exactly when the numeric value lies between them |
| TimeMatch.ListMeaning | corn.go:263-273 | a list matches exactly when the value equals one of its elements verbatim, and never faults |
| TimeMatch.StepMeaning | corn.go:274-289 | a step matches only when it is `*` and one divisor; a divisor reading as 0 faults; otherwise it matches exactly on multiples under Go's `%` |
| TimeMatch.FaultOnlyOnZeroStep | corn.go:282-284 | the matcher faults only on a well-formed step token whose divisor reads as 0 |
| CronItems.FirstMissMatch | corn.go:218-235 | walking fields in any order yields Match exactly when every field in it matches |
| CronItems.FirstMissFault | corn.go:218-235 | walking fields yields Fault exactly when some field faults and every field before it matches |
| CronItems.CheckPosition | corn.go:218-233 | every one of the six fields is in the check order |
| CronItems.ItemMatchIff | corn.go:213-235 | an item matches exactly when its spec has six tokens and every field matches its slice |
| CronItems.ItemFaultIff | corn.go:213-235 | an item faults exactly when it has six tokens and some field faults after every earlier-checked field matched |
| CronItems.MalformedSpecInert | corn.go:213-216 | a spec without exactly six tokens never matches and never faults |
| CronItems.ClockMatchIff | corn.go:188-235 | against a clock's snapshot, an item matches exactly when every token matches that field's rendering (two zero-padded digits, or one digit for the weekday) |
| CronItems.SecondsOnlyTokens | corn.go:213 | a second token followed by five stars splits into exactly those six tokens |
| CronItems.SecondsOnly | corn.go:213-235 | with only the second constrained, the item's verdict is the second token's verdict |
| CronItems.EveryFifthField | corn.go:274-289 | `*/5` matches a two-digit zero-padded value exactly on multiples of five |
| CronItems.FirstSixField | corn.go:249-262 | `0-5` matches a two-digit zero-padded value exactly from 0 to 5 |
| CronItems.EveryFifthSecond | corn.go:188-235 | the spec `*/5 * * * * *` fires exactly at seconds divisible by five and never faults |
| CronItems.FirstSixSeconds | corn.go:188-235 | the spec `0-5 * * * * *` fires exactly at seconds 0 to 5 |
| CronItems.PaddedField | corn.go:290-293 | the exact token `5` never equals a two-digit zero-padded value; `05` equals it only for 5 |
| CronItems.WeekdayField | corn.go:290-293 | against the one-digit weekday slice, the exact token `5` matches exactly on weekday 5 and `05` never matches |
| CronItems.PaddingMatters | corn.go:188-235 | the spec `5 * * * * *` never fires, while `05 * * * * *` fires exactly at second 5 |
| Record.ItemRecord.constructor | corn.go:96 | a new record is empty |
| Record.ItemRecord.Add | corn.go:54-67 | reports whether the key was already running (never, for the sentinel) and marks it running; the sentinel is never stored |
| Record.ItemRecord.Del | corn.go:70-77 | removes exactly that key; a no-op for the sentinel |
| Record.AddSentinel | corn.go:55-57 | a test-and-set of the sentinel reports "not running" and records nothing |
| Record.AddOther | corn.go:58-65 | for another key, an absent key is inserted, a present key is left as is, and either way it is running afterwards |
| Record.DelExactly | corn.go:70-77 | removal takes out exactly that key and nothing else, and afterwards the key is not running |
| Record.AddThenDel | corn.go:54-77 | a test-and-set followed by a remove restores the record for a key that was not running |
| Record.AddTwice | corn.go:54-67 | a second test-and-set of a key finds it running and changes nothing |
| Scheduler.ItemFor | corn.go:157-169 | the key defaults to `"none"`; the description defaults to the key, or to `"none"` without one; a second argument sets the description |
| Scheduler.Capacity | corn.go:143-151 | the capacity is the larger of the requested value (500 if none) and 3 plus the number of items |
| Scheduler.RoundVerdictsAt | corn.go:189-196 | the round's verdict at position i is item i's verdict against the snapshot |
| Scheduler.ServerCron.constructor | corn.go:94-99 | a new scheduler has an empty registry, an empty record and no ignored keys, and it is running, not debugging |
| Scheduler.ServerCron.Start | corn.go:28-30 | the scheduler is running |
| Scheduler.ServerCron.Stop | corn.go:33-35 | the scheduler is paused |
| Scheduler.ServerCron.StartDebug | corn.go:138-140 | debug reporting is on |
| Scheduler.ServerCron.AddIgnore | corn.go:44-46 | the key joins the ignore set |
| Scheduler.ServerCron.DelIgnore | corn.go:49-51 | the key leaves the ignore set |
| Scheduler.ServerCron.AddCorn | corn.go:157-176 | the registry grows by exactly the item built with the default key and description rules, at the end |
| Scheduler.ServerCron.GetTaskList | corn.go:102-111 | one entry per registered item, in order, each carrying its index as code together with that item's key and description |
| Scheduler.ServerCron.RunCorn | corn.go:143-151 | the capacity becomes the clamped value and is at least 3 plus the number of items |
| Scheduler.ServerCron.DoTask | corn.go:114-135 | the report and the new record are those of the manual-run specification: not found past the end plus one, a recovered lookup fault at the end or below zero, a forced run that leaves the record alone, a skip when the key is running, and otherwise a run that clears the key only if the task returned |
| Scheduler.ServerCron.AnalyzeCron | corn.go:204-242 | the report and the new record are those of the evaluation specification (inert, fault that clears the key, duplicate, or run); while the task runs, its key is marked |
| Scheduler.ServerCron.OfferItem | corn.go:190-199 | an ignored key gives an ignored entry and a timed-out admission a dropped one, both leaving the record alone; otherwise the entry is inert, faulted, a duplicate or a run exactly as the verdict and the record at that moment decide, and only a fault removes the key |
| Scheduler.ServerCron.DoCronList | corn.go:179-201 | one entry per item, in order: ignored keys are skipped and timed-out admissions dropped; an admitted item is inert on no match and faulted on a fault; on a match it is a duplicate exactly when its key is running in the record as the round reaches it, and otherwise it runs. Afterwards the record has lost exactly the keys of the faulting admitted items |
| Scheduler.ServerCron.ServerGo | corn.go:304-326 | a paused scheduler does nothing; a round whose admission times out does nothing; otherwise one round over every item is dispatched, each entry as in a round, with the round's effect on the record |
| Scheduler.ListingIndexed | corn.go:102-111 | the listing has one entry per item, and entry i carries code i and item i's key and description |
| Scheduler.RegisterThenList | corn.go:157-176 | registering adds exactly one listing entry, at the end, coded with the new item's index, and leaves earlier entries unchanged |
| Scheduler.CapacityExamples | corn.go:143-151 | with three items, a request for 1 gives 6, no request gives 500, and 700 stays 700 |
| Scheduler.CronStepRecord | corn.go:204-242 | a complete scheduled evaluation leaves the record unchanged, except that a fault removes the item's key |
| Scheduler.EvaluatedEntry | corn.go:196 | an admitted evaluation in a round produces an entry that fits its verdict, and it clears only a faulting key |
| Scheduler.CronStepReports | corn.go:213-242 | an evaluation runs exactly when the item matches and its key is not running; it is a duplicate exactly when it matches and its key is running, which the sentinel never is; it is inert exactly on no match and faulted exactly on a fault |
| Scheduler.FaultReleasesForeignRun | corn.go:205-209 | a fault clears another run's marker, so a matching evaluation of the same key that would have been skipped runs instead |
| Scheduler.ManualOutOfRange | corn.go:115-124 | a code outside the registry runs nothing and leaves the record alone, and it is reported as not found exactly when it is more than one past the end |
| Scheduler.ForcedBypassesRecord | corn.go:125-128 | a forced run of a registered item always runs and never touches the record |
| Scheduler.UnforcedManualRun | corn.go:129-134 | an unforced run is skipped exactly when its key is running; otherwise the record is restored if the task returns and keeps the key if it panics |
| Scheduler.PanickedManualRunBlocksKey | corn.go:129-134 | after an unforced manual run that panics, every matching scheduled evaluation of that key is skipped as a duplicate, until a fault on an item with that key clears it |
| Scheduler.RoundStepRecord | corn.go:189-196 | going past one item of a round removes its key from the record exactly when that item is offered, admitted and faults |
| Scheduler.FaultedKeysMembers | corn.go:189-196 | a key is cleared by a round exactly when some admitted, non-ignored item with that key faults |
| Scheduler.QuietRoundKeepsRecord | corn.go:189-196 | a round in which no admitted item faults leaves the record as it was |

## Left out

- Goroutines, the admission channel and its 500 ms timeouts are not modelled as such. Each admission outcome is an input. A round evaluates its admitted items one after another, each to completion. That is one of the schedules the concurrent code allows; other interleavings, such as two evaluations of one key overlapping inside a round, are not explored.
- The mutex around the record and the `sync.Map` around the ignore set are not modelled. Each record operation is one atomic step.
- `time.Now` is a `Clock` parameter. Years outside 0..9999, which Go would print differently, are not modelled.
- Task bodies are opaque identifiers. Whether a body returned or panicked is an input.
- Logging is not modelled. This covers skip, error and not-found messages and the per-tick debug occupancy report. `StartDebug` only sets the flag.
- The one-second wait in `serverGo` and the endless `cronServer` loop are not modelled: `ServerGo` is one tick. `RunCorn` does not create the channel or start the driver.
- The recover in `doCronList` and `serverGo` is not modelled, because nothing the model lets those functions do can panic.
- GoStrings.Atoi: the contract pins the value only for unsigned digit runs. Signed input follows the body (sign applied before saturation), but the `ensures` does not restate that.
- Strings are sequences of characters, not bytes, so `GoStrings.Index` gives a character position where Go gives a byte offset. The scheduler uses only whether the result is -1 (corn.go:249, 263, 274), so the two agree wherever it matters.
- GoStrings.Atoi follows the documented contract of `strconv.Atoi`: any input that is not an optionally signed digit run reads as 0. Go's implementation differs for inputs of 19 characters or more whose digit prefix already overflows before a later non-digit (for example `"99999999999999999999x"`): it returns the saturated value, where the model returns 0.
