/**
 * The scheduler object: the ordered registry of items, the ignore set, the
 * in-flight record, the pool capacity and the running/paused status, with
 * the operations that register, list, start, pause, run by hand and
 * evaluate items.
 *
 * Goroutines, the admission channel and its timeouts are not modelled as
 * such: whether an admission attempt succeeded is an input, and a round
 * evaluates its admitted items one after the other, each to completion,
 * which is one of the schedules the concurrent dispatch allows. A task body
 * is opaque; its outcome (it returned, or it panicked) is an input too.
 */
module Scheduler {
  import opened GoStrings
  import opened Snapshot
  import opened TimeMatch
  import opened CronItems
  import opened Record

  /** The floor on the pool capacity above the registry's size. */
  const MIN_TASK_NUM: int := 3
  /** The pool capacity when the caller asks for none. */
  const DEFAULT_TASK_NUM: int := 500

  /** How a task body ended: it returned, or it panicked and the panic was recovered. */
  datatype Outcome = Returned | Panicked

  /** What one scheduled evaluation of an item did. */
  datatype CronReport =
    | Inert             // malformed specification, or some field did not match
    | Faulted           // the matcher panicked (a zero step); recovered
    | Duplicate         // matched, but the key was already running: skipped
    | Ran(outcome: Outcome)

  /** What one manual run did. */
  datatype ManualReport =
    | NotFound          // the index is past the end by more than one
    | IndexFault        // the index panicked on the registry lookup; recovered
    | Skipped           // the key was already running
    | Executed(outcome: Outcome)

  /** What a round did with one registry item. */
  datatype RoundEntry = Ignored | TimedOut | Evaluated(report: CronReport)

  /** What one tick of the driver did. */
  datatype TickReport = Paused | TickTimedOut | Dispatched(entries: seq<RoundEntry>)

  /** One line of the task listing. */
  datatype TaskEntry = TaskEntry(code: int, key: string, desc: string)

  /** A report together with the record it leaves behind. */
  datatype Effect<R> = Effect(report: R, keys: set<string>)

  /**
   * The item a registration builds. The key defaults to the sentinel; the
   * description defaults to the key; a second optional argument sets the
   * description; further arguments are ignored.
   */
  function ItemFor(task: TaskId, spec: string, argus: seq<string>): (c: CronItem)
    ensures c.task == task && c.spec == spec
    ensures |argus| == 0 ==> c.key == NONE && c.desc == NONE
    ensures |argus| >= 1 ==> c.key == argus[0]
    ensures |argus| <= 1 ==> c.desc == c.key
    ensures |argus| >= 2 ==> c.desc == argus[1]
  {
    match |argus|
    case 0 => CronItem(task, spec, NONE, NONE)
    case 1 => CronItem(task, spec, argus[0], argus[0])
    case _ => CronItem(task, spec, argus[0], argus[1])
  }

  /**
   * The pool capacity chosen at start: the requested value (or the default)
   * raised, never lowered, to the floor of MIN_TASK_NUM plus one slot per
   * registered item. It is the larger of the two.
   */
  function Capacity(taskNum: seq<int>, registered: nat): (r: int)
    ensures var requested := if |taskNum| > 0 then taskNum[0] else DEFAULT_TASK_NUM;
      && r >= MIN_TASK_NUM + registered
      && r >= requested
      && (r == requested || r == MIN_TASK_NUM + registered)
  {
    var requested := if |taskNum| > 0 then taskNum[0] else DEFAULT_TASK_NUM;
    if requested < MIN_TASK_NUM + registered then MIN_TASK_NUM + registered else requested
  }

  /** The listing built by appending one entry per item, in registry order. */
  function Listing(items: seq<CronItem>): seq<TaskEntry> {
    if items == [] then []
    else
      var last := items[|items| - 1];
      Listing(items[..|items| - 1]) + [TaskEntry(|items| - 1, last.key, last.desc)]
  }

  /**
   * The specification of one scheduled evaluation against the record `keys`.
   * A fault clears the item's key whether or not this evaluation set it; a
   * match runs the task unless its key is running, and clears the key again
   * however the task ended.
   */
  function CronStep(keys: set<string>, item: CronItem, t: string, outcome: Outcome): Effect<CronReport>
    requires |t| == 21
  {
    match ItemVerdict(item.spec, t)
    case NoMatch => Effect(Inert, keys)
    case Fault => Effect(Faulted, Removed(keys, item.key))
    case Match =>
      if InFlight(keys, item.key) then Effect(Duplicate, keys)
      else Effect(Ran(outcome), Removed(Inserted(keys, item.key), item.key))
  }

  /**
   * The specification of a manual run of registry entry `code`. Only codes
   * beyond the end by more than one are reported as not found; the end
   * itself and negative codes fail on the lookup. A forced run ignores the
   * record; an unforced one clears its key only if the task returned.
   */
  function ManualStep(items: seq<CronItem>, keys: set<string>, code: int, isForce: bool,
                      outcome: Outcome): Effect<ManualReport>
  {
    if |items| < code then Effect(NotFound, keys)
    else if code < 0 || code == |items| then Effect(IndexFault, keys)
    else if isForce then Effect(Executed(outcome), keys)
    else
      var key := items[code].key;
      if InFlight(keys, key) then Effect(Skipped, keys)
      else if outcome == Returned then Effect(Executed(outcome), Removed(Inserted(keys, key), key))
      else Effect(Executed(outcome), Inserted(keys, key))
  }

  /** The verdict of every registry item against one snapshot, in registry order. */
  function RoundVerdicts(items: seq<CronItem>, t: string): (vs: seq<Verdict>)
    requires |t| == 21
    ensures |vs| == |items|
  {
    if items == [] then []
    else RoundVerdicts(items[..|items| - 1], t) + [ItemVerdict(items[|items| - 1].spec, t)]
  }

  lemma {:induction false} RoundVerdictsAt(items: seq<CronItem>, t: string, i: int)
    requires |t| == 21 && 0 <= i < |items|
    ensures RoundVerdicts(items, t)[i] == ItemVerdict(items[i].spec, t)
  {
    if i < |items| - 1 {
      var init := items[..|items| - 1];
      RoundVerdictsAt(init, t, i);
      assert init[i] == items[i];
    }
  }

  /** Whether a round offers item `i` for admission and, once admitted, its evaluation faults. */
  predicate FaultsInRound(items: seq<CronItem>, ignore: set<string>, admitted: seq<bool>, verdicts: seq<Verdict>, i: int)
    requires |admitted| == |items| && |verdicts| == |items|
  {
    && 0 <= i < |items|
    && items[i].key !in ignore
    && admitted[i]
    && verdicts[i] == Fault
  }

  /** The keys of the first `n` items whose evaluation in a round faults. */
  function FaultedKeys(items: seq<CronItem>, ignore: set<string>, admitted: seq<bool>, verdicts: seq<Verdict>, n: nat): set<string>
    requires |admitted| == |items| && |verdicts| == |items| && n <= |items|
  {
    if n == 0 then {}
    else
      FaultedKeys(items, ignore, admitted, verdicts, n - 1)
        + (if FaultsInRound(items, ignore, admitted, verdicts, n - 1) then {items[n - 1].key} else {})
  }

  /** The record as a round reaches item `i`: the starting record less the keys cleared so far. */
  function HeldBefore(start: set<string>, items: seq<CronItem>, ignore: set<string>, admitted: seq<bool>,
                      verdicts: seq<Verdict>, i: nat): set<string>
    requires |admitted| == |items| && |verdicts| == |items| && i <= |items|
  {
    start - FaultedKeys(items, ignore, admitted, verdicts, i)
  }

  /**
   * What a round's entry for one item must be, given that item's verdict and
   * the record `held` as the round reaches it.
   */
  predicate EntryFits(e: RoundEntry, item: CronItem, ignore: set<string>, admitted: bool,
                      outcome: Outcome, v: Verdict, held: set<string>)
  {
    if item.key in ignore then e == Ignored
    else if !admitted then e == TimedOut
    else
      && e.Evaluated?
      && (e.report == Inert <==> v == NoMatch)
      && (e.report == Faulted <==> v == Fault)
      && (v == Match && InFlight(held, item.key) ==> e.report == Duplicate)
      && (v == Match && !InFlight(held, item.key) ==> e.report == Ran(outcome))
  }

  class ServerCron {
    var cronList: seq<CronItem>
    var debug: bool
    var ignore: set<string>
    const record: ItemRecord
    var maxTasks: int
    var status: bool

    ghost predicate Valid()
      reads this, record
    {
      record.Valid()
    }

    /** A fresh scheduler: empty registry and record, running, not debugging. */
    constructor ()
      ensures Valid() && fresh(record)
      ensures cronList == [] && record.keys == {} && ignore == {}
      ensures status && !debug && maxTasks == 0
    {
      cronList := [];
      debug := false;
      ignore := {};
      record := new ItemRecord();
      maxTasks := 0;
      status := true;
    }

    /** Resumes dispatch. */
    method Start()
      modifies this`status
      ensures status
    {
      status := true;
    }

    /** Pauses dispatch of new rounds; evaluations already under way are unaffected. */
    method Stop()
      modifies this`status
      ensures !status
    {
      status := false;
    }

    /** Turns on the per-tick occupancy report. */
    method StartDebug()
      modifies this`debug
      ensures debug
    {
      debug := true;
    }

    /** Excludes a key from scheduled rounds (not from manual runs). */
    method AddIgnore(key: string)
      modifies this`ignore
      ensures ignore == old(ignore) + {key}
    {
      ignore := ignore + {key};
    }

    method DelIgnore(key: string)
      modifies this`ignore
      ensures ignore == old(ignore) - {key}
    {
      ignore := ignore - {key};
    }

    /** Registers an item at the end of the registry. */
    method AddCorn(task: TaskId, timeStr: string, argus: seq<string>)
      modifies this`cronList
      ensures cronList == old(cronList) + [ItemFor(task, timeStr, argus)]
    {
      var key, desc := NONE, NONE;
      if |argus| > 0 {
        key := argus[0];
        desc := key;
      }
      if |argus| > 1 {
        desc := argus[1];
      }
      cronList := cronList + [CronItem(task, timeStr, key, desc)];
    }

    /** The listing of the registry: one entry per item, in order, coded by its index. */
    method GetTaskList() returns (data: seq<TaskEntry>)
      ensures data == Listing(cronList)
      ensures |data| == |cronList|
      ensures forall i :: 0 <= i < |data| ==> data[i] == TaskEntry(i, cronList[i].key, cronList[i].desc)
    {
      data := [];
      for k := 0 to |cronList|
        invariant data == Listing(cronList[..k])
      {
        assert cronList[..k + 1][..k] == cronList[..k];
        data := data + [TaskEntry(k, cronList[k].key, cronList[k].desc)];
      }
      assert cronList[..|cronList|] == cronList;
      ListingIndexed(cronList);
    }

    /** Fixes the pool capacity; the driver and the pool itself are not modelled. */
    method RunCorn(taskNum: seq<int>)
      modifies this`maxTasks
      ensures maxTasks == Capacity(taskNum, |cronList|)
      ensures maxTasks >= MIN_TASK_NUM + |cronList|
    {
      maxTasks := DEFAULT_TASK_NUM;
      if |taskNum| > 0 {
        maxTasks := taskNum[0];
      }
      if maxTasks < MIN_TASK_NUM + |cronList| {
        maxTasks := MIN_TASK_NUM + |cronList|;
      }
    }

    /**
     * A manual run of registry entry `code`. The recover at its top catches
     * both a failed lookup and a panicking task; neither clears the key.
     */
    method DoTask(code: int, isForce: bool, outcome: Outcome) returns (report: ManualReport)
      requires Valid()
      modifies record
      ensures Valid()
      ensures Effect(report, record.keys) == ManualStep(cronList, old(record.keys), code, isForce, outcome)
    {
      if |cronList| < code {
        return NotFound;
      }
      if code < 0 || code >= |cronList| {
        return IndexFault;
      }
      var c := cronList[code];
      if isForce {
        return Executed(outcome);
      }
      var has := record.Add(c.key);
      if has {
        return Skipped;
      }
      if outcome == Returned {
        record.Del(c.key);
      }
      return Executed(outcome);
    }

    /**
     * One scheduled evaluation of `item` against the round's snapshot `t`.
     * A fault anywhere (the matcher's, or a panicking task) reaches the
     * recover, which clears the item's key. `running` is the record while
     * the task body executes.
     */
    method AnalyzeCron(item: CronItem, t: string, outcome: Outcome) returns (report: CronReport, ghost running: set<string>)
      requires Valid() && |t| == 21
      modifies record
      ensures Valid()
      ensures Effect(report, record.keys) == CronStep(old(record.keys), item, t, outcome)
      ensures report.Ran? ==> running == Inserted(old(record.keys), item.key)
    {
      running := record.keys;
      var cs := Split(item.spec, ' ');
      if |cs| != 6 {
        return Inert, running;
      }
      var v := AnalyzeTime(cs[2], t[11..13]);
      if v == Match {
        v := AnalyzeTime(cs[1], t[14..16]);
      }
      if v == Match {
        v := AnalyzeTime(cs[0], t[17..19]);
      }
      if v == Match {
        v := AnalyzeTime(cs[3], t[8..10]);
      }
      if v == Match {
        v := AnalyzeTime(cs[5], t[5..7]);
      }
      if v == Match {
        v := AnalyzeTime(cs[4], t[20..21]);
      }
      assert v == ItemVerdict(item.spec, t) by {
        ItemVerdictUnfolded(cs, t);
      }
      if v == Fault {
        record.Del(item.key);
        return Faulted, running;
      }
      if v == NoMatch {
        return Inert, running;
      }
      var has := record.Add(item.key);
      if has {
        return Duplicate, running;
      }
      running := record.keys;
      record.Del(item.key);
      return Ran(outcome), running;
    }

    /**
     * What a round does with one registry item: nothing if its key is
     * ignored, nothing if its admission timed out, and otherwise one
     * evaluation against the round's snapshot. `v` is the item's verdict.
     */
    method OfferItem(item: CronItem, t: string, admitted: bool, outcome: Outcome, ghost v: Verdict)
      returns (e: RoundEntry)
      requires Valid() && |t| == 21 && v == ItemVerdict(item.spec, t)
      modifies record
      ensures Valid()
      ensures EntryFits(e, item, ignore, admitted, outcome, v, old(record.keys))
      ensures record.keys ==
        old(record.keys) - (if item.key !in ignore && admitted && v == Fault then {item.key} else {})
    {
      if item.key in ignore {
        return Ignored;
      }
      if !admitted {
        return TimedOut;
      }
      ghost var held := record.keys;
      var report;
      ghost var running;
      report, running := AnalyzeCron(item, t, outcome);
      EvaluatedEntry(held, item, t, outcome, ignore, v);
      return Evaluated(report);
    }

    /**
     * One round: the snapshot is taken once, and each registry item, in
     * order, is skipped if its key is ignored, dropped if its admission
     * timed out, and otherwise evaluated.
     */
    method DoCronList(now: Clock, admitted: seq<bool>, outcomes: seq<Outcome>) returns (entries: seq<RoundEntry>)
      requires Valid() && ValidClock(now)
      requires |admitted| == |cronList| && |outcomes| == |cronList|
      modifies record
      ensures Valid()
      ensures |entries| == |cronList|
      ensures var vs := RoundVerdicts(cronList, Format(now));
        forall i :: 0 <= i < |cronList| ==>
          EntryFits(entries[i], cronList[i], ignore, admitted[i], outcomes[i], vs[i],
                    HeldBefore(old(record.keys), cronList, ignore, admitted, vs, i))
      ensures record.keys == old(record.keys) - FaultedKeys(cronList, ignore, admitted, RoundVerdicts(cronList, Format(now)), |cronList|)
    {
      var t := Format(now);
      ghost var vs := RoundVerdicts(cronList, t);
      ghost var start := record.keys;
      entries := [];
      for i := 0 to |cronList|
        invariant Valid()
        invariant |entries| == i
        invariant forall j :: 0 <= j < i ==>
          EntryFits(entries[j], cronList[j], ignore, admitted[j], outcomes[j], vs[j],
                    HeldBefore(start, cronList, ignore, admitted, vs, j))
        invariant record.keys == HeldBefore(start, cronList, ignore, admitted, vs, i)
      {
        RoundVerdictsAt(cronList, t, i);
        var e := OfferItem(cronList[i], t, admitted[i], outcomes[i], vs[i]);
        RoundStepRecord(start, cronList, ignore, admitted, vs, i);
        EntriesExtend(entries, e, start, cronList, ignore, admitted, outcomes, vs);
        entries := entries + [e];
      }
    }

    /**
     * One tick of the driver: nothing while paused; otherwise a round if the
     * round itself is admitted, and a skipped tick if its admission timed out.
     */
    method ServerGo(now: Clock, roundAdmitted: bool, admitted: seq<bool>, outcomes: seq<Outcome>) returns (tick: TickReport)
      requires Valid() && ValidClock(now)
      requires |admitted| == |cronList| && |outcomes| == |cronList|
      modifies record
      ensures Valid()
      ensures !status ==> tick == Paused && record.keys == old(record.keys)
      ensures status && !roundAdmitted ==> tick == TickTimedOut && record.keys == old(record.keys)
      ensures status && roundAdmitted ==>
        && tick.Dispatched? && |tick.entries| == |cronList|
        && (var vs := RoundVerdicts(cronList, Format(now));
            forall i :: 0 <= i < |cronList| ==>
              EntryFits(tick.entries[i], cronList[i], ignore, admitted[i], outcomes[i], vs[i],
                        HeldBefore(old(record.keys), cronList, ignore, admitted, vs, i)))
        && record.keys == old(record.keys) - FaultedKeys(cronList, ignore, admitted, RoundVerdicts(cronList, Format(now)), |cronList|)
    {
      if !status {
        return Paused;
      }
      if !roundAdmitted {
        return TickTimedOut;
      }
      var entries := DoCronList(now, admitted, outcomes);
      return Dispatched(entries);
    }
  }

  /** The six checks, written out in the order the evaluator makes them. */
  lemma ItemVerdictUnfolded(cs: seq<string>, t: string)
    requires |cs| == 6 && |t| == 21
    ensures var v0 := FieldVerdict(cs[2], t[11..13]);
      var v1 := if v0 == Match then FieldVerdict(cs[1], t[14..16]) else v0;
      var v2 := if v1 == Match then FieldVerdict(cs[0], t[17..19]) else v1;
      var v3 := if v2 == Match then FieldVerdict(cs[3], t[8..10]) else v2;
      var v4 := if v3 == Match then FieldVerdict(cs[5], t[5..7]) else v3;
      var v5 := if v4 == Match then FieldVerdict(cs[4], t[20..21]) else v4;
      v5 == FirstMiss(cs, t, CHECK_ORDER)
  {
    var o := CHECK_ORDER;
    assert o[5..] == [Weekday] && o[4..] == [Month, Weekday] && o[3..] == [Day, Month, Weekday];
    assert o[2..] == [Second, Day, Month, Weekday] && o[1..] == [Minute, Second, Day, Month, Weekday];
    assert o[5..][1..] == [];
    assert FirstMiss(cs, t, o[5..][1..]) == Match;
    assert Slice(t, Weekday) == t[20..21] && TokenIndex(Weekday) == 4;
    var m5 := FirstMiss(cs, t, o[5..]);
    assert m5 == FieldVerdict(cs[4], t[20..21]);
    var m4 := FirstMiss(cs, t, o[4..]);
    assert o[4..][1..] == o[5..];
    assert m4 == if FieldVerdict(cs[5], t[5..7]) == Match then m5 else FieldVerdict(cs[5], t[5..7]);
    var m3 := FirstMiss(cs, t, o[3..]);
    assert o[3..][1..] == o[4..];
    assert m3 == if FieldVerdict(cs[3], t[8..10]) == Match then m4 else FieldVerdict(cs[3], t[8..10]);
    var m2 := FirstMiss(cs, t, o[2..]);
    assert o[2..][1..] == o[3..];
    assert m2 == if FieldVerdict(cs[0], t[17..19]) == Match then m3 else FieldVerdict(cs[0], t[17..19]);
    var m1 := FirstMiss(cs, t, o[1..]);
    assert o[1..][1..] == o[2..];
    assert m1 == if FieldVerdict(cs[1], t[14..16]) == Match then m2 else FieldVerdict(cs[1], t[14..16]);
    assert FirstMiss(cs, t, o) == if FieldVerdict(cs[2], t[11..13]) == Match then m1 else FieldVerdict(cs[2], t[11..13]);
  }

  /** The listing has one entry per item, in order, whose code is the item's index. */
  lemma {:induction false} ListingIndexed(items: seq<CronItem>)
    ensures |Listing(items)| == |items|
    ensures forall i :: 0 <= i < |items| ==>
      Listing(items)[i] == TaskEntry(i, items[i].key, items[i].desc)
  {
    if items != [] {
      var init := items[..|items| - 1];
      ListingIndexed(init);
      assert forall i :: 0 <= i < |init| ==> init[i] == items[i];
    }
  }

  /**
   * Registering an item adds exactly one listing entry, at the end, coded
   * with the item's index; the entries before it are unchanged.
   */
  lemma RegisterThenList(items: seq<CronItem>, task: TaskId, spec: string, argus: seq<string>)
    ensures var c := ItemFor(task, spec, argus);
      Listing(items + [c]) == Listing(items) + [TaskEntry(|items|, c.key, c.desc)]
  {
    var c := ItemFor(task, spec, argus);
    assert (items + [c])[..|items|] == items;
  }

  /** Three registered items and a request for 1 slot give a capacity of 6; no request gives 500. */
  lemma CapacityExamples()
    ensures Capacity([1], 3) == 6
    ensures Capacity([], 3) == DEFAULT_TASK_NUM
    ensures Capacity([700], 3) == 700
  {
  }

  /**
   * A complete scheduled evaluation leaves the record as it found it, except
   * that a fault removes the item's key.
   */
  lemma CronStepRecord(keys: set<string>, item: CronItem, t: string, outcome: Outcome)
    requires |t| == 21 && NONE !in keys
    ensures CronStep(keys, item, t, outcome).keys ==
      if ItemVerdict(item.spec, t) == Fault then keys - {item.key} else keys
  {
    if ItemVerdict(item.spec, t) == Match && !InFlight(keys, item.key) {
      AddThenDel(keys, item.key);
    }
  }

  /** Going past item `i` of a round clears its key exactly when it is offered, admitted and faults. */
  lemma RoundStepRecord(start: set<string>, items: seq<CronItem>, ignore: set<string>, admitted: seq<bool>,
                        vs: seq<Verdict>, i: nat)
    requires |admitted| == |items| && |vs| == |items| && i < |items|
    ensures HeldBefore(start, items, ignore, admitted, vs, i + 1) ==
      HeldBefore(start, items, ignore, admitted, vs, i)
        - (if FaultsInRound(items, ignore, admitted, vs, i) then {items[i].key} else {})
  {
  }

  /** Appending the entry for the next item keeps every entry of a round fitting its item. */
  lemma EntriesExtend(entries: seq<RoundEntry>, e: RoundEntry, start: set<string>, items: seq<CronItem>,
                      ignore: set<string>, admitted: seq<bool>, outcomes: seq<Outcome>, vs: seq<Verdict>)
    requires |entries| < |items| == |admitted| == |outcomes| == |vs|
    requires forall j :: 0 <= j < |entries| ==>
      EntryFits(entries[j], items[j], ignore, admitted[j], outcomes[j], vs[j], HeldBefore(start, items, ignore, admitted, vs, j))
    requires var i := |entries|;
      EntryFits(e, items[i], ignore, admitted[i], outcomes[i], vs[i], HeldBefore(start, items, ignore, admitted, vs, i))
    ensures forall j :: 0 <= j < |entries| + 1 ==>
      EntryFits((entries + [e])[j], items[j], ignore, admitted[j], outcomes[j], vs[j], HeldBefore(start, items, ignore, admitted, vs, j))
  {
  }

  /** An evaluation inside a round produces a fitting entry and clears only a faulting key. */
  lemma EvaluatedEntry(keys: set<string>, item: CronItem, t: string, outcome: Outcome,
                       ignore: set<string>, v: Verdict)
    requires |t| == 21 && NONE !in keys
    requires item.key !in ignore && v == ItemVerdict(item.spec, t)
    ensures var s := CronStep(keys, item, t, outcome);
      && EntryFits(Evaluated(s.report), item, ignore, true, outcome, v, keys)
      && s.keys == keys - (if v == Fault then {item.key} else {})
  {
    CronStepRecord(keys, item, t, outcome);
    CronStepReports(keys, item, t, outcome);
  }

  /**
   * A scheduled evaluation runs the task iff the item matches and its key is
   * not running; it is skipped as a duplicate iff it matches and its key is
   * running, which never happens to the sentinel key.
   */
  lemma CronStepReports(keys: set<string>, item: CronItem, t: string, outcome: Outcome)
    requires |t| == 21
    ensures var r := CronStep(keys, item, t, outcome).report;
      && (r.Ran? <==> ItemVerdict(item.spec, t) == Match && !InFlight(keys, item.key))
      && (r.Ran? ==> r.outcome == outcome)
      && (r == Duplicate <==> ItemVerdict(item.spec, t) == Match && InFlight(keys, item.key))
      && (r == Inert <==> ItemVerdict(item.spec, t) == NoMatch)
      && (r == Faulted <==> ItemVerdict(item.spec, t) == Fault)
      && (item.key == NONE ==> r != Duplicate)
  {
  }

  /**
   * The fault path clears a key even when the faulting evaluation never set
   * it: if another run of the same key is in flight, a matching evaluation
   * that follows the fault runs instead of being skipped.
   */
  lemma FaultReleasesForeignRun(keys: set<string>, faulty: CronItem, other: CronItem,
                                t: string, t': string, o: Outcome, o': Outcome)
    requires |t| == 21 && |t'| == 21
    requires InFlight(keys, faulty.key) && other.key == faulty.key
    requires ItemVerdict(faulty.spec, t) == Fault && ItemVerdict(other.spec, t') == Match
    ensures CronStep(keys, other, t', o').report == Duplicate
    ensures CronStep(CronStep(keys, faulty, t, o).keys, other, t', o').report == Ran(o')
  {
  }

  /**
   * A manual run with a code outside the registry runs nothing and leaves
   * the record alone; only codes more than one past the end are reported
   * as not found.
   */
  lemma ManualOutOfRange(items: seq<CronItem>, keys: set<string>, code: int, isForce: bool, o: Outcome)
    requires code < 0 || code >= |items|
    ensures var s := ManualStep(items, keys, code, isForce, o);
      && !s.report.Executed? && s.keys == keys
      && (s.report == NotFound <==> code > |items|)
  {
  }

  /** A forced manual run of a registered item always runs and never touches the record. */
  lemma ForcedBypassesRecord(items: seq<CronItem>, keys: set<string>, code: int, o: Outcome)
    requires 0 <= code < |items|
    ensures ManualStep(items, keys, code, true, o) == Effect(Executed(o), keys)
  {
  }

  /**
   * An unforced manual run is skipped iff its key is running; if it runs and
   * returns, the record is restored, and if it panics, its key stays marked
   * as running.
   */
  lemma UnforcedManualRun(items: seq<CronItem>, keys: set<string>, code: int, o: Outcome)
    requires 0 <= code < |items| && NONE !in keys
    ensures var key := items[code].key;
      var s := ManualStep(items, keys, code, false, o);
      && (s.report == Skipped <==> InFlight(keys, key))
      && (!InFlight(keys, key) && o == Returned ==> s.keys == keys)
      && (!InFlight(keys, key) && o == Panicked ==> s.keys == Inserted(keys, key))
  {
    var key := items[code].key;
    if !InFlight(keys, key) {
      AddThenDel(keys, key);
    }
  }

  /**
   * After an unforced manual run whose task panics, every later matching
   * scheduled evaluation of an item with that key is skipped as a duplicate,
   * because nothing but a fault clears the key again.
   */
  lemma PanickedManualRunBlocksKey(items: seq<CronItem>, keys: set<string>, code: int,
                                   item: CronItem, t: string, o: Outcome)
    requires 0 <= code < |items| && |t| == 21
    requires items[code].key != NONE && !InFlight(keys, items[code].key)
    requires item.key == items[code].key && ItemVerdict(item.spec, t) == Match
    ensures var after := ManualStep(items, keys, code, false, Panicked).keys;
      CronStep(after, item, t, o) == Effect(Duplicate, after)
  {
  }

  /** The keys a round clears are exactly those of its admitted, non-ignored items that fault. */
  lemma {:induction false} FaultedKeysMembers(items: seq<CronItem>, ignore: set<string>, admitted: seq<bool>,
                                              verdicts: seq<Verdict>, n: nat, k: string)
    requires |admitted| == |items| && |verdicts| == |items| && n <= |items|
    ensures k in FaultedKeys(items, ignore, admitted, verdicts, n) <==>
      exists i :: 0 <= i < n && FaultsInRound(items, ignore, admitted, verdicts, i) && items[i].key == k
  {
    if n > 0 {
      FaultedKeysMembers(items, ignore, admitted, verdicts, n - 1, k);
    }
  }

  /** A round in which no admitted item faults leaves the record exactly as it was. */
  lemma QuietRoundKeepsRecord(items: seq<CronItem>, ignore: set<string>, admitted: seq<bool>, verdicts: seq<Verdict>)
    requires |admitted| == |items| && |verdicts| == |items|
    requires forall i :: 0 <= i < |items| ==> !FaultsInRound(items, ignore, admitted, verdicts, i)
    ensures FaultedKeys(items, ignore, admitted, verdicts, |items|) == {}
  {
    forall k | k in FaultedKeys(items, ignore, admitted, verdicts, |items|) ensures false {
      FaultedKeysMembers(items, ignore, admitted, verdicts, |items|, k);
    }
  }
}
