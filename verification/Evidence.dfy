/** What the completion evidence ledger must know about a whole log of settled tool calls. */
module Evidence {
  import opened Base

  datatype ToolOutcome = Succeeded | TimedOut | Rejected

  /** A settled call. `starts` is the background task its output announces as running, and
      `settles` the tasks its output or arguments report as over. */
  datatype Settlement = Settlement(
    tool: Text, outcome: ToolOutcome, starts: Option<Text>, settles: set<Text>)

  datatype Fact = Fact(tool: Text, outcome: ToolOutcome)

  const RECENT_TOOL_FACTS: nat := 6

  predicate IsEdit(s: Settlement) {
    s.outcome.Succeeded? && (s.tool == Ascii("write") || s.tool == Ascii("search_replace"))
  }

  predicate Failure(s: Settlement) { !s.outcome.Succeeded? }

  predicate SameFailure(a: Settlement, b: Settlement) {
    Failure(a) && Failure(b) && a.tool == b.tool && a.outcome == b.outcome
  }

  function CountOutcome(log: seq<Settlement>, outcome: ToolOutcome): nat {
    if log == [] then 0
    else CountOutcome(Front(log), outcome) + if Last(log).outcome == outcome then 1 else 0
  }

  // ---------- failure runs ----------

  /** Calls `i..j` are consecutive failures of one tool with one outcome. */
  ghost predicate FailureRun(log: seq<Settlement>, i: nat, j: nat) {
    i < j <= |log| && forall k :: i <= k < j ==> SameFailure(log[i], log[k])
  }

  /** The length of the failure run the log ends with. */
  function TrailingRun(log: seq<Settlement>): (n: nat)
    ensures n <= |log|
  {
    if log == [] || !Failure(Last(log)) then 0
    else if Front(log) != [] && SameFailure(Last(Front(log)), Last(log))
    then TrailingRun(Front(log)) + 1
    else 1
  }

  function LongestRun(log: seq<Settlement>): nat {
    if log == [] then 0 else Max(LongestRun(Front(log)), TrailingRun(log))
  }

  lemma {:induction false} TrailingRunIsRun(log: seq<Settlement>)
    ensures TrailingRun(log) > 0 ==> FailureRun(log, |log| - TrailingRun(log), |log|)
  {
    if log != [] && Failure(Last(log)) && Front(log) != []
       && SameFailure(Last(Front(log)), Last(log))
    {
      TrailingRunIsRun(Front(log));
    }
  }

  lemma {:induction false} TrailingRunIsLongest(log: seq<Settlement>, i: nat)
    requires FailureRun(log, i, |log|)
    ensures |log| - i <= TrailingRun(log)
  {
    assert SameFailure(log[i], Last(log));
    if i < |log| - 1 {
      assert SameFailure(log[i], log[|log| - 2]);
      TrailingRunIsLongest(Front(log), i);
    }
  }

  /** The longest run is a run of the log, and no run is longer. */
  lemma {:induction false} LongestRunMeaning(log: seq<Settlement>)
    ensures LongestRun(log) > 0 ==>
              exists i: nat, j: nat :: FailureRun(log, i, j) && j - i == LongestRun(log)
    ensures forall i: nat, j: nat :: FailureRun(log, i, j) ==> j - i <= LongestRun(log)
  {
    if log != [] {
      LongestRunMeaning(Front(log));
      TrailingRunIsRun(log);
      if LongestRun(log) > 0 {
        if LongestRun(log) == TrailingRun(log) {
          assert FailureRun(log, |log| - TrailingRun(log), |log|);
        } else {
          var i: nat, j: nat :| FailureRun(Front(log), i, j) && j - i == LongestRun(Front(log));
          assert FailureRun(log, i, j);
        }
      }
      forall i: nat, j: nat | FailureRun(log, i, j) ensures j - i <= LongestRun(log) {
        if j == |log| {
          TrailingRunIsLongest(log, i);
        } else {
          assert FailureRun(Front(log), i, j);
        }
      }
    }
  }

  // ---------- calls since the last edit ----------

  function CallsSinceEdit(log: seq<Settlement>): Option<nat> {
    if log == [] then None
    else if IsEdit(Last(log)) then Some(0)
    else match CallsSinceEdit(Front(log))
      case None => None
      case Some(n) => Some(n + 1)
  }

  /** The count is absent exactly when no edit succeeded, and otherwise the last successful
      edit lies exactly that many calls before the end. */
  lemma {:induction false} CallsSinceEditMeaning(log: seq<Settlement>)
    ensures CallsSinceEdit(log).None? <==> forall i :: 0 <= i < |log| ==> !IsEdit(log[i])
    ensures CallsSinceEdit(log).Some? ==>
              var n := CallsSinceEdit(log).value;
              && n < |log|
              && IsEdit(log[|log| - 1 - n])
              && forall i :: |log| - n <= i < |log| ==> !IsEdit(log[i])
  {
    if log != [] {
      var front := Front(log);
      CallsSinceEditMeaning(front);
      assert forall i :: 0 <= i < |front| ==> front[i] == log[i];
      assert IsEdit(Last(log)) <==> IsEdit(log[|log| - 1]);
      if !IsEdit(Last(log)) && CallsSinceEdit(front).Some? {
        var n := CallsSinceEdit(front).value;
        assert front[|front| - 1 - n] == log[|log| - 1 - (n + 1)];
      }
    }
  }

  // ---------- background tasks ----------

  function Unresolved(log: seq<Settlement>): set<Text> {
    if log == [] then {}
    else
      var s := Last(log);
      Unresolved(Front(log)) + (match s.starts case None => {} case Some(id) => {id}) - s.settles
  }

  /** A task is unresolved exactly when some call announced it and neither that call nor a
      later one settled it. */
  lemma {:induction false} UnresolvedMeaning(log: seq<Settlement>, id: Text)
    ensures id in Unresolved(log) <==>
              exists i :: 0 <= i < |log| && StaysOpen(log, i, id)
  {
    if log != [] {
      var front, s := Front(log), Last(log);
      UnresolvedMeaning(front, id);
      assert log[|log| - 1] == s;
      if id in Unresolved(log) {
        if s.starts == Some(id) {
          assert StaysOpen(log, |log| - 1, id);
        } else {
          var i :| 0 <= i < |front| && StaysOpen(front, i, id);
          assert StaysOpen(log, i, id);
        }
      }
      if i :| 0 <= i < |log| && StaysOpen(log, i, id) {
        StaysOpenUnresolved(log, i, id);
      }
    }
  }

  ghost predicate StaysOpen(log: seq<Settlement>, i: nat, id: Text)
    requires i < |log|
  {
    log[i].starts == Some(id) && forall j :: i <= j < |log| ==> id !in log[j].settles
  }

  lemma {:induction false} StaysOpenUnresolved(log: seq<Settlement>, i: nat, id: Text)
    requires i < |log| && StaysOpen(log, i, id)
    ensures id in Unresolved(log)
  {
    assert id !in log[|log| - 1].settles;
    if i < |log| - 1 {
      assert StaysOpen(Front(log), i, id);
      StaysOpenUnresolved(Front(log), i, id);
    }
  }

  // ---------- recent facts ----------

  function FactOf(s: Settlement): Fact { Fact(s.tool, s.outcome) }

  /** The facts of the last `min(6, n)` calls, oldest first. */
  function Recent(log: seq<Settlement>): seq<Fact> {
    var n := Min(RECENT_TOOL_FACTS, |log|);
    seq(n, k requires 0 <= k < n => FactOf(log[|log| - n + k]))
  }

  lemma {:induction false} RecentSnoc(log: seq<Settlement>, s: Settlement)
    ensures var pushed := Recent(log) + [FactOf(s)];
            Recent(log + [s])
              == if |pushed| > RECENT_TOOL_FACTS then pushed[1..] else pushed
  {
    assert forall i :: 0 <= i < |log| ==> (log + [s])[i] == log[i];
  }

  // ---------- the ledger's fields ----------

  datatype Fields = Fields(
    toolCalls: u64, timedOut: u64, rejected: u64, sinceEdit: Option<u64>,
    failing: Option<Fact>, streak: u64, longest: u64, unresolved: set<Text>, recent: seq<Fact>)

  function ClampOption(n: Option<nat>): Option<u64> {
    match n case None => None case Some(k) => Some(Clamp(k))
  }

  /** Every field is its whole-log meaning, cut off at 2^64 - 1. */
  function Meaning(log: seq<Settlement>): Fields {
    Fields(
      Clamp(|log|), Clamp(CountOutcome(log, TimedOut)), Clamp(CountOutcome(log, Rejected)),
      ClampOption(CallsSinceEdit(log)),
      if log != [] && Failure(Last(log)) then Some(FactOf(Last(log))) else None,
      Clamp(TrailingRun(log)), Clamp(LongestRun(log)), Unresolved(log), Recent(log))
  }

  function CountStep(f: Fields, s: Settlement): Fields {
    f.(toolCalls := SatAdd(f.toolCalls, 1),
       timedOut := if s.outcome.TimedOut? then SatAdd(f.timedOut, 1) else f.timedOut,
       rejected := if s.outcome.Rejected? then SatAdd(f.rejected, 1) else f.rejected,
       sinceEdit :=
         if IsEdit(s) then Some(0)
         else if f.sinceEdit.Some? then Some(SatAdd(f.sinceEdit.value, 1)) else None)
  }

  function StreakStep(f: Fields, s: Settlement): Fields {
    if s.outcome.Succeeded? then f.(failing := None, streak := 0)
    else
      var streak := if f.failing == Some(FactOf(s)) then SatAdd(f.streak, 1) else 1;
      f.(failing := Some(FactOf(s)), streak := streak, longest := Max(f.longest, streak))
  }

  function TailStep(f: Fields, s: Settlement): Fields {
    var recent := f.recent + [FactOf(s)];
    f.(unresolved :=
         f.unresolved + (match s.starts case None => {} case Some(id) => {id}) - s.settles,
       recent := if |recent| > RECENT_TOOL_FACTS then recent[1..] else recent)
  }

  lemma {:induction false} CountsGrow(log: seq<Settlement>, s: Settlement)
    ensures var f, g := CountStep(Meaning(log), s), Meaning(log + [s]);
            g.toolCalls == f.toolCalls && g.timedOut == f.timedOut
            && g.rejected == f.rejected && g.sinceEdit == f.sinceEdit
  {
    SnocParts(log, s);
  }

  lemma {:induction false} StreakGrows(log: seq<Settlement>, s: Settlement)
    ensures var f, g := StreakStep(Meaning(log), s), Meaning(log + [s]);
            g.failing == f.failing && g.streak == f.streak && g.longest == f.longest
  {
    SnocParts(log, s);
    LongestCoversTrailing(log);
  }

  lemma {:induction false} LongestCoversTrailing(log: seq<Settlement>)
    ensures TrailingRun(log) <= LongestRun(log)
  {
  }

  lemma {:induction false} TailGrows(log: seq<Settlement>, s: Settlement)
    ensures var f, g := TailStep(Meaning(log), s), Meaning(log + [s]);
            g.unresolved == f.unresolved && g.recent == f.recent
  {
    SnocParts(log, s);
    RecentSnoc(log, s);
  }

  /** One streamed observation moves every field to the meaning of the longer log. */
  lemma {:induction false} MeaningGrows(log: seq<Settlement>, s: Settlement)
    ensures Meaning(log + [s]) == TailStep(StreakStep(CountStep(Meaning(log), s), s), s)
  {
    CountsGrow(log, s);
    StreakGrows(log, s);
    TailGrows(log, s);
  }
}

/** The ledger object. */
module EvidenceObject {
  import opened Base
  import opened Evidence

  class CompletionEvidenceLedger {
    var toolCalls: u64
    var timedOut: u64
    var rejected: u64
    var callsAfterExplicitEdit: Option<u64>
    var consecutiveFailure: Option<Fact>
    var consecutiveFailureCount: u64
    var maxConsecutiveFailureCount: u64
    var unresolvedBackgroundTasks: set<Text>
    var recent: seq<Fact>
    ghost var log: seq<Settlement>

    function State(): Fields
      reads this
    {
      Fields(toolCalls, timedOut, rejected, callsAfterExplicitEdit, consecutiveFailure,
             consecutiveFailureCount, maxConsecutiveFailureCount, unresolvedBackgroundTasks,
             recent)
    }

    ghost predicate Valid()
      reads this
    {
      State() == Meaning(log)
    }

    constructor ()
      ensures Valid() && log == []
    {
      toolCalls, timedOut, rejected := 0, 0, 0;
      callsAfterExplicitEdit, consecutiveFailure := None, None;
      consecutiveFailureCount, maxConsecutiveFailureCount := 0, 0;
      unresolvedBackgroundTasks, recent, log := {}, [], [];
    }

    /** `observe`: the counters, the failure streak, then the tasks and recent facts. */
    method Observe(s: Settlement)
      requires Valid()
      modifies this
      ensures Valid() && log == old(log) + [s]
    {
      ObserveCounts(s);
      ObserveStreak(s);
      ObserveTail(s);
      MeaningGrows(log, s);
      log := log + [s];
    }

    method ObserveCounts(s: Settlement)
      modifies this
      ensures State() == CountStep(old(State()), s) && log == old(log)
    {
      toolCalls := SatAdd(toolCalls, 1);
      match s.outcome {
        case TimedOut => timedOut := SatAdd(timedOut, 1);
        case Rejected => rejected := SatAdd(rejected, 1);
        case Succeeded =>
      }
      if IsEdit(s) {
        callsAfterExplicitEdit := Some(0);
      } else if callsAfterExplicitEdit.Some? {
        callsAfterExplicitEdit := Some(SatAdd(callsAfterExplicitEdit.value, 1));
      }
    }

    method ObserveStreak(s: Settlement)
      modifies this
      ensures State() == StreakStep(old(State()), s) && log == old(log)
    {
      if s.outcome.Succeeded? {
        consecutiveFailure, consecutiveFailureCount := None, 0;
      } else {
        if consecutiveFailure == Some(FactOf(s)) {
          consecutiveFailureCount := SatAdd(consecutiveFailureCount, 1);
        } else {
          consecutiveFailure, consecutiveFailureCount := Some(FactOf(s)), 1;
        }
        maxConsecutiveFailureCount := Max(maxConsecutiveFailureCount, consecutiveFailureCount);
      }
    }

    method ObserveTail(s: Settlement)
      modifies this
      ensures State() == TailStep(old(State()), s) && log == old(log)
    {
      if s.starts.Some? {
        unresolvedBackgroundTasks := unresolvedBackgroundTasks + {s.starts.value};
      }
      unresolvedBackgroundTasks := unresolvedBackgroundTasks - s.settles;
      recent := recent + [FactOf(s)];
      if |recent| > RECENT_TOOL_FACTS {
        recent := recent[1..];
      }
    }
  }
}
