/** Provider usage accounting: saturating counters against unbounded sums over the call log. */
module Usage {
  import opened Base

  /** The cost field under either of its two names, as a 64-bit number or not. */
  datatype Cost = CostMissing | CostMalformed | Ticks(ticks: u64)

  /** One usage object as the accumulator reads it: a field that is missing or not a 64-bit
      number is `None`. */
  datatype Report = Report(
    input: Option<u64>, output: Option<u64>, cached: Option<u64>, cost: Cost)

  datatype Call = Requested | Completed(usage: Option<Report>) | Failed(usage: Option<Report>)

  // ---------- the log's own arithmetic ----------

  function CountIf(log: seq<Call>, p: Call -> bool): nat {
    if log == [] then 0 else CountIf(Front(log), p) + if p(Last(log)) then 1 else 0
  }

  function SumOf(log: seq<Call>, f: Call -> nat): nat {
    if log == [] then 0 else SumOf(Front(log), f) + f(Last(log))
  }

  predicate IsRequest(c: Call) { c.Requested? }
  predicate IsCompleted(c: Call) { c.Completed? }
  predicate IsFailed(c: Call) { c.Failed? }
  predicate IsSettled(c: Call) { !c.Requested? }

  predicate HasReport(c: Call) { !c.Requested? && c.usage.Some? }

  predicate UsagePresent(c: Call) {
    HasReport(c) && c.usage.value.input.Some? && c.usage.value.output.Some?
  }

  predicate UsageAbsent(c: Call) { IsSettled(c) && !UsagePresent(c) }

  predicate CostPresent(c: Call) { HasReport(c) && c.usage.value.cost.Ticks? }

  predicate CostAbsent(c: Call) { IsSettled(c) && !CostPresent(c) }

  predicate Malformed(c: Call) {
    HasReport(c) && (!UsagePresent(c) || c.usage.value.cost.CostMalformed?)
  }

  function Input(c: Call): nat { if UsagePresent(c) then c.usage.value.input.value else 0 }
  function Output(c: Call): nat { if UsagePresent(c) then c.usage.value.output.value else 0 }
  function Cached(c: Call): nat {
    if UsagePresent(c) && c.usage.value.cached.Some? then c.usage.value.cached.value else 0
  }
  function CostTicks(c: Call): nat { if CostPresent(c) then c.usage.value.cost.ticks else 0 }

  ghost predicate Overflows(log: seq<Call>) {
    || SumOf(log, Input) > U64_MAX || SumOf(log, Cached) > U64_MAX
    || SumOf(log, Output) > U64_MAX || SumOf(log, CostTicks) > U64_MAX
  }

  lemma {:induction false} CountSnoc(log: seq<Call>, c: Call, p: Call -> bool)
    ensures CountIf(log + [c], p) == CountIf(log, p) + if p(c) then 1 else 0
  {
    SnocParts(log, c);
  }

  lemma {:induction false} SumSnoc(log: seq<Call>, c: Call, f: Call -> nat)
    ensures SumOf(log + [c], f) == SumOf(log, f) + f(c)
  {
    SnocParts(log, c);
  }

  /** Two predicates that split a third split its count. */
  lemma {:induction false} CountSplits(
      log: seq<Call>, p: Call -> bool, q: Call -> bool, whole: Call -> bool)
    requires forall c :: whole(c) <==> p(c) || q(c)
    requires forall c :: !(p(c) && q(c))
    ensures CountIf(log, p) + CountIf(log, q) == CountIf(log, whole)
  {
    if log != [] {
      CountSplits(Front(log), p, q, whole);
    }
  }

  lemma {:induction false} CountReaches(log: seq<Call>, p: Call -> bool, whole: Call -> bool)
    requires forall c :: p(c) ==> whole(c)
    ensures CountIf(log, p) <= CountIf(log, whole)
    ensures CountIf(log, p) == CountIf(log, whole)
       <==> forall i :: 0 <= i < |log| && whole(log[i]) ==> p(log[i])
  {
    if log != [] {
      CountReaches(Front(log), p, whole);
    }
  }

  ghost predicate AnyMalformed(log: seq<Call>) {
    exists i :: 0 <= i < |log| && Malformed(log[i])
  }

  lemma {:induction false} MalformedSnoc(log: seq<Call>, c: Call)
    ensures AnyMalformed(log + [c]) <==> AnyMalformed(log) || Malformed(c)
  {
    var longer := log + [c];
    assert longer[|log|] == c;
    forall i | 0 <= i < |log| ensures longer[i] == log[i] {
    }
  }

  // ---------- coverage ----------

  datatype UsageState = Complete | Partial | Invalid

  datatype Coverage = Coverage(
    requested: u64, completed: u64, failed: u64, inFlight: u64, usagePresent: u64,
    usageAbsent: u64, usageCovered: u64, costPresent: u64, costAbsent: u64, state: UsageState)

  datatype Totals = Totals(
    input: Option<u64>, cached: Option<u64>, output: Option<u64>, ticks: Option<u64>)

  /** `ProviderCallCoverage::validate`. */
  predicate ValidCoverage(c: Coverage) {
    var settled := c.completed + c.failed;
    && settled + c.inFlight <= U64_MAX
    && settled + c.inFlight == c.requested
    && (|| (c.usagePresent + c.usageAbsent == c.completed
            && c.costPresent + c.costAbsent == c.completed)
        || (c.usagePresent + c.usageAbsent == settled
            && c.costPresent + c.costAbsent == settled))
    && c.usageCovered <= c.requested
    && (c.state.Complete? ==> c.inFlight == 0 && c.usageCovered == c.requested)
  }

  /** Every settlement answers a request, and the requests can be counted. */
  ghost predicate Paired(log: seq<Call>) {
    CountIf(log, IsSettled) <= CountIf(log, IsRequest) <= U64_MAX
  }

  /** The accumulator's fields. */
  datatype Fields = Fields(
    requested: u64, completed: u64, failed: u64, usagePresent: u64, usageAbsent: u64,
    costPresent: u64, costAbsent: u64, input: u64, cached: u64, output: u64, ticks: u64,
    invalid: bool)

  /** What the log really contains. */
  datatype Truth = Truth(
    requested: nat, completed: nat, failed: nat, usagePresent: nat, usageAbsent: nat,
    costPresent: nat, costAbsent: nat, input: nat, cached: nat, output: nat, ticks: nat,
    malformed: bool)

  ghost function TruthOf(log: seq<Call>): Truth {
    Truth(CountIf(log, IsRequest), CountIf(log, IsCompleted), CountIf(log, IsFailed),
          CountIf(log, UsagePresent), CountIf(log, UsageAbsent),
          CountIf(log, CostPresent), CountIf(log, CostAbsent),
          SumOf(log, Input), SumOf(log, Cached), SumOf(log, Output), SumOf(log, CostTicks),
          AnyMalformed(log))
  }

  /** Every counter and total is the true one cut off at 2^64 - 1, and the invalid flag is up
      exactly when a total overflowed or a report was malformed. */
  ghost predicate Matches(f: Fields, t: Truth) {
    && f.requested == Clamp(t.requested)
    && f.completed == Clamp(t.completed)
    && f.failed == Clamp(t.failed)
    && f.usagePresent == Clamp(t.usagePresent)
    && f.usageAbsent == Clamp(t.usageAbsent)
    && f.costPresent == Clamp(t.costPresent)
    && f.costAbsent == Clamp(t.costAbsent)
    && f.input == Clamp(t.input)
    && f.cached == Clamp(t.cached)
    && f.output == Clamp(t.output)
    && f.ticks == Clamp(t.ticks)
    && (f.invalid <==>
          || t.malformed || t.input > U64_MAX || t.cached > U64_MAX || t.output > U64_MAX
          || t.ticks > U64_MAX)
  }

  ghost predicate Tallies(f: Fields, log: seq<Call>) {
    Matches(f, TruthOf(log))
  }

  function Bump(condition: bool): nat { if condition then 1 else 0 }

  ghost function Grow(t: Truth, c: Call): Truth {
    Truth(t.requested + Bump(IsRequest(c)), t.completed + Bump(IsCompleted(c)),
          t.failed + Bump(IsFailed(c)), t.usagePresent + Bump(UsagePresent(c)),
          t.usageAbsent + Bump(UsageAbsent(c)), t.costPresent + Bump(CostPresent(c)),
          t.costAbsent + Bump(CostAbsent(c)), t.input + Input(c), t.cached + Cached(c),
          t.output + Output(c), t.ticks + CostTicks(c), t.malformed || Malformed(c))
  }

  lemma {:induction false} TruthGrows(log: seq<Call>, c: Call)
    ensures TruthOf(log + [c]) == Grow(TruthOf(log), c)
  {
    CountSnoc(log, c, IsRequest);
    CountSnoc(log, c, IsCompleted);
    CountSnoc(log, c, IsFailed);
    CountSnoc(log, c, UsagePresent);
    CountSnoc(log, c, UsageAbsent);
    CountSnoc(log, c, CostPresent);
    CountSnoc(log, c, CostAbsent);
    SumSnoc(log, c, Input);
    SumSnoc(log, c, Cached);
    SumSnoc(log, c, Output);
    SumSnoc(log, c, CostTicks);
    MalformedSnoc(log, c);
  }

  /** `accumulate`: the new total, and whether it overflowed. */
  function Accumulate(target: u64, value: u64): (u64, bool) {
    match CheckedAdd(target, value)
    case Some(total) => (total, false)
    case None => (U64_MAX, true)
  }

  /** The token half of `observe_settled`. */
  function ObserveTokens(f: Fields, usage: Report): Fields {
    if usage.input.Some? && usage.output.Some? then
      var i := Accumulate(f.input, usage.input.value);
      var c := Accumulate(f.cached, if usage.cached.Some? then usage.cached.value else 0);
      var o := Accumulate(f.output, usage.output.value);
      f.(usagePresent := SatAdd(f.usagePresent, 1), input := i.0, cached := c.0, output := o.0,
         invalid := f.invalid || i.1 || c.1 || o.1)
    else f.(usageAbsent := SatAdd(f.usageAbsent, 1), invalid := true)
  }

  /** The cost half. */
  function ObserveCost(f: Fields, cost: Cost): Fields {
    match cost
    case Ticks(ticks) =>
      var t := Accumulate(f.ticks, ticks);
      f.(costPresent := SatAdd(f.costPresent, 1), ticks := t.0, invalid := f.invalid || t.1)
    case CostMalformed => f.(costAbsent := SatAdd(f.costAbsent, 1), invalid := true)
    case CostMissing => f.(costAbsent := SatAdd(f.costAbsent, 1))
  }

  function ObserveSettled(f: Fields, usage: Option<Report>): Fields {
    match usage
    case None =>
      f.(usageAbsent := SatAdd(f.usageAbsent, 1), costAbsent := SatAdd(f.costAbsent, 1))
    case Some(report) => ObserveCost(ObserveTokens(f, report), report.cost)
  }

  function Observe(f: Fields, c: Call): Fields {
    match c
    case Requested => f.(requested := SatAdd(f.requested, 1))
    case Completed(usage) => ObserveSettled(f.(completed := SatAdd(f.completed, 1)), usage)
    case Failed(usage) => ObserveSettled(f.(failed := SatAdd(f.failed, 1)), usage)
  }

  lemma {:induction false} AccumulateClamps(total: nat, value: u64)
    ensures Accumulate(Clamp(total), value).0 == Clamp(total + value)
    ensures total > U64_MAX || Accumulate(Clamp(total), value).1 <==> total + value > U64_MAX
  {
  }

  lemma {:induction false} CountClamps(total: nat)
    ensures SatAdd(Clamp(total), 1) == Clamp(total + 1)
  {
  }

  ghost function AddTokens(t: Truth, usage: Report): Truth {
    if usage.input.Some? && usage.output.Some? then
      t.(usagePresent := t.usagePresent + 1, input := t.input + usage.input.value,
         cached := t.cached + (if usage.cached.Some? then usage.cached.value else 0),
         output := t.output + usage.output.value)
    else t.(usageAbsent := t.usageAbsent + 1, malformed := true)
  }

  ghost function AddCost(t: Truth, cost: Cost): Truth {
    match cost
    case Ticks(ticks) => t.(costPresent := t.costPresent + 1, ticks := t.ticks + ticks)
    case CostMalformed => t.(costAbsent := t.costAbsent + 1, malformed := true)
    case CostMissing => t.(costAbsent := t.costAbsent + 1)
  }

  ghost function AddSettled(t: Truth, usage: Option<Report>): Truth {
    match usage
    case None => t.(usageAbsent := t.usageAbsent + 1, costAbsent := t.costAbsent + 1)
    case Some(report) => AddCost(AddTokens(t, report), report.cost)
  }

  lemma {:induction false} GrowSettled(t: Truth, usage: Option<Report>)
    ensures Grow(t, Completed(usage)) == AddSettled(t.(completed := t.completed + 1), usage)
    ensures Grow(t, Failed(usage)) == AddSettled(t.(failed := t.failed + 1), usage)
  {
  }

  lemma {:induction false} TokensMatch(f: Fields, t: Truth, usage: Report)
    requires Matches(f, t)
    ensures Matches(ObserveTokens(f, usage), AddTokens(t, usage))
  {
    CountClamps(t.usagePresent);
    CountClamps(t.usageAbsent);
    if usage.input.Some? && usage.output.Some? {
      AccumulateClamps(t.input, usage.input.value);
      AccumulateClamps(t.cached, if usage.cached.Some? then usage.cached.value else 0);
      AccumulateClamps(t.output, usage.output.value);
    }
  }

  lemma {:induction false} CostMatches(f: Fields, t: Truth, cost: Cost)
    requires Matches(f, t)
    ensures Matches(ObserveCost(f, cost), AddCost(t, cost))
  {
    CountClamps(t.costPresent);
    CountClamps(t.costAbsent);
    if cost.Ticks? {
      AccumulateClamps(t.ticks, cost.ticks);
    }
  }

  lemma {:induction false} SettledMatches(f: Fields, t: Truth, usage: Option<Report>)
    requires Matches(f, t)
    ensures Matches(ObserveSettled(f, usage), AddSettled(t, usage))
  {
    match usage
    case None =>
      CountClamps(t.usageAbsent);
      CountClamps(t.costAbsent);
    case Some(report) =>
      TokensMatch(f, t, report);
      CostMatches(ObserveTokens(f, report), AddTokens(t, report), report.cost);
  }

  lemma {:induction false} ObserveMatches(f: Fields, t: Truth, c: Call)
    requires Matches(f, t)
    ensures Matches(Observe(f, c), Grow(t, c))
  {
    match c
    case Requested =>
      CountClamps(t.requested);
    case Completed(usage) =>
      CountClamps(t.completed);
      GrowSettled(t, usage);
      SettledMatches(f.(completed := SatAdd(f.completed, 1)),
                     t.(completed := t.completed + 1), usage);
    case Failed(usage) =>
      CountClamps(t.failed);
      GrowSettled(t, usage);
      SettledMatches(f.(failed := SatAdd(f.failed, 1)), t.(failed := t.failed + 1), usage);
  }

  lemma {:induction false} ObserveTallies(f: Fields, log: seq<Call>, c: Call)
    requires Tallies(f, log)
    ensures Tallies(Observe(f, c), log + [c])
  {
    TruthGrows(log, c);
    ObserveMatches(f, TruthOf(log), c);
  }

  const UNUSED := Fields(0, 0, 0, 0, 0, 0, 0, 0, 0, 0, 0, false)

  /** The accumulator after a whole log. */
  function Account(log: seq<Call>): Fields {
    if log == [] then UNUSED else Observe(Account(Front(log)), Last(log))
  }

  lemma {:induction false} AccountTallies(log: seq<Call>)
    ensures Tallies(Account(log), log)
  {
    if log != [] {
      AccountTallies(Front(log));
      ObserveTallies(Account(Front(log)), Front(log), Last(log));
      FrontLast(log);
    }
  }

  function Snapshot(f: Fields): (Coverage, Totals) {
    var settled := SatAdd(f.completed, f.failed);
    var inFlight := SatSub(f.requested, settled);
    var state :=
      if f.invalid then Invalid
      else if inFlight == 0 && f.usagePresent == f.requested then Complete
      else Partial;
    (Coverage(f.requested, f.completed, f.failed, inFlight, f.usagePresent, f.usageAbsent,
              f.usagePresent, f.costPresent, f.costAbsent, state),
     Totals(if f.usagePresent > 0 then Some(f.input) else None,
            if f.usagePresent > 0 then Some(f.cached) else None,
            if f.usagePresent > 0 then Some(f.output) else None,
            if f.costPresent > 0 then Some(f.ticks) else None))
  }

  lemma {:induction false} ExactCounts(f: Fields, log: seq<Call>)
    requires Tallies(f, log) && Paired(log)
    ensures f.requested == CountIf(log, IsRequest)
    ensures f.completed + f.failed == CountIf(log, IsSettled) <= f.requested
    ensures f.usagePresent == CountIf(log, UsagePresent)
    ensures f.usagePresent + f.usageAbsent == CountIf(log, IsSettled)
    ensures f.costPresent + f.costAbsent == CountIf(log, IsSettled)
  {
    CountSplits(log, IsCompleted, IsFailed, IsSettled);
    CountSplits(log, UsagePresent, UsageAbsent, IsSettled);
    CountSplits(log, CostPresent, CostAbsent, IsSettled);
  }

  /** Every paired log is reported with balanced, valid coverage. */
  lemma {:induction false} CoverageBalances(f: Fields, log: seq<Call>)
    requires Tallies(f, log) && Paired(log)
    ensures var c := Snapshot(f).0;
            && ValidCoverage(c)
            && c.requested == c.completed + c.failed + c.inFlight
            && c.inFlight == CountIf(log, IsRequest) - CountIf(log, IsSettled)
            && c.usagePresent + c.usageAbsent == c.completed + c.failed
            && c.costPresent + c.costAbsent == c.completed + c.failed
  {
    ExactCounts(f, log);
  }

  /** `Complete` is reported exactly when nothing is in flight, every settlement carried valid
      usage, no cost was malformed and no total overflowed. */
  lemma {:induction false} CompleteExactly(f: Fields, log: seq<Call>)
    requires Tallies(f, log) && Paired(log)
    ensures Snapshot(f).0.state.Complete? <==>
              && CountIf(log, IsSettled) == CountIf(log, IsRequest)
              && (forall i :: 0 <= i < |log| && IsSettled(log[i]) ==> UsagePresent(log[i]))
              && (forall i :: 0 <= i < |log| && HasReport(log[i]) ==>
                    !log[i].usage.value.cost.CostMalformed?)
              && !Overflows(log)
  {
    ExactCounts(f, log);
    CountReaches(log, UsagePresent, IsSettled);
    var allValid := forall i :: 0 <= i < |log| && IsSettled(log[i]) ==> UsagePresent(log[i]);
    var costsFine := forall i :: 0 <= i < |log| && HasReport(log[i]) ==>
                        !log[i].usage.value.cost.CostMalformed?;
    if allValid && costsFine {
      forall i | 0 <= i < |log| ensures !Malformed(log[i]) {
        assert HasReport(log[i]) ==> IsSettled(log[i]);
      }
    }
    if !costsFine {
      var i :| 0 <= i < |log| && HasReport(log[i]) && log[i].usage.value.cost.CostMalformed?;
      assert Malformed(log[i]);
    }
  }
}

/** The accumulator object. */
module UsageObject {
  import opened Base
  import opened Usage
  import Spec = Usage

  class UsageAccumulator {
    var requested: u64
    var completed: u64
    var failed: u64
    var usagePresent: u64
    var usageAbsent: u64
    var costPresent: u64
    var costAbsent: u64
    var input: u64
    var cached: u64
    var output: u64
    var ticks: u64
    var invalid: bool
    ghost var log: seq<Call>

    ghost function State(): Fields
      reads this
    {
      Fields(requested, completed, failed, usagePresent, usageAbsent, costPresent, costAbsent,
             input, cached, output, ticks, invalid)
    }

    ghost predicate Valid()
      reads this
    {
      Tallies(State(), log)
    }

    constructor ()
      ensures Valid() && log == []
    {
      requested, completed, failed := 0, 0, 0;
      usagePresent, usageAbsent, costPresent, costAbsent := 0, 0, 0, 0;
      input, cached, output, ticks, invalid := 0, 0, 0, 0, false;
      log := [];
    }

    method ObserveRequested()
      requires Valid()
      modifies this
      ensures Valid() && log == old(log) + [Requested]
    {
      ObserveTallies(State(), log, Requested);
      requested := SatAdd(requested, 1);
      log := log + [Requested];
    }

    method ObserveCompleted(usage: Option<Report>)
      requires Valid()
      modifies this
      ensures Valid() && log == old(log) + [Completed(usage)]
    {
      ObserveTallies(State(), log, Completed(usage));
      completed := SatAdd(completed, 1);
      ObserveSettled(usage);
      log := log + [Completed(usage)];
    }

    method ObserveFailed(usage: Option<Report>)
      requires Valid()
      modifies this
      ensures Valid() && log == old(log) + [Failed(usage)]
    {
      ObserveTallies(State(), log, Failed(usage));
      failed := SatAdd(failed, 1);
      ObserveSettled(usage);
      log := log + [Failed(usage)];
    }

    method ObserveSettled(usage: Option<Report>)
      modifies this
      ensures State() == Spec.ObserveSettled(old(State()), usage) && log == old(log)
    {
      if usage.None? {
        usageAbsent := SatAdd(usageAbsent, 1);
        costAbsent := SatAdd(costAbsent, 1);
        return;
      }
      ObserveTokens(usage.value);
      match usage.value.cost
      case Ticks(cost) =>
        costPresent := SatAdd(costPresent, 1);
        var total := Accumulate(ticks, cost);
        ticks, invalid := total.0, invalid || total.1;
      case CostMalformed =>
        costAbsent := SatAdd(costAbsent, 1);
        invalid := true;
      case CostMissing =>
        costAbsent := SatAdd(costAbsent, 1);
    }

    method ObserveTokens(usage: Report)
      modifies this
      ensures State() == Spec.ObserveTokens(old(State()), usage) && log == old(log)
    {
      if usage.input.Some? && usage.output.Some? {
        var cachedTokens := if usage.cached.Some? then usage.cached.value else 0;
        usagePresent := SatAdd(usagePresent, 1);
        var i := Accumulate(input, usage.input.value);
        var c := Accumulate(cached, cachedTokens);
        var o := Accumulate(output, usage.output.value);
        input, cached, output := i.0, c.0, o.0;
        invalid := invalid || i.1 || c.1 || o.1;
      } else {
        usageAbsent := SatAdd(usageAbsent, 1);
        invalid := true;
      }
    }

    /** `snapshot`: totals appear exactly when some call reported them. */
    method TakeSnapshot() returns (coverage: Coverage, totals: Totals)
      requires Valid()
      ensures (coverage, totals) == Snapshot(State())
      ensures Paired(log) ==> ValidCoverage(coverage)
      ensures CountIf(log, UsagePresent) == 0 ==>
                totals.input.None? && totals.cached.None? && totals.output.None?
      ensures CountIf(log, UsagePresent) > 0 ==>
                && totals.input == Some(Clamp(SumOf(log, Input)))
                && totals.cached == Some(Clamp(SumOf(log, Cached)))
                && totals.output == Some(Clamp(SumOf(log, Output)))
      ensures totals.ticks
           == if CountIf(log, CostPresent) > 0 then Some(Clamp(SumOf(log, CostTicks))) else None
    {
      if Paired(log) {
        CoverageBalances(State(), log);
      }
      var settled := SatAdd(completed, failed);
      var inFlight := SatSub(requested, settled);
      var state :=
        if invalid then Invalid
        else if inFlight == 0 && usagePresent == requested then Complete
        else Partial;
      coverage := Coverage(requested, completed, failed, inFlight, usagePresent, usageAbsent,
                           usagePresent, costPresent, costAbsent, state);
      totals := Totals(if usagePresent > 0 then Some(input) else None,
                       if usagePresent > 0 then Some(cached) else None,
                       if usagePresent > 0 then Some(output) else None,
                       if costPresent > 0 then Some(ticks) else None);
    }
  }
}
