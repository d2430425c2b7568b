/** The finish controller: one soft finish, one last action batch, then final only. */
module Finish {
  import opened Base

  const SOFT_FINISH_PROVIDER_TURN: nat := 40
  const FINAL_ONLY_PROVIDER_TURN: nat := 48

  datatype FinishState = ActionOpen | SoftFinish | FinalOnly | TerminalCommit

  function Rank(s: FinishState): nat {
    match s
    case ActionOpen => 0
    case SoftFinish => 1
    case FinalOnly => 2
    case TerminalCommit => 3
  }

  datatype Controller = Controller(
    state: FinishState, noticePending: bool, noticeEmitted: bool, softActionAdmitted: bool)

  const NEW := Controller(ActionOpen, false, false, false)

  datatype Trigger = Time | Turn40 | Turn48

  datatype Rejection = ActionAlreadyAdmitted | CutoffReached | PhaseClosed

  /** Instants are numbers of nanoseconds. */
  datatype Admission =
    | Admitted(semanticDeadline: nat, settlementDeadline: nat)
    | Rejected(reason: Rejection)

  function Observe(c: Controller, now: nat, softFinishCutoff: nat, turns: nat)
    : (Controller, Option<Trigger>)
  {
    if c.state.TerminalCommit? then (c, None)
    else if turns >= FINAL_ONLY_PROVIDER_TURN then
      if Rank(c.state) < Rank(FinalOnly) then
        (c.(state := FinalOnly, noticePending := c.noticePending || !c.noticeEmitted), Some(Turn48))
      else (c, None)
    else if !c.state.ActionOpen? then (c, None)
    else
      var trigger :=
        if turns >= SOFT_FINISH_PROVIDER_TURN then Some(Turn40)
        else if now >= softFinishCutoff then Some(Time)
        else None;
      (if trigger.Some? then c.(state := SoftFinish, noticePending := true) else c, trigger)
  }

  /** The notice text is left out; only whether one is given. */
  function TakeNotice(c: Controller): (Controller, bool) {
    if !c.noticePending || c.noticeEmitted then (c, false)
    else (c.(noticePending := false, noticeEmitted := true), true)
  }

  function AdmitActionBatch(
      c: Controller, now: nat, requested: nat, softActionCutoff: nat, settlement: nat)
    : (Controller, Admission)
  {
    match c.state
    case ActionOpen => (c, Admitted(requested, settlement))
    case SoftFinish =>
      if c.softActionAdmitted then (c, Rejected(ActionAlreadyAdmitted))
      else
        var semantic := Min(requested, softActionCutoff);
        if now >= semantic then (c.(state := FinalOnly), Rejected(CutoffReached))
        else (c.(softActionAdmitted := true), Admitted(semantic, settlement))
    case _ => (c, Rejected(PhaseClosed))
  }

  function SettleActionBatch(c: Controller): Controller {
    if c.state.SoftFinish? && c.softActionAdmitted then c.(state := FinalOnly) else c
  }

  function CloseActions(c: Controller): Controller {
    if Rank(c.state) < Rank(FinalOnly) then c.(state := FinalOnly) else c
  }

  function CommitTerminal(c: Controller): Controller {
    c.(state := TerminalCommit)
  }

  // ---------- every use of the controller ----------

  datatype Op =
    | ObserveOp(now: nat, softFinishCutoff: nat, turns: nat)
    | NoticeOp
    | AdmitOp(now: nat, requested: nat, softActionCutoff: nat, settlement: nat)
    | SettleOp
    | CloseOp
    | CommitOp

  function Apply(c: Controller, op: Op): Controller {
    match op
    case ObserveOp(now, cutoff, turns) => Observe(c, now, cutoff, turns).0
    case NoticeOp => TakeNotice(c).0
    case AdmitOp(now, requested, cutoff, settlement) =>
      AdmitActionBatch(c, now, requested, cutoff, settlement).0
    case SettleOp => SettleActionBatch(c)
    case CloseOp => CloseActions(c)
    case CommitOp => CommitTerminal(c)
  }

  function Run(c: Controller, ops: seq<Op>): Controller {
    if ops == [] then c else Apply(Run(c, Front(ops)), Last(ops))
  }

  /** Whether the operation admits a batch although the action phase is no longer open. */
  predicate LateAdmission(c: Controller, op: Op) {
    && op.AdmitOp?
    && !c.state.ActionOpen?
    && AdmitActionBatch(c, op.now, op.requested, op.softActionCutoff, op.settlement).1.Admitted?
  }

  function LateAdmissions(c: Controller, ops: seq<Op>): nat {
    if ops == [] then 0
    else LateAdmissions(c, Front(ops))
         + if LateAdmission(Run(c, Front(ops)), Last(ops)) then 1 else 0
  }

  function Notices(c: Controller, ops: seq<Op>): nat {
    if ops == [] then 0
    else Notices(c, Front(ops))
         + if Last(ops).NoticeOp? && TakeNotice(Run(c, Front(ops))).1 then 1 else 0
  }

  /** Whether some observation closed a phase. */
  predicate Fired(c: Controller, ops: seq<Op>) {
    ops != [] && (Fired(c, Front(ops)) || Fires(Run(c, Front(ops)), Last(ops)))
  }

  predicate Fires(c: Controller, op: Op) {
    op.ObserveOp? && Observe(c, op.now, op.softFinishCutoff, op.turns).1.Some?
  }

  /** However a controller is used, it admits at most one action batch after leaving the open
      phase and gives at most one notice, which is due exactly once a phase was closed by an
      observation. */
  lemma {:induction false} OneLateBatchOneNotice(ops: seq<Op>)
    ensures var c := Run(NEW, ops);
            && LateAdmissions(NEW, ops) == (if c.softActionAdmitted then 1 else 0)
            && Notices(NEW, ops) == (if c.noticeEmitted then 1 else 0)
            && (c.softActionAdmitted ==> !c.state.ActionOpen?)
            && (Fired(NEW, ops) <==> c.noticePending || c.noticeEmitted)
            && !(c.noticePending && c.noticeEmitted)
            && (Fired(NEW, ops) ==> !c.state.ActionOpen?)
  {
    if ops != [] {
      OneLateBatchOneNotice(Front(ops));
    }
  }

  /** A phase was closed by an observation and nobody was told yet. */
  predicate NoticeDue(ops: seq<Op>) {
    Fired(NEW, ops) && Notices(NEW, ops) == 0
  }

  lemma {:induction false} NeverMovesBack(c: Controller, ops: seq<Op>)
    ensures Rank(c.state) <= Rank(Run(c, ops).state)
  {
    if ops != [] {
      NeverMovesBack(c, Front(ops));
    }
  }

  /** An admitted batch keeps the settlement deadline, never gains time, and after the open
      phase has time left before the final send reserve. */
  lemma {:induction false} AdmittedEnvelope(
      c: Controller, now: nat, requested: nat, softActionCutoff: nat, settlement: nat)
    requires AdmitActionBatch(c, now, requested, softActionCutoff, settlement).1.Admitted?
    ensures var a := AdmitActionBatch(c, now, requested, softActionCutoff, settlement).1;
            && a.settlementDeadline == settlement
            && a.semanticDeadline <= requested
            && (!c.state.ActionOpen? ==> now < a.semanticDeadline <= softActionCutoff)
  {
  }
}

/** The controller object, with everything it was ever asked. */
module FinishObject {
  import opened Base
  import opened Finish

  class FinishController {
    var state: FinishState
    var noticePending: bool
    var noticeEmitted: bool
    var softActionAdmitted: bool
    ghost var history: seq<Op>

    function Value(): Controller
      reads this
    {
      Controller(state, noticePending, noticeEmitted, softActionAdmitted)
    }

    ghost predicate Valid()
      reads this
    {
      Value() == Run(NEW, history)
    }

    constructor ()
      ensures Valid() && history == [] && state.ActionOpen?
    {
      state, noticePending, noticeEmitted, softActionAdmitted := ActionOpen, false, false, false;
      history := [];
    }

    /** The bookkeeping of every method: one more call, and the state it leads to. */
    ghost method Record(op: Op)
      requires Value() == Apply(Run(NEW, history), op)
      modifies this`history
      ensures Valid() && history == old(history) + [op]
    {
      SnocParts(history, op);
      history := history + [op];
    }

    /** Reports a trigger exactly when the phase closes further; an open phase means that
        neither signal is up. */
    method Observe(now: nat, softFinishCutoff: nat, turns: nat) returns (r: Option<Trigger>)
      requires Valid()
      modifies this
      ensures Valid() && history == old(history) + [ObserveOp(now, softFinishCutoff, turns)]
      ensures Rank(old(state)) <= Rank(state)
      ensures r.Some? <==> state != old(state)
      ensures r == Some(Turn48) ==> turns >= FINAL_ONLY_PROVIDER_TURN && state.FinalOnly?
      ensures r == Some(Turn40) ==>
                SOFT_FINISH_PROVIDER_TURN <= turns < FINAL_ONLY_PROVIDER_TURN && state.SoftFinish?
      ensures r == Some(Time) ==>
                turns < SOFT_FINISH_PROVIDER_TURN && softFinishCutoff <= now && state.SoftFinish?
      ensures r.Some? && Notices(NEW, history) == 0 ==> NoticeDue(history)
      ensures state.ActionOpen? ==> turns < SOFT_FINISH_PROVIDER_TURN && now < softFinishCutoff
      ensures turns >= FINAL_ONLY_PROVIDER_TURN ==> Rank(state) >= Rank(FinalOnly)
    {
      ghost var op := ObserveOp(now, softFinishCutoff, turns);
      SnocParts(history, op);
      if state.TerminalCommit? { Record(op); return None; }
      if turns >= FINAL_ONLY_PROVIDER_TURN {
        if Rank(state) < Rank(FinalOnly) {
          state := FinalOnly;
          noticePending := noticePending || !noticeEmitted;
          Record(op);
          return Some(Turn48);
        }
        Record(op);
        return None;
      }
      if !state.ActionOpen? { Record(op); return None; }
      r := if turns >= SOFT_FINISH_PROVIDER_TURN then Some(Turn40)
           else if now >= softFinishCutoff then Some(Time)
           else None;
      if r.Some? {
        state := SoftFinish;
        noticePending := true;
      }
      Record(op);
    }

    /** Gives the notice exactly when one is due, and so at most once in the controller's
        life. */
    method TakeNotice() returns (given: bool)
      requires Valid()
      modifies this
      ensures Valid() && history == old(history) + [NoticeOp]
      ensures given <==> NoticeDue(old(history))
      ensures Notices(NEW, history) == Notices(NEW, old(history)) + (if given then 1 else 0) <= 1
      ensures state == old(state) && !NoticeDue(history)
    {
      OneLateBatchOneNotice(history);
      OneLateBatchOneNotice(history + [NoticeOp]);
      SnocParts(history, NoticeOp);
      if !noticePending || noticeEmitted {
        Record(NoticeOp);
        return false;
      }
      noticePending := false;
      noticeEmitted := true;
      Record(NoticeOp);
      given := true;
    }

    /** Admits every batch in the open phase, and after it only the first one that still has
        time before the final send reserve; never more than one late batch. */
    method AdmitActionBatch(now: nat, requested: nat, softActionCutoff: nat, settlement: nat)
      returns (r: Admission)
      requires Valid()
      modifies this
      ensures Valid()
      ensures history == old(history) + [AdmitOp(now, requested, softActionCutoff, settlement)]
      ensures r.Admitted? <==>
                || old(state).ActionOpen?
                || (old(state).SoftFinish? && LateAdmissions(NEW, old(history)) == 0
                    && now < Min(requested, softActionCutoff))
      ensures r.Admitted? ==>
                && r.settlementDeadline == settlement
                && r.semanticDeadline
                   == (if old(state).ActionOpen? then requested else Min(requested, softActionCutoff))
      ensures LateAdmissions(NEW, history) <= 1 && Rank(old(state)) <= Rank(state)
      ensures r == Rejected(CutoffReached) <==> state != old(state)
    {
      ghost var op := AdmitOp(now, requested, softActionCutoff, settlement);
      OneLateBatchOneNotice(history);
      OneLateBatchOneNotice(history + [op]);
      match state
      case ActionOpen =>
        r := Admitted(requested, settlement);
        Record(op);
      case SoftFinish =>
        if softActionAdmitted { Record(op); return Rejected(ActionAlreadyAdmitted); }
        var semantic := Min(requested, softActionCutoff);
        if now >= semantic {
          state := FinalOnly;
          Record(op);
          return Rejected(CutoffReached);
        }
        softActionAdmitted := true;
        r := Admitted(semantic, settlement);
        Record(op);
      case _ =>
        r := Rejected(PhaseClosed);
        Record(op);
    }

    /** The late batch, once admitted, closes the action phase when it settles. */
    method SettleActionBatch() returns (closed: bool)
      requires Valid()
      modifies this
      ensures Valid() && history == old(history) + [SettleOp]
      ensures closed <==> old(state).SoftFinish? && LateAdmissions(NEW, old(history)) == 1
      ensures state == if closed then FinalOnly else old(state)
    {
      OneLateBatchOneNotice(history);
      closed := state.SoftFinish? && softActionAdmitted;
      if closed { state := FinalOnly; }
      Record(SettleOp);
    }

    method CloseActions() returns (closed: bool)
      requires Valid()
      modifies this
      ensures Valid() && history == old(history) + [CloseOp]
      ensures Rank(state) == Max(Rank(old(state)), Rank(FinalOnly))
      ensures closed <==> state != old(state)
    {
      closed := Rank(state) < Rank(FinalOnly);
      if closed { state := FinalOnly; }
      Record(CloseOp);
    }

    method CommitTerminal() returns (committed: bool)
      requires Valid()
      modifies this
      ensures Valid() && history == old(history) + [CommitOp]
      ensures state.TerminalCommit? && (committed <==> !old(state).TerminalCommit?)
    {
      committed := !state.TerminalCommit?;
      state := TerminalCommit;
      Record(CommitOp);
    }
  }
}
