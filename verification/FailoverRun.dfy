/** Bounded failover: at most a few attempts, each prepared anew, and none after one that may
    have done work. The hooks are arbitrary; what holds is read off the trace of their calls. */
module FailoverRun {
  import opened Wrappers
  import opened AttemptPlan
  import opened AttemptSelection
  import opened FailoverChoices

  datatype StopReason =
    | Succeeded
    | UnsafeToReplay
    | Permanent
    | Exhausted
    | NoCandidates
    | Canceled
    | Blocked

  datatype Result = Result(admitted: bool, attempts: seq<AttemptResult>, stop: StopReason)

  predicate ValidOutcome(o: Outcome) { !o.failure.OtherFailure? && !o.work.OtherWork? }

  /** An outcome the program does not know is recorded as a permanent failure of unknown effect. */
  function Recorded(o: Outcome): (r: Outcome)
  {
    if ValidOutcome(o) then o else Outcome(PermanentFailure, Unknown, o.outputStarted, o.finalUsageKnown)
  }

  // ---------- what is safe to repeat ----------

  /** The attempt produced nothing, is not known to have been billed, and provably did no work. */
  predicate NothingHappened(o: Outcome)
  {
    !o.outputStarted && !o.finalUsageKnown && (o.work == NotSent || o.work == RejectedWithoutWork)
  }

  /** The failures after which another target or credential may be tried. */
  predicate Retryable(o: Outcome)
  {
    && NothingHappened(o)
    && (o.failure == CredentialRejected || o.failure == ConnectionFailure || o.failure == RateLimited)
    && (o.failure == CredentialRejected ==> o.work == RejectedWithoutWork)
  }

  /** Every attempt but the last was safe to repeat. */
  predicate ReplaySafe(rs: seq<AttemptResult>)
  {
    forall i :: 0 <= i < |rs| - 1 ==> Retryable(rs[i].outcome)
  }

  /** No pair of target and credential twice, and no failed connection or rejected credential again. */
  predicate NoReuse(rs: seq<AttemptResult>)
  {
    forall i, j :: 0 <= i < j < |rs| ==>
      && (rs[i].attempt.target != rs[j].attempt.target || rs[i].attempt.credential != rs[j].attempt.credential)
      && (ConnectionFailed(rs[i]) ==> rs[i].attempt.connection != rs[j].attempt.connection)
      && (CredentialFailed(rs[i]) ==> rs[i].attempt.credential != rs[j].attempt.credential)
  }

  // ---------- the trace ----------

  /** The executions in a trace, as the result reports them. */
  function Executions(calls: Trace): (rs: seq<AttemptResult>)
  {
    if |calls| == 0 then []
    else
      var rest := Executions(calls[..|calls| - 1]);
      match calls[|calls| - 1]
      case Executed(a, o, _) => rest + [AttemptResult(a, Recorded(o))]
      case _ => rest
  }

  /** Whether the last execution, if there was one, ended without an error of its own and with an
      outcome the program knows. */
  predicate LastOk(calls: Trace)
  {
    if |calls| == 0 then true
    else
      match calls[|calls| - 1]
      case Executed(_, o, ok) => ok && ValidOutcome(o)
      case _ => LastOk(calls[..|calls| - 1])
  }

  function Admissions(calls: Trace): (n: nat)
  {
    if |calls| == 0 then 0
    else Admissions(calls[..|calls| - 1]) + if calls[|calls| - 1].Admitted? then 1 else 0
  }

  /** The execution at position i was prepared for that very attempt, with nothing but an admission
      and looks at the cancellation in between, the last of them right before it. */
  predicate PreparedFor(calls: Trace, i: nat)
    requires i < |calls| && calls[i].Executed?
  {
    && i > 0 && calls[i - 1] == Polled(false)
    && exists j :: 0 <= j < i && calls[j] == Prepared(calls[i].attempt, true)
         && forall k :: j < k < i ==> calls[k].Polled? || calls[k].Admitted?
  }

  predicate FreshlyPrepared(calls: Trace)
  {
    forall i :: 0 <= i < |calls| && calls[i].Executed? ==> PreparedFor(calls, i)
  }

  /** The request is admitted at most once, before anything is executed, and nothing is executed
      without it. */
  predicate AdmittedOnce(calls: Trace)
  {
    && Admissions(calls) <= 1
    && (forall i, j :: 0 <= i < j < |calls| ==> !(calls[i].Executed? && calls[j].Admitted?))
    && (forall j :: 0 <= j < |calls| && calls[j].Executed? ==>
          exists i :: 0 <= i < j && calls[i].Admitted? && calls[i].ok)
  }

  lemma ExecutionsStep(calls: Trace, call: Call)
    ensures Executions(calls + [call])
         == Executions(calls) + if call.Executed? then [AttemptResult(call.attempt, Recorded(call.outcome))] else []
    ensures Admissions(calls + [call]) == Admissions(calls) + if call.Admitted? then 1 else 0
    ensures LastOk(calls + [call]) == if call.Executed? then call.ok && ValidOutcome(call.outcome) else LastOk(calls)
  {
    assert (calls + [call])[..|calls|] == calls;
  }

  lemma {:induction false} LooksKeepOk(calls: Trace, looks: Trace)
    requires OnlyLooks(looks)
    ensures LastOk(calls + looks) == LastOk(calls)
    decreases |looks|
  {
    hide LastOk;
    if |looks| == 0 {
      assert calls + looks == calls;
    } else {
      var n := |looks| - 1;
      LooksKeepOk(calls, looks[..n]);
      assert calls + looks == (calls + looks[..n]) + [looks[n]];
      ExecutionsStep(calls + looks[..n], looks[n]);
    }
  }

  /** A selection adds neither executions nor admissions. */
  lemma {:induction false} LooksChangeNothing(calls: Trace, looks: Trace)
    requires OnlyLooks(looks)
    ensures Executions(calls + looks) == Executions(calls) && Admissions(calls + looks) == Admissions(calls)
    ensures FreshlyPrepared(calls) ==> FreshlyPrepared(calls + looks)
    ensures AdmittedOnce(calls) ==> AdmittedOnce(calls + looks)
    decreases |looks|
  {
    hide PreparedFor;
    if |looks| == 0 {
      assert calls + looks == calls;
    } else {
      var n := |looks| - 1;
      LooksChangeNothing(calls, looks[..n]);
      assert calls + looks == (calls + looks[..n]) + [looks[n]];
      ExecutionsStep(calls + looks[..n], looks[n]);
      CallKeeps(calls + looks[..n], looks[n]);
    }
  }

  lemma PreparedStays(calls: Trace, call: Call, i: nat)
    requires i < |calls| && calls[i].Executed? && PreparedFor(calls, i)
    ensures PreparedFor(calls + [call], i)
  {
    var j :| 0 <= j < i && calls[j] == Prepared(calls[i].attempt, true)
      && forall k :: j < k < i ==> calls[k].Polled? || calls[k].Admitted?;
    assert (calls + [call])[j] == Prepared(calls[i].attempt, true) && (calls + [call])[i - 1] == calls[i - 1];
  }

  /** A call that is neither an execution nor an admission keeps the discipline of the trace. */
  lemma CallKeeps(calls: Trace, call: Call)
    requires !call.Executed? && !call.Admitted?
    ensures FreshlyPrepared(calls) ==> FreshlyPrepared(calls + [call])
    ensures AdmittedOnce(calls) ==> AdmittedOnce(calls + [call])
  {
    hide PreparedFor;
    ExecutionsStep(calls, call);
    var more := calls + [call];
    if FreshlyPrepared(calls) {
      forall i | 0 <= i < |more| && more[i].Executed? ensures PreparedFor(more, i) {
        PreparedStays(calls, call, i);
      }
    }
    if AdmittedOnce(calls) {
      forall j | 0 <= j < |more| && more[j].Executed? ensures exists i :: 0 <= i < j && more[i].Admitted? && more[i].ok {
        var i :| 0 <= i < j && calls[i].Admitted? && calls[i].ok;
        assert more[i].Admitted? && more[i].ok;
      }
    }
  }

  /** An execution that was prepared for, admitted and then looked at is appended. */
  lemma ExecutionKeeps(calls: Trace, a: Attempt, o: Outcome, ok: bool, j: nat)
    requires FreshlyPrepared(calls) && AdmittedOnce(calls)
    requires j < |calls| && calls[j] == Prepared(a, true) && forall k :: j < k < |calls| ==> calls[k].Polled? || calls[k].Admitted?
    requires calls[|calls| - 1] == Polled(false)
    requires exists i :: 0 <= i < |calls| && calls[i].Admitted? && calls[i].ok
    ensures FreshlyPrepared(calls + [Executed(a, o, ok)]) && AdmittedOnce(calls + [Executed(a, o, ok)])
  {
    hide PreparedFor;
    var call := Executed(a, o, ok);
    var more := calls + [call];
    ExecutionsStep(calls, call);
    forall i | 0 <= i < |more| && more[i].Executed? ensures PreparedFor(more, i) {
      if i < |calls| { PreparedStays(calls, call, i); } else { LastPrepared(calls, a, o, ok, j); }
    }
    forall k | 0 <= k < |more| && more[k].Executed? ensures exists i :: 0 <= i < k && more[i].Admitted? && more[i].ok {
      if k < |calls| {
        var i :| 0 <= i < k && calls[i].Admitted? && calls[i].ok;
        assert more[i].Admitted? && more[i].ok;
      } else {
        var i :| 0 <= i < |calls| && calls[i].Admitted? && calls[i].ok;
        assert more[i].Admitted? && more[i].ok;
      }
    }
  }

  lemma LastPrepared(calls: Trace, a: Attempt, o: Outcome, ok: bool, j: nat)
    requires j < |calls| && calls[j] == Prepared(a, true) && forall k :: j < k < |calls| ==> calls[k].Polled? || calls[k].Admitted?
    requires calls[|calls| - 1] == Polled(false)
    ensures PreparedFor(calls + [Executed(a, o, ok)], |calls|)
  {
    var more := calls + [Executed(a, o, ok)];
    assert more[j] == Prepared(more[|calls|].attempt, true) && more[|calls| - 1] == Polled(false);
  }

  /** Without executions so far, the first admission is in time. */
  lemma AdmissionKeeps(calls: Trace, a: Attempt, ok: bool)
    requires FreshlyPrepared(calls) && AdmittedOnce(calls) && Executions(calls) == [] && Admissions(calls) == 0
    ensures FreshlyPrepared(calls + [Admitted(a, ok)]) && AdmittedOnce(calls + [Admitted(a, ok)])
  {
    ExecutionsStep(calls, Admitted(a, ok));
    NothingExecuted(calls);
  }

  lemma {:induction false} NothingExecuted(calls: Trace)
    requires Executions(calls) == []
    ensures forall i :: 0 <= i < |calls| ==> !calls[i].Executed?
    decreases |calls|
  {
    if |calls| > 0 { NothingExecuted(calls[..|calls| - 1]); }
  }

  // ---------- one dispatch ----------

  /** Where the bookkeeping of a run stands between attempts. */
  predicate Orderly(h: Hooks, calls: Trace, admitted: bool, rs: seq<AttemptResult>)
  {
    && Answered(h, calls, 0) && FreshlyPrepared(calls) && AdmittedOnce(calls) && rs == Executions(calls)
    && Admissions(calls) == (if admitted then 1 else 0)
    && (admitted ==> exists i :: 0 <= i < |calls| && calls[i].Admitted? && calls[i].ok)
    && (rs != [] ==> admitted)
  }

  lemma NothingYet(h: Hooks)
    ensures Orderly(h, [], false, []) && LastOk([])
  {}

  lemma LooksAreOrderly(h: Hooks, calls: Trace, admitted: bool, rs: seq<AttemptResult>, looks: Trace)
    requires Orderly(h, calls, admitted, rs) && OnlyLooks(looks) && Answered(h, calls + looks, 0)
    ensures Orderly(h, calls + looks, admitted, rs)
  {
    hide Answered, FreshlyPrepared, AdmittedOnce, Executions, Admissions;
    LooksChangeNothing(calls, looks);
    if admitted {
      var i :| 0 <= i < |calls| && calls[i].Admitted? && calls[i].ok;
      assert (calls + looks)[i].Admitted? && (calls + looks)[i].ok;
    }
  }

  lemma PreparedIsOrderly(h: Hooks, calls: Trace, admitted: bool, rs: seq<AttemptResult>, a: Attempt, ok: bool)
    requires Orderly(h, calls, admitted, rs) && ok == h.prepare(calls, a)
    ensures Orderly(h, calls + [Prepared(a, ok)], admitted, rs)
  {
    hide Answered, FreshlyPrepared, AdmittedOnce, Executions, Admissions;
    AnswerOne(h, calls, 0, Prepared(a, ok));
    ExecutionsStep(calls, Prepared(a, ok));
    CallKeeps(calls, Prepared(a, ok));
    if admitted {
      var i :| 0 <= i < |calls| && calls[i].Admitted? && calls[i].ok;
      assert (calls + [Prepared(a, ok)])[i].Admitted? && (calls + [Prepared(a, ok)])[i].ok;
    }
  }

  lemma PollIsOrderly(h: Hooks, calls: Trace, admitted: bool, rs: seq<AttemptResult>)
    requires Orderly(h, calls, admitted, rs)
    ensures Orderly(h, calls + [Polled(h.canceled(calls))], admitted, rs)
  {
    hide Answered, FreshlyPrepared, AdmittedOnce, Executions, Admissions, Orderly;
    AnswerOne(h, calls, 0, Polled(h.canceled(calls))) by { OrderlyAnswers(h, calls, admitted, rs); }
    LooksAreOrderly(h, calls, admitted, rs, [Polled(h.canceled(calls))]);
  }

  lemma OrderlyAnswers(h: Hooks, calls: Trace, admitted: bool, rs: seq<AttemptResult>)
    requires Orderly(h, calls, admitted, rs)
    ensures Answered(h, calls, 0) && FreshlyPrepared(calls) && AdmittedOnce(calls) && rs == Executions(calls)
    ensures rs != [] ==> admitted
  {}

  /** The first admission: accepted it admits the request, refused it ends the run. */
  lemma AdmissionIsOrderly(h: Hooks, calls: Trace, rs: seq<AttemptResult>, a: Attempt, ok: bool)
    requires Orderly(h, calls, false, rs) && ok == h.admit(calls, a)
    ensures ok ==> Orderly(h, calls + [Admitted(a, ok)], true, rs)
    ensures Ended(h, calls + [Admitted(a, ok)], ok, rs)
  {
    hide Answered, FreshlyPrepared, AdmittedOnce, Executions, Admissions;
    AnswerOne(h, calls, 0, Admitted(a, ok));
    ExecutionsStep(calls, Admitted(a, ok));
    AdmissionKeeps(calls, a, ok);
    assert (calls + [Admitted(a, ok)])[|calls|] == Admitted(a, ok);
    if !ok { NotAdmitted(calls, a); }
  }

  lemma NotAdmitted(calls: Trace, a: Attempt)
    requires Admissions(calls) == 0
    ensures forall i :: 0 <= i < |calls + [Admitted(a, false)]| ==>
              !((calls + [Admitted(a, false)])[i].Admitted? && (calls + [Admitted(a, false)])[i].ok)
  {
    NeverAdmitted(calls);
  }

  /** What a finished run reports about its trace. */
  predicate Ended(h: Hooks, calls: Trace, admitted: bool, rs: seq<AttemptResult>)
  {
    && Answered(h, calls, 0) && FreshlyPrepared(calls) && AdmittedOnce(calls) && rs == Executions(calls)
    && (admitted <==> exists i :: 0 <= i < |calls| && calls[i].Admitted? && calls[i].ok)
  }

  lemma OrderlyEnds(h: Hooks, calls: Trace, admitted: bool, rs: seq<AttemptResult>)
    requires Orderly(h, calls, admitted, rs)
    ensures Ended(h, calls, admitted, rs)
  {
    hide Answered, FreshlyPrepared, AdmittedOnce, Executions;
    if !admitted { NeverAdmitted(calls); }
  }

  lemma {:induction false} NeverAdmitted(calls: Trace)
    requires Admissions(calls) == 0
    ensures forall i :: 0 <= i < |calls| ==> !calls[i].Admitted?
    decreases |calls|
  {
    if |calls| > 0 { NeverAdmitted(calls[..|calls| - 1]); }
  }

  lemma PollEnds(h: Hooks, calls: Trace, admitted: bool, rs: seq<AttemptResult>)
    requires Ended(h, calls, admitted, rs)
    ensures Ended(h, calls + [Polled(h.canceled(calls))], admitted, rs)
  {
    hide Answered, FreshlyPrepared, AdmittedOnce, Executions;
    var poll := Polled(h.canceled(calls));
    AnswerOne(h, calls, 0, poll);
    ExecutionsStep(calls, poll);
    CallKeeps(calls, poll);
    var more := calls + [poll];
    assert forall i :: 0 <= i < |calls| ==> more[i] == calls[i];
    if admitted {
      var i :| 0 <= i < |calls| && calls[i].Admitted? && calls[i].ok;
      assert more[i].Admitted? && more[i].ok;
    }
  }

  /** A run ends with the look that finds the request canceled, or with the next one. */
  predicate CancelEnds(calls: Trace) { forall i :: 0 <= i < |calls| - 2 ==> calls[i] != Polled(true) }

  /** The answer that blocked a run, right before its last look. */
  predicate Refused(e: Error, calls: Trace)
  {
    && |calls| > 1 && calls[|calls| - 1] == Polled(false)
    && match e
       case ErrPrepare => calls[|calls| - 2].Prepared? && !calls[|calls| - 2].ok
       case ErrAdmission => calls[|calls| - 2].Admitted? && !calls[|calls| - 2].ok
       case ErrEligibility => CheckFailed(calls[..|calls| - 1])
       case ErrRandom => BadDraw(calls[..|calls| - 1])
       case ErrCanceled => calls[|calls| - 2] == Polled(true)
       case ErrExecution => false
  }

  datatype Permission = Go | Halt(stop: StopReason, error: Error)

  /** Asks for permission to execute: prepare every attempt, admit the request once. */
  method Dispatch(h: Hooks, before: Trace, a: Attempt, admitted: bool, ghost rs: seq<AttemptResult>)
    returns (r: Permission, calls: Trace, now: bool)
    requires Orderly(h, before, admitted, rs) && Uncanceled(before)
    ensures before <= calls && (r.Go? ==> before + [Prepared(a, true)] <= calls)
    ensures r.Go? ==> Uncanceled(calls) && |calls| > 0 && calls[|calls| - 1] == Polled(false)
    ensures r.Halt? ==> CancelEnds(calls) && (r.stop == Blocked ==> Refused(r.error, calls))
    ensures r.Go? ==>
              && now && Orderly(h, calls, true, rs)
              && exists j :: 0 <= j < |calls| && calls[j] == Prepared(a, true)
                   && forall k :: j < k < |calls| ==> calls[k].Polled? || calls[k].Admitted?
    ensures r.Halt? ==> Ended(h, calls, now, rs) && r.stop in {Canceled, Blocked} && (r.stop == Canceled <==> r.error == ErrCanceled)
    ensures r.Halt? ==> |calls| > 0 && calls[|calls| - 1] == Polled(r.stop == Canceled)
    ensures LastOk(calls) == LastOk(before)
  {
    hide Orderly, Ended, LastOk, Executions, Admissions;
    now := admitted;
    var ok := h.prepare(before, a);
    calls := before + [Prepared(a, ok)];
    ExecutionsStep(before, Prepared(a, ok));
    PreparedIsOrderly(h, before, admitted, rs, a, ok);
    if !ok {
      OrderlyEnds(h, calls, now, rs);
      r, calls := BlockedResult(h, calls, ErrPrepare, now, rs);
      return;
    }
    ghost var j := |before|;
    PollIsOrderly(h, calls, now, rs);
    var canceled := h.canceled(calls);
    ExecutionsStep(calls, Polled(canceled));
    calls := calls + [Polled(canceled)];
    if canceled {
      OrderlyEnds(h, calls, now, rs);
      return Halt(Canceled, ErrCanceled), calls, now;
    }
    if !now {
      var accepted := h.admit(calls, a);
      AdmissionIsOrderly(h, calls, rs, a, accepted);
      ExecutionsStep(calls, Admitted(a, accepted));
      calls := calls + [Admitted(a, accepted)];
      if !accepted {
        r, calls := BlockedResult(h, calls, ErrAdmission, now, rs);
        return;
      }
      now := true;
    }
    PollIsOrderly(h, calls, now, rs);
    canceled := h.canceled(calls);
    ExecutionsStep(calls, Polled(canceled));
    calls := calls + [Polled(canceled)];
    if canceled {
      OrderlyEnds(h, calls, now, rs);
      return Halt(Canceled, ErrCanceled), calls, now;
    }
    assert calls[j] == Prepared(a, true);
    return Go, calls, now;
  }

  /** A refusal, unless the request was canceled meanwhile. */
  method BlockedResult(h: Hooks, before: Trace, error: Error, admitted: bool, ghost rs: seq<AttemptResult>)
    returns (r: Permission, calls: Trace)
    requires Ended(h, before, admitted, rs) && error != ErrCanceled && Uncanceled(before)
    requires Refused(error, before + [Polled(false)])
    ensures Ended(h, calls, admitted, rs) && r.Halt? && r.stop in {Canceled, Blocked}
    ensures CancelEnds(calls) && (r.stop == Blocked ==> Refused(r.error, calls))
    ensures r.stop == Canceled <==> r.error == ErrCanceled
    ensures calls == before + [Polled(r.stop == Canceled)] && LastOk(calls) == LastOk(before)
  {
    hide Ended, LastOk, Executions, Admissions;
    var canceled := h.canceled(before);
    ExecutionsStep(before, Polled(canceled));
    PollEnds(h, before, admitted, rs);
    calls := before + [Polled(canceled)];
    if canceled { return Halt(Canceled, ErrCanceled), calls; }
    return Halt(Blocked, error), calls;
  }

  // ---------- the run ----------

  /** Every attempt so far may be followed by another. */
  predicate Open(p: Plan, state: Progress, rs: seq<AttemptResult>)
  {
    && |rs| < p.maxAttempts && Tracks(state, rs) && NoReuse(rs) && Numbered(p, rs)
    && forall i :: 0 <= i < |rs| ==> Retryable(rs[i].outcome)
  }

  /** What holds of the attempts when a run stops. */
  predicate Safe(p: Plan, rs: seq<AttemptResult>)
  {
    |rs| <= p.maxAttempts && ReplaySafe(rs) && NoReuse(rs) && Numbered(p, rs)
  }

  lemma OpenIsSafe(p: Plan, state: Progress, rs: seq<AttemptResult>)
    requires Open(p, state, rs)
    ensures Safe(p, rs)
  {}

  lemma OpenStart(p: Plan)
    requires ValidPlan(p)
    ensures Open(p, Progress({}, {}, {}, ""), [])
  {}

  lemma AllowedParts(p: Plan, state: Progress, number: int, a: Attempt)
    requires ValidPlan(p) && Allowed(p, state, number, a)
    ensures InPlan(p, a) && a.number == number && ValidId(a.target)
    ensures AttemptKey(a) !in state.attempted && a.credential !in state.credentials && a.connection !in state.connections
  {
    hide OneOwner, Ordered, DistinctIds;
    var i, j :| 0 <= i < |p.targets| && 0 <= j < |p.targets[i].credentials|
      && a == AttemptOf(p, number, p.targets[i], p.targets[i].credentials[j])
      && !Closed(state, p.targets[i]) && !Excluded(p, state, number, p.targets[i], p.targets[i].credentials[j]);
    assert ValidTarget(p.protocol, p.targets[i]);
  }

  /** A permitted attempt repeats no pair and uses nothing that failed. */
  lemma AttemptIsSafe(p: Plan, state: Progress, rs: seq<AttemptResult>, a: Attempt, o: Outcome)
    requires ValidPlan(p) && Open(p, state, rs) && Allowed(p, state, |rs| + 1, a)
    ensures Safe(p, rs + [AttemptResult(a, o)])
  {
    hide ValidPlan, InPlan, Allowed, ValidId, Retryable, AttemptKey;
    var more := rs + [AttemptResult(a, o)];
    AllowedParts(p, state, |rs| + 1, a);
    forall i | 0 <= i < |rs|
      ensures rs[i].attempt.target != a.target || rs[i].attempt.credential != a.credential
      ensures ConnectionFailed(rs[i]) ==> rs[i].attempt.connection != a.connection
      ensures CredentialFailed(rs[i]) ==> rs[i].attempt.credential != a.credential
    {
      SameKey(rs[i].attempt, a);
    }
    forall i, j | 0 <= i < j < |more|
      ensures more[i].attempt.target != more[j].attempt.target || more[i].attempt.credential != more[j].attempt.credential
      ensures ConnectionFailed(more[i]) ==> more[i].attempt.connection != more[j].attempt.connection
      ensures CredentialFailed(more[i]) ==> more[i].attempt.credential != more[j].attempt.credential
    {
      assert more[i] == rs[i];
      if j < |rs| { assert more[j] == rs[j]; }
    }
  }

  lemma SameKey(a: Attempt, b: Attempt)
    requires AttemptKey(a) != AttemptKey(b)
    ensures a.target != b.target || a.credential != b.credential
  {}

  /** The attempt may have had an effect, or was refused in a way that proves nothing. */
  predicate Uncertain(o: Outcome)
  {
    !NothingHappened(o) || (o.failure == CredentialRejected && o.work != RejectedWithoutWork)
  }

  predicate AllRetryable(rs: seq<AttemptResult>) { forall i :: 0 <= i < |rs| ==> Retryable(rs[i].outcome) }

  /** The run ended with an execution and a look after it. */
  predicate JustExecuted(calls: Trace)
  {
    |calls| > 1 && calls[|calls| - 2].Executed? && calls[|calls| - 1] == Polled(false)
  }

  /** After the attempts rs the trace ends with looks by which every target offers nothing. */
  predicate NothingLeft(p: Plan, rs: seq<AttemptResult>, calls: Trace)
  {
    exists i :: 0 <= i <= |calls| && Executions(calls[..i]) == rs && OnlyLooks(calls[i..]) && AllIdle(p, rs, calls[i..])
  }

  /** Attempt n was selected by the looks at [i, j), after exactly the attempts before it, and then prepared. */
  predicate ChosenIn(p: Plan, rs: seq<AttemptResult>, n: nat, calls: Trace, i: nat, j: nat)
    requires n < |rs| && i <= j < |calls|
  {
    && Executions(calls[..i]) == rs[..n] && OnlyLooks(calls[i..j]) && calls[j] == Prepared(rs[n].attempt, true)
    && exists k :: 0 <= k < |p.targets| && Selected(p, rs[..n], calls[i..j], rs[n].attempt, k)
  }

  predicate ChosenAt(p: Plan, rs: seq<AttemptResult>, n: nat, calls: Trace)
    requires n < |rs|
  {
    exists i, j :: 0 <= i <= j < |calls| && ChosenIn(p, rs, n, calls, i, j)
  }

  /** Every attempt is what the attempts before it and the answers of its round decide. */
  predicate Choices(p: Plan, rs: seq<AttemptResult>, calls: Trace)
  {
    forall n :: 0 <= n < |rs| ==> ChosenAt(p, rs, n, calls)
  }

  lemma NoChoices(p: Plan)
    ensures Choices(p, [], [])
  {}

  lemma ChoicesStay(p: Plan, rs: seq<AttemptResult>, calls: Trace, more: Trace)
    requires Choices(p, rs, calls) && calls <= more
    ensures Choices(p, rs, more)
  {
    hide Selected, Executions, OnlyLooks;
    forall n | 0 <= n < |rs| ensures ChosenAt(p, rs, n, more) {
      assert ChosenAt(p, rs, n, calls);
      var i, j :| 0 <= i <= j < |calls| && ChosenIn(p, rs, n, calls, i, j);
      assert more[..i] == calls[..i] && more[i..j] == calls[i..j];
      assert ChosenIn(p, rs, n, more, i, j);
    }
  }

  lemma ChoicesLonger(p: Plan, rs: seq<AttemptResult>, calls: Trace, later: Trace)
    requires Choices(p, rs, calls)
    ensures Choices(p, rs, calls + later)
  {
    hide Choices;
    ChoicesStay(p, rs, calls, calls + later);
  }

  lemma OneMoreChoice(p: Plan, rs: seq<AttemptResult>, calls: Trace, looks: Trace, more: Trace, r: AttemptResult, k: nat)
    requires Choices(p, rs, calls) && Executions(calls) == rs && OnlyLooks(looks)
    requires calls + looks + [Prepared(r.attempt, true)] <= more
    requires k < |p.targets| && Selected(p, rs, looks, r.attempt, k)
    ensures Choices(p, rs + [r], more)
  {
    hide Selected, Executions, OnlyLooks;
    ChoicesStay(p, rs, calls, more);
    var all := rs + [r];
    forall n | 0 <= n < |all| ensures ChosenAt(p, all, n, more) {
      if n < |rs| {
        assert ChosenAt(p, rs, n, more);
        var i, j :| 0 <= i <= j < |more| && ChosenIn(p, rs, n, more, i, j);
        assert all[..n] == rs[..n];
        assert ChosenIn(p, all, n, more, i, j);
      } else {
        var i, j := |calls|, |calls + looks|;
        assert more[..i] == calls && more[i..j] == looks && all[..n] == rs;
        assert ChosenIn(p, all, n, more, i, j);
      }
    }
  }

  /** After a rejected credential the next attempt is on the same target, unless that offered nothing. */
  lemma StaysOnTarget(p: Plan, rs: seq<AttemptResult>, calls: Trace, n: nat, k: nat)
    requires Choices(p, rs, calls) && n + 1 < |rs| && rs[n].outcome.failure == CredentialRejected
    requires k < |p.targets| && p.targets[k].id == rs[n].attempt.target
    ensures rs[n + 1].attempt.target == rs[n].attempt.target
            || exists i, j :: 0 <= i <= j < |calls| && ChosenIn(p, rs, n + 1, calls, i, j)
                              && Idle(p, rs[..n + 1], calls[i..j], p.targets[k])
  {
    hide Executions, OnlyLooks, Idle;
    assert ChosenAt(p, rs, n + 1, calls);
    var i, j :| 0 <= i <= j < |calls| && ChosenIn(p, rs, n + 1, calls, i, j);
    assert Favoured(rs[..n + 1]) == rs[n].attempt.target;
  }

  /** What the trace must look like for each way to stop. */
  predicate StopsBecause(p: Plan, r: Result, calls: Trace)
  {
    var rs := r.attempts;
    match r.stop
    case Succeeded => |rs| > 0 && JustExecuted(calls) && LastOk(calls) && rs[|rs| - 1].outcome.failure == Success
    case UnsafeToReplay =>
      && |rs| > 0 && JustExecuted(calls)
      && (!LastOk(calls) || (rs[|rs| - 1].outcome.failure != Success && Uncertain(rs[|rs| - 1].outcome)))
    case Permanent =>
      && |rs| > 0 && JustExecuted(calls) && LastOk(calls)
      && rs[|rs| - 1].outcome.failure == PermanentFailure && NothingHappened(rs[|rs| - 1].outcome)
    case Exhausted =>
      |rs| == p.maxAttempts && |rs| > 0 && JustExecuted(calls) && LastOk(calls) && Retryable(rs[|rs| - 1].outcome)
    case NoCandidates => |rs| < p.maxAttempts && LastOk(calls) && AllRetryable(rs) && NothingLeft(p, rs, calls)
    case Canceled => |calls| > 0 && calls[|calls| - 1] == Polled(true)
    case Blocked =>
      |rs| < p.maxAttempts && LastOk(calls) && AllRetryable(rs) && |calls| > 0 && calls[|calls| - 1] == Polled(false)
  }

  lemma NotYetCanceled()
    ensures Uncanceled([]) && CancelEnds([])
  {}

  lemma OneMoreCall(calls: Trace, call: Call)
    requires Uncanceled(calls)
    ensures CancelEnds(calls + [call]) && (call != Polled(true) ==> Uncanceled(calls + [call]))
  {}

  lemma UncanceledLooks(calls: Trace, looks: Trace)
    requires Uncanceled(calls) && Uncanceled(looks)
    ensures Uncanceled(calls + looks) && CancelEnds(calls + looks)
  {}

  /** A selection that failed, and the look after it. */
  lemma RefusedLooks(calls: Trace, looks: Trace, e: Error, canceled: bool)
    requires Uncanceled(calls) && (if e == ErrCanceled then JustCanceled(looks) else Uncanceled(looks))
    requires e == ErrCanceled || (e == ErrEligibility && CheckFailed(looks)) || (e == ErrRandom && BadDraw(looks))
    ensures CancelEnds(calls + looks + [Polled(canceled)])
    ensures !canceled ==> Refused(e, calls + looks + [Polled(canceled)])
  {
    var all := calls + looks + [Polled(canceled)];
    assert all[..|all| - 1] == calls + looks;
    forall i | 0 <= i < |all| - 2 ensures all[i] != Polled(true) {
      if i >= |calls| && e == ErrCanceled { assert all[i] == looks[..|looks| - 1][i - |calls|]; }
    }
  }

  lemma NoneIsLeft(p: Plan, state: Progress, rs: seq<AttemptResult>, calls: Trace, looks: Trace)
    requires ValidPlan(p) && Open(p, state, rs) && Executions(calls) == rs && OnlyLooks(looks)
    requires Candidates(p, state, |rs| + 1, looks, |p.targets|, [])
    ensures NothingLeft(p, rs, calls + looks)
  {
    hide ValidPlan, Tracks, Numbered, NoReuse, Retryable, Executions, OnlyLooks, Candidates, AllIdle;
    NothingOffered(p, state, rs, looks);
    var all := calls + looks;
    assert all[..|calls|] == calls && all[|calls|..] == looks;
  }

  /** The selection made the choice that the attempts and the answers decide. */
  lemma ChoiceIs(p: Plan, state: Progress, rs: seq<AttemptResult>, looks: Trace, cs: seq<Candidate>, a: Attempt)
    returns (k: nat)
    requires ValidPlan(p) && Open(p, state, rs) && Offered(p, state, |rs| + 1, looks, a)
    requires a.target != state.preferred ==>
               && Candidates(p, state, |rs| + 1, looks, |p.targets|, cs) && Permitted(p, state, |rs| + 1, cs)
               && DecidedByDraw(looks, cs, a)
    ensures k < |p.targets| && Selected(p, rs, looks, a, k)
  {
    hide ValidPlan, Numbered, NoReuse, Retryable, Candidates, Permitted, DecidedByDraw, Offered, Selected, Tried, Rejected, Broken, Favoured;
    if a.target == Favoured(rs) {
      k := FavouredIs(p, state, rs, looks, a);
    } else {
      k := DrawnIs(p, state, rs, looks, cs, a);
    }
  }

  lemma JustExecutedIs(calls: Trace, a: Attempt, o: Outcome, ok: bool)
    ensures JustExecuted(calls + [Executed(a, o, ok)] + [Polled(false)])
  {}

  /** What the outcome of an execution means for the run: to stop, or that another attempt may follow. */
  method Verdict(p: Plan, r: Result, outcome: Outcome, ok: bool, ghost calls: Trace) returns (stop: Option<StopReason>)
    requires 0 < |r.attempts| <= p.maxAttempts && r.attempts[|r.attempts| - 1].outcome == outcome
    requires JustExecuted(calls) && ok == LastOk(calls) && !outcome.failure.OtherFailure?
    ensures stop.Some? ==> StopsBecause(p, r.(stop := stop.value), calls)
    ensures stop.Some? ==> stop.value !in {Canceled, Blocked} && (stop.value == UnsafeToReplay || ok)
    ensures stop.None? ==> ok && Retryable(outcome) && |r.attempts| < p.maxAttempts
  {
    hide LastOk, JustExecuted;
    if !ok { return Some(UnsafeToReplay); }
    if outcome.failure == Success { return Some(Succeeded); }
    if outcome.outputStarted || outcome.finalUsageKnown || (outcome.work != NotSent && outcome.work != RejectedWithoutWork) {
      return Some(UnsafeToReplay);
    }
    if outcome.failure == CredentialRejected {
      if outcome.work != RejectedWithoutWork { return Some(UnsafeToReplay); }
    } else if outcome.failure != ConnectionFailure && outcome.failure != RateLimited {
      return Some(Permanent);
    }
    Repeatable(outcome);
    if |r.attempts| >= p.maxAttempts { return Some(Exhausted); }
    return None;
  }

  /** Runs attempts until one must not be repeated, none is left, or the budget is spent. */
  method Run(p: Plan, h: Hooks) returns (r: Result, error: Option<Error>, calls: Trace)
    requires ValidPlan(p)
    ensures Ended(h, calls, r.admitted, r.attempts)
    ensures Safe(p, r.attempts)
    ensures StopsBecause(p, r, calls)
    ensures Choices(p, r.attempts, calls)
    ensures CancelEnds(calls)
    ensures r.stop == Blocked ==> error.Some? && Refused(error.value, calls)
    ensures r.stop == UnsafeToReplay ==> (error.Some? <==> !LastOk(calls))
    ensures r.stop in {Canceled, Blocked} ==> error.Some?
    ensures error.Some? ==> r.stop in {Canceled, Blocked, UnsafeToReplay}
  {
    hide ValidPlan, Ended, Orderly, Safe, Open, Allowed, Answered, Executions, Candidates, Tracks, Recorded, Retryable;
    hide LastOk, Admissions, ValidOutcome, AllRetryable, Offered, Permitted, DecidedByDraw, BadDraw, Excluding, OnlyLooks;
    hide Choices, Uncanceled, CancelEnds, Refused, JustCanceled, CheckFailed, NothingLeft, AllIdle, Selected;
    hide JustExecuted;
    calls := [];
    r := Result(false, [], NoCandidates);
    error := None;
    var state := Progress({}, {}, {}, "");
    NothingYet(h);
    OpenStart(p);
    NoChoices(p);
    NotYetCanceled();
    while true
      invariant Orderly(h, calls, r.admitted, r.attempts) && Open(p, state, r.attempts) && LastOk(calls)
      invariant Choices(p, r.attempts, calls) && Uncanceled(calls)
      decreases p.maxAttempts - |r.attempts|
    {
      ghost var rs := r.attempts;
      OpenIsSafe(p, state, rs);
      OpenBudget(p, state, rs);
      PollIsOrderly(h, calls, r.admitted, rs);
      var canceled := h.canceled(calls);
      ExecutionsStep(calls, Polled(canceled));
      OneMoreCall(calls, Polled(canceled));
      ChoicesLonger(p, rs, calls, [Polled(canceled)]);
      calls := calls + [Polled(canceled)];
      OrderlyEnds(h, calls, r.admitted, rs);
      if canceled {
        r := r.(stop := Canceled);
        assert StopsBecause(p, r, calls);
        return r, Some(ErrCanceled), calls;
      }
      OrderlyAnswers(h, calls, r.admitted, rs);
      var choice, looks, candidates := SelectAttempt(p, state, |r.attempts| + 1, h, calls);
      LooksAreOrderly(h, calls, r.admitted, rs, looks);
      LooksKeepOk(calls, looks);
      ghost var asked := calls;
      OrderlyAnswers(h, calls, r.admitted, rs);
      ChoicesLonger(p, rs, calls, looks);
      calls := calls + looks;
      OrderlyEnds(h, calls, r.admitted, rs);
      if choice.Failed? {
        PollEnds(h, calls, r.admitted, rs);
        canceled := h.canceled(calls);
        ExecutionsStep(calls, Polled(canceled));
        RefusedLooks(asked, looks, choice.error, canceled);
        ChoicesLonger(p, rs, calls, [Polled(canceled)]);
        calls := calls + [Polled(canceled)];
        r := r.(stop := if canceled then Canceled else Blocked);
        assert StopsBecause(p, r, calls);
        return r, Some(choice.error), calls;
      }
      UncanceledLooks(asked, looks);
      if choice == NoneLeft {
        NoneIsLeft(p, state, rs, asked, looks);
        r := r.(stop := NoCandidates);
        assert StopsBecause(p, r, calls);
        return r, None, calls;
      }
      var attempt := choice.attempt;
      ghost var k := ChoiceIs(p, state, rs, looks, candidates, attempt);
      var permission, called, admitted := Dispatch(h, calls, attempt, r.admitted, rs);
      ChoicesStay(p, rs, calls, called);
      calls := called;
      r := r.(admitted := admitted);
      if permission.Halt? {
        r := r.(stop := permission.stop);
        assert StopsBecause(p, r, calls);
        return r, Some(permission.error), calls;
      }
      var executed := h.execute(calls, attempt);
      var outcome, ok := Recorded(executed.0), executed.1 && ValidOutcome(executed.0);
      ExecutedIsOrderly(h, calls, rs, attempt, executed.0, executed.1);
      AttemptIsSafe(p, state, rs, attempt, outcome);
      OneMoreChoice(p, rs, asked, looks, calls, AttemptResult(attempt, outcome), k);
      JustExecutedIs(calls, attempt, executed.0, executed.1);
      RecordedFailure(executed.0);
      ExecutionsStep(calls, Executed(attempt, executed.0, executed.1));
      OneMoreCall(calls, Executed(attempt, executed.0, executed.1));
      ChoicesLonger(p, rs + [AttemptResult(attempt, outcome)], calls, [Executed(attempt, executed.0, executed.1)]);
      calls := calls + [Executed(attempt, executed.0, executed.1)];
      r := r.(attempts := r.attempts + [AttemptResult(attempt, outcome)]);
      PollIsOrderly(h, calls, true, r.attempts);
      canceled := h.canceled(calls);
      ExecutionsStep(calls, Polled(canceled));
      OneMoreCall(calls, Polled(canceled));
      ChoicesLonger(p, r.attempts, calls, [Polled(canceled)]);
      calls := calls + [Polled(canceled)];
      OrderlyEnds(h, calls, true, r.attempts);
      if canceled {
        r := r.(stop := Canceled);
        assert StopsBecause(p, r, calls);
        return r, Some(ErrCanceled), calls;
      }
      var stop := Verdict(p, r, outcome, ok, calls);
      if stop.Some? {
        r := r.(stop := stop.value);
        return r, if ok then None else Some(ErrExecution), calls;
      }
      OpenAgain(p, state, rs, attempt, outcome);
      state := Excluding(state, attempt, outcome);
    }
  }

  lemma ExecutedIsOrderly(h: Hooks, calls: Trace, rs: seq<AttemptResult>, a: Attempt, o: Outcome, ok: bool)
    requires Orderly(h, calls, true, rs) && (o, ok) == h.execute(calls, a)
    requires |calls| > 0 && calls[|calls| - 1] == Polled(false)
    requires exists j :: 0 <= j < |calls| && calls[j] == Prepared(a, true)
               && forall k :: j < k < |calls| ==> calls[k].Polled? || calls[k].Admitted?
    ensures Orderly(h, calls + [Executed(a, o, ok)], true, rs + [AttemptResult(a, Recorded(o))])
  {
    hide Answered, FreshlyPrepared, AdmittedOnce, Executions, Admissions;
    var call := Executed(a, o, ok);
    var j :| 0 <= j < |calls| && calls[j] == Prepared(a, true)
      && forall k :: j < k < |calls| ==> calls[k].Polled? || calls[k].Admitted?;
    AnswerOne(h, calls, 0, call);
    ExecutionsStep(calls, call);
    ExecutionKeeps(calls, a, o, ok, j);
    var i :| 0 <= i < |calls| && calls[i].Admitted? && calls[i].ok;
    assert (calls + [call])[i].Admitted? && (calls + [call])[i].ok;
  }

  lemma Repeatable(o: Outcome)
    requires NothingHappened(o)
    requires o.failure == ConnectionFailure || o.failure == RateLimited
             || (o.failure == CredentialRejected && o.work == RejectedWithoutWork)
    ensures Retryable(o)
  {}

  /** What is recorded of an outcome: itself when it is a known one, and otherwise a permanent failure
      of unknown effect with the same output and usage. */
  lemma RecordedMeaning(o: Outcome)
    ensures Recorded(o).outputStarted == o.outputStarted && Recorded(o).finalUsageKnown == o.finalUsageKnown
    ensures if o.failure.OtherFailure? || o.work.OtherWork?
            then Recorded(o).failure == PermanentFailure && Recorded(o).work == Unknown
            else Recorded(o) == o
  {}

  lemma RecordedFailure(o: Outcome)
    ensures !Recorded(o).failure.OtherFailure?
  {}

  lemma OpenBudget(p: Plan, state: Progress, rs: seq<AttemptResult>)
    requires Open(p, state, rs)
    ensures |rs| < p.maxAttempts && AllRetryable(rs)
  {}

  lemma OpenAgain(p: Plan, state: Progress, rs: seq<AttemptResult>, a: Attempt, o: Outcome)
    requires Open(p, state, rs) && Safe(p, rs + [AttemptResult(a, o)]) && Retryable(o) && |rs| + 1 < p.maxAttempts
    ensures Open(p, Excluding(state, a, o), rs + [AttemptResult(a, o)])
  {
    hide Retryable, AttemptKey, InPlan, NoReuse, Tracks, Excluding;
    TracksOneMore(state, rs, a, o);
  }
}
