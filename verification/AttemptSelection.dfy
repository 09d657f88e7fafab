/** Choosing the next attempt: one candidate per open target, then an exact weighted draw. */
module AttemptSelection {
  import opened Wrappers
  import opened AttemptPlan
  import opened Totals

  // ---------- weights ----------

  predicate Positive(ws: seq<int>) { forall i :: 0 <= i < |ws| ==> ws[i] > 0 }

  /** The index whose weight the pick falls into. */
  function PickIndex(ws: seq<int>, pick: int): (i: nat)
    requires 0 <= pick < Sum(ws)
    ensures i < |ws|
  {
    if pick < ws[0] then 0 else 1 + PickIndex(ws[1..], pick - ws[0])
  }

  lemma {:induction false} SumNonNegative(ws: seq<int>)
    requires Positive(ws)
    ensures 0 <= Sum(ws) && (|ws| > 0 ==> 0 < Sum(ws))
    decreases |ws|
  {
    if |ws| > 0 { SumNonNegative(ws[1..]); }
  }

  /** The draws in [0, total) that select candidate i. */
  function Draws(ws: seq<int>, i: nat): (ds: set<int>)
  {
    set d | 0 <= d < Sum(ws) && PickIndex(ws, d) == i
  }

  /** Where the interval of candidate i starts. */
  function Start(ws: seq<int>, i: nat): (n: int)
    requires i <= |ws|
  {
    Sum(ws[..i])
  }

  lemma {:induction false} PickInterval(ws: seq<int>, i: nat, d: int)
    requires Positive(ws) && i < |ws| && 0 <= d < Sum(ws)
    ensures PickIndex(ws, d) == i <==> Start(ws, i) <= d < Start(ws, i) + ws[i]
    ensures Start(ws, i) >= 0 && Start(ws, i) + ws[i] <= Sum(ws)
    decreases |ws|
  {
    SumNonNegative(ws[1..]);
    SumNonNegative(ws[..i]);
    if i == 0 {
      assert ws[..0] == [];
    } else {
      assert ws[..i][1..] == ws[1..][..i - 1] && ws[..i][0] == ws[0];
      SumNonNegative(ws[1..][..i - 1]);
      if d >= ws[0] {
        PickInterval(ws[1..], i - 1, d - ws[0]);
      } else {
        PickInterval(ws[1..], i - 1, 0);
      }
    }
  }

  function Interval(lo: int, hi: int): (s: set<int>)
    ensures forall d :: d in s <==> lo <= d < hi
    decreases hi - lo
  {
    if lo >= hi then {} else Interval(lo, hi - 1) + {hi - 1}
  }

  lemma {:induction false} IntervalCard(lo: int, hi: int)
    requires lo <= hi
    ensures |Interval(lo, hi)| == hi - lo
    decreases hi - lo
  {
    if lo < hi {
      IntervalCard(lo, hi - 1);
      assert hi - 1 !in Interval(lo, hi - 1);
    }
  }

  /** Each candidate is selected by exactly as many draws as its weight. */
  lemma ExactWeights(ws: seq<int>, i: nat)
    requires Positive(ws) && i < |ws|
    ensures |Draws(ws, i)| == ws[i]
  {
    SumNonNegative(ws);
    var lo, hi := Start(ws, i), Start(ws, i) + ws[i];
    PickInterval(ws, i, 0);
    forall d ensures d in Draws(ws, i) <==> lo <= d < hi {
      if 0 <= d < Sum(ws) { PickInterval(ws, i, d); }
    }
    assert Draws(ws, i) == Interval(lo, hi);
    IntervalCard(lo, hi);
  }

  // ---------- candidates ----------

  function AttemptOf(p: Plan, number: int, t: Target, c: Credential): (a: Attempt)
  {
    Attempt(number, t.id, t.connection, c.id, p.protocol)
  }

  function AttemptKey(a: Attempt): (k: string) { a.target + "\0" + a.credential }

  /** Keys tell target and credential apart: ids contain no separator. */
  lemma AttemptKeyInjective(a: Attempt, b: Attempt)
    requires ValidId(a.target) && ValidId(b.target) && AttemptKey(a) == AttemptKey(b)
    ensures a.target == b.target && a.credential == b.credential
  {
    SeparatorAfter(a, b);
    SeparatorAfter(b, a);
    assert AttemptKey(a)[..|a.target|] == a.target && AttemptKey(b)[..|b.target|] == b.target;
    assert AttemptKey(a)[|a.target| + 1..] == a.credential && AttemptKey(b)[|b.target| + 1..] == b.credential;
  }

  lemma SeparatorAfter(a: Attempt, b: Attempt)
    requires ValidId(b.target) && AttemptKey(a) == AttemptKey(b)
    ensures |b.target| <= |a.target|
  {
    assert AttemptKey(a)[|a.target|] == '\0';
    assert forall i :: 0 <= i < |b.target| ==> AttemptKey(b)[i] == b.target[i] != '\0';
  }

  predicate Closed(state: Progress, t: Target) { t.weight == 0 || t.connection in state.connections }

  /** A credential that an earlier attempt excluded, for this target or for all. */
  predicate Excluded(p: Plan, state: Progress, number: int, t: Target, c: Credential)
  {
    c.id in state.credentials || AttemptKey(AttemptOf(p, number, t, c)) in state.attempted
  }

  /** Every credential before the n-th was excluded or declined. */
  predicate Declined(p: Plan, state: Progress, number: int, seen: Trace, t: Target, n: nat)
    requires n <= |t.credentials|
  {
    forall j :: 0 <= j < n && !Excluded(p, state, number, t, t.credentials[j]) ==>
      Asked(AttemptOf(p, number, t, t.credentials[j]), No) in seen
  }

  /** The target's first credential in order that is neither excluded nor declined: the least by
      priority and id, since a plan keeps its credentials ordered. */
  predicate Offers(p: Plan, state: Progress, number: int, seen: Trace, t: Target, a: Attempt)
  {
    exists j :: 0 <= j < |t.credentials| && a == AttemptOf(p, number, t, t.credentials[j])
      && !Excluded(p, state, number, t, t.credentials[j])
      && Asked(a, Yes) in seen && Declined(p, state, number, seen, t, j)
  }

  datatype Candidate = Candidate(attempt: Attempt, weight: int)

  /** The candidates of the first n targets, in the plan's order. */
  predicate Candidates(p: Plan, state: Progress, number: int, seen: Trace, n: nat, cs: seq<Candidate>)
    requires n <= |p.targets|
    decreases n
  {
    if n == 0 then cs == []
    else
      var t := p.targets[n - 1];
      if Closed(state, t) || Declined(p, state, number, seen, t, |t.credentials|) then
        Candidates(p, state, number, seen, n - 1, cs)
      else
        |cs| > 0 && cs[|cs| - 1].weight == t.weight && Offers(p, state, number, seen, t, cs[|cs| - 1].attempt)
        && Candidates(p, state, number, seen, n - 1, cs[..|cs| - 1])
  }

  /** An attempt that the plan contains and nothing excludes. */
  predicate Allowed(p: Plan, state: Progress, number: int, a: Attempt)
  {
    exists i, j :: 0 <= i < |p.targets| && 0 <= j < |p.targets[i].credentials|
      && a == AttemptOf(p, number, p.targets[i], p.targets[i].credentials[j])
      && !Closed(state, p.targets[i]) && !Excluded(p, state, number, p.targets[i], p.targets[i].credentials[j])
  }

  /** The attempt is what some open target offers: on that target, its least credential by priority
      and id that is neither excluded nor declined. */
  predicate Offered(p: Plan, state: Progress, number: int, seen: Trace, a: Attempt)
  {
    exists i :: 0 <= i < |p.targets| && !Closed(state, p.targets[i]) && Offers(p, state, number, seen, p.targets[i], a)
      && !Declined(p, state, number, seen, p.targets[i], |p.targets[i].credentials|)
  }

  lemma {:induction false} CandidatesOffered(p: Plan, state: Progress, number: int, seen: Trace, n: nat,
                                             cs: seq<Candidate>, i: nat)
    requires n <= |p.targets| && Candidates(p, state, number, seen, n, cs) && i < |cs|
    ensures Offered(p, state, number, seen, cs[i].attempt)
    decreases n
  {
    hide Closed, Declined, Offers;
    if n > 0 {
      var t := p.targets[n - 1];
      if Closed(state, t) || Declined(p, state, number, seen, t, |t.credentials|) {
        CandidatesOffered(p, state, number, seen, n - 1, cs, i);
      } else if i < |cs| - 1 {
        CandidatesOffered(p, state, number, seen, n - 1, cs[..|cs| - 1], i);
      }
    }
  }

  datatype Choice = Chosen(attempt: Attempt) | NoneLeft | Failed(error: Error)

  /** A selection looks, asks and draws; it prepares, admits and executes nothing. */
  predicate OnlyLooks(calls: Trace)
  {
    forall i :: 0 <= i < |calls| ==> calls[i].Polled? || calls[i].Asked? || calls[i].Drawn?
  }

  /** No look so far found the request canceled. */
  predicate Uncanceled(calls: Trace) { forall i :: 0 <= i < |calls| ==> calls[i] != Polled(true) }

  /** The last look was the first to find the request canceled. */
  predicate JustCanceled(calls: Trace)
  {
    |calls| > 0 && calls[|calls| - 1] == Polled(true) && Uncanceled(calls[..|calls| - 1])
  }

  /** The last answer was an error of the eligibility check, not caused by cancellation. */
  predicate CheckFailed(calls: Trace)
  {
    && |calls| > 1 && calls[|calls| - 1] == Polled(false)
    && calls[|calls| - 2].Asked? && calls[|calls| - 2].answer == Fails
  }

  /** Every call got the answer that the hooks give at that point. */
  predicate Answered(h: Hooks, calls: Trace, from: nat)
  {
    forall i :: from <= i < |calls| ==>
      match calls[i]
      case Polled(c) => c == h.canceled(calls[..i])
      case Asked(a, answer) => answer == h.eligible(calls[..i], a)
      case Drawn(total, pick) => pick == h.draw(calls[..i], total)
      case Prepared(a, ok) => ok == h.prepare(calls[..i], a)
      case Admitted(a, ok) => ok == h.admit(calls[..i], a)
      case Executed(a, outcome, ok) => (outcome, ok) == h.execute(calls[..i], a)
  }

  lemma AnswerOne(h: Hooks, calls: Trace, from: nat, call: Call)
    requires Answered(h, calls, from)
    requires match call
             case Polled(c) => c == h.canceled(calls)
             case Asked(a, answer) => answer == h.eligible(calls, a)
             case Drawn(total, pick) => pick == h.draw(calls, total)
             case Prepared(a, ok) => ok == h.prepare(calls, a)
             case Admitted(a, ok) => ok == h.admit(calls, a)
             case Executed(a, outcome, ok) => (outcome, ok) == h.execute(calls, a)
    ensures Answered(h, calls + [call], from)
  {
    var more := calls + [call];
    forall i | 0 <= i < |calls| ensures more[..i] == calls[..i] && more[i] == calls[i] {}
    assert more[..|calls|] == calls;
  }

  // ---------- selection ----------

  /** Nothing in the calls is a question about credential j of target t or a later one. */
  predicate Unasked(p: Plan, number: int, calls: Trace, t: Target, n: nat)
  {
    forall i :: 0 <= i < |calls| && calls[i].Asked? ==>
      forall j :: n <= j < |t.credentials| ==> calls[i].attempt != AttemptOf(p, number, t, t.credentials[j])
  }

  predicate AboutTargets(p: Plan, calls: Trace, n: nat)
    requires n <= |p.targets|
  {
    forall i :: 0 <= i < |calls| && calls[i].Asked? ==> exists k :: 0 <= k < n && calls[i].attempt.target == p.targets[k].id
  }

  /** Asks about one open target's credentials in order, until one is eligible. */
  method AskTarget(p: Plan, state: Progress, number: int, h: Hooks, before: Trace, n: nat)
    returns (selected: Option<Attempt>, error: Option<Error>, calls: Trace)
    requires ValidPlan(p) && n < |p.targets| && !Closed(state, p.targets[n])
    ensures OnlyLooks(calls) && (Answered(h, before, 0) ==> Answered(h, before + calls, 0))
    ensures forall i :: 0 <= i < |calls| && calls[i].Asked? ==> calls[i].attempt.target == p.targets[n].id
    ensures error.Some? ==> selected.None? && (error.value == ErrCanceled || error.value == ErrEligibility)
    ensures if error == Some(ErrCanceled) then JustCanceled(calls) else Uncanceled(calls)
    ensures error == Some(ErrEligibility) ==> CheckFailed(calls)
    ensures error.None? && selected.None? ==>
              Declined(p, state, number, calls, p.targets[n], |p.targets[n].credentials|)
    ensures selected.Some? ==>
              && Offers(p, state, number, calls, p.targets[n], selected.value)
              && !Declined(p, state, number, calls, p.targets[n], |p.targets[n].credentials|)
              && selected.value.target == p.targets[n].id
              && Allowed(p, state, number, selected.value)
  {
    hide ValidPlan, Answered, Declined, Excluded, Unasked;
    var t := p.targets[n];
    calls := [];
    assert before + calls == before;
    NothingAsked(p, state, number, t);
    var j := 0;
    while j < |t.credentials|
      invariant 0 <= j <= |t.credentials|
      invariant OnlyLooks(calls) && (Answered(h, before, 0) ==> Answered(h, before + calls, 0))
      invariant Uncanceled(calls)
      invariant forall i :: 0 <= i < |calls| && calls[i].Asked? ==> calls[i].attempt.target == t.id
      invariant Declined(p, state, number, calls, t, j) && Unasked(p, number, calls, t, j)
    {
      var a := AttemptOf(p, number, t, t.credentials[j]);
      if Excluded(p, state, number, t, t.credentials[j]) {
        SkipExcluded(p, state, number, calls, t, j);
      } else {
        var canceled := h.canceled(before + calls);
        if Answered(h, before, 0) { AnswerOne(h, before + calls, 0, Polled(canceled)); }
        assert before + calls + [Polled(canceled)] == before + (calls + [Polled(canceled)]);
        KeepPolling(p, state, number, calls, t, j, canceled);
        calls := calls + [Polled(canceled)];
        if canceled { return None, Some(ErrCanceled), calls; }
        var answer := h.eligible(before + calls, a);
        if Answered(h, before, 0) { AnswerOne(h, before + calls, 0, Asked(a, answer)); }
        assert before + calls + [Asked(a, answer)] == before + (calls + [Asked(a, answer)]);
        AskOne(p, state, number, calls, t, j, answer);
        calls := calls + [Asked(a, answer)];
        if answer == Fails {
          canceled := h.canceled(before + calls);
          if Answered(h, before, 0) { AnswerOne(h, before + calls, 0, Polled(canceled)); }
          assert before + calls + [Polled(canceled)] == before + (calls + [Polled(canceled)]);
          calls := calls + [Polled(canceled)];
          return None, Some(if canceled then ErrCanceled else ErrEligibility), calls;
        }
        if answer == Yes { return Some(a), None, calls; }
      }
      j := j + 1;
    }
    return None, None, calls;
  }

  lemma NothingAsked(p: Plan, state: Progress, number: int, t: Target)
    ensures Declined(p, state, number, [], t, 0) && Unasked(p, number, [], t, 0)
  {}

  lemma SkipExcluded(p: Plan, state: Progress, number: int, calls: Trace, t: Target, j: nat)
    requires j < |t.credentials| && Declined(p, state, number, calls, t, j) && Unasked(p, number, calls, t, j)
    requires Excluded(p, state, number, t, t.credentials[j])
    ensures Declined(p, state, number, calls, t, j + 1) && Unasked(p, number, calls, t, j + 1)
  {
    hide Excluded;
  }

  lemma KeepPolling(p: Plan, state: Progress, number: int, calls: Trace, t: Target, j: nat, canceled: bool)
    requires j <= |t.credentials| && Declined(p, state, number, calls, t, j) && Unasked(p, number, calls, t, j)
    ensures Declined(p, state, number, calls + [Polled(canceled)], t, j)
    ensures Unasked(p, number, calls + [Polled(canceled)], t, j)
  {
    hide Excluded;
  }

  /** One answer: the target declines so far, or offers this credential and does not decline. */
  lemma AskOne(p: Plan, state: Progress, number: int, calls: Trace, t: Target, j: nat, answer: Answer)
    requires ValidPlan(p) && t in p.targets && j < |t.credentials| && !Closed(state, t)
    requires Declined(p, state, number, calls, t, j) && Unasked(p, number, calls, t, j)
    requires !Excluded(p, state, number, t, t.credentials[j])
    ensures var a := AttemptOf(p, number, t, t.credentials[j]);
            var more := calls + [Asked(a, answer)];
            && (answer == No ==> Declined(p, state, number, more, t, j + 1) && Unasked(p, number, more, t, j + 1))
            && (answer == Yes ==>
                  && Offers(p, state, number, more, t, a) && !Declined(p, state, number, more, t, |t.credentials|)
                  && Allowed(p, state, number, a))
  {
    hide Excluded, Closed, Ordered, OneOwner, ValidId;
    var a := AttemptOf(p, number, t, t.credentials[j]);
    var more := calls + [Asked(a, answer)];
    assert Asked(a, answer) == more[|calls|];
    assert forall x :: x in calls ==> x in more;
    assert DistinctIds(t.credentials) by {
      var i :| 0 <= i < |p.targets| && p.targets[i] == t;
      assert ValidTarget(p.protocol, p.targets[i]);
    }
    assert forall k :: j < k < |t.credentials| ==> AttemptOf(p, number, t, t.credentials[k]) != a;
    if answer == Yes {
      assert Asked(a, No) !in more by {
        forall i | 0 <= i < |more| ensures more[i] != Asked(a, No) {}
      }
      var i :| 0 <= i < |p.targets| && p.targets[i] == t;
      assert a == AttemptOf(p, number, p.targets[i], p.targets[i].credentials[j]);
    }
  }

  /** Answers about other targets change neither what a target declined nor what it offers. */
  lemma OtherAnswers(p: Plan, state: Progress, number: int, seen: Trace, calls: Trace, t: Target)
    requires forall i :: 0 <= i < |calls| && calls[i].Asked? ==> calls[i].attempt.target != t.id
    ensures forall n :: 0 <= n <= |t.credentials| ==>
              (Declined(p, state, number, seen + calls, t, n) <==> Declined(p, state, number, seen, t, n))
    ensures forall a :: Offers(p, state, number, seen, t, a) ==> Offers(p, state, number, seen + calls, t, a)
  {
    hide Excluded;
    forall j, answer | 0 <= j < |t.credentials|
      ensures Asked(AttemptOf(p, number, t, t.credentials[j]), answer) in seen + calls
              <==> Asked(AttemptOf(p, number, t, t.credentials[j]), answer) in seen
    {
      forall i | 0 <= i < |calls| ensures calls[i] != Asked(AttemptOf(p, number, t, t.credentials[j]), answer) {}
    }
  }

  lemma {:induction false} LaterAnswers(p: Plan, state: Progress, number: int, seen: Trace, calls: Trace, n: nat, cs: seq<Candidate>)
    requires n <= |p.targets| && Candidates(p, state, number, seen, n, cs)
    requires forall i, k :: 0 <= i < |calls| && calls[i].Asked? && 0 <= k < n ==> calls[i].attempt.target != p.targets[k].id
    ensures Candidates(p, state, number, seen + calls, n, cs)
    decreases n
  {
    hide Declined, Offers, Closed;
    if n > 0 {
      OtherAnswers(p, state, number, seen, calls, p.targets[n - 1]);
      var t := p.targets[n - 1];
      if Closed(state, t) || Declined(p, state, number, seen, t, |t.credentials|) {
        LaterAnswers(p, state, number, seen, calls, n - 1, cs);
      } else {
        LaterAnswers(p, state, number, seen, calls, n - 1, cs[..|cs| - 1]);
      }
    }
  }

  function Weights(cs: seq<Candidate>): (ws: seq<int>)
  {
    seq(|cs|, i requires 0 <= i < |cs| => cs[i].weight)
  }

  /** Every candidate is a permitted attempt of positive weight on another than the preferred target. */
  predicate Permitted(p: Plan, state: Progress, number: int, cs: seq<Candidate>)
  {
    forall i :: 0 <= i < |cs| ==>
      cs[i].weight > 0 && Allowed(p, state, number, cs[i].attempt) && cs[i].attempt.target != state.preferred
  }

  /** The draw that decided: from the total weight of all candidates, in range. */
  predicate DecidedByDraw(calls: Trace, cs: seq<Candidate>, a: Attempt)
  {
    && |calls| > 0 && calls[|calls| - 1].Drawn? && calls[|calls| - 1].total == Sum(Weights(cs))
    && calls[|calls| - 1].pick.Some? && 0 <= calls[|calls| - 1].pick.value < Sum(Weights(cs))
    && a == cs[PickIndex(Weights(cs), calls[|calls| - 1].pick.value)].attempt
  }

  /** The draw failed or was out of range. */
  predicate BadDraw(calls: Trace)
  {
    && |calls| > 0 && calls[|calls| - 1].Drawn?
    && (calls[|calls| - 1].pick.None? || !(0 <= calls[|calls| - 1].pick.value < calls[|calls| - 1].total))
  }

  /** Stays on the preferred target when it offers a credential; otherwise draws among the
      candidates of all open targets. */
  method SelectAttempt(p: Plan, state: Progress, number: int, h: Hooks, before: Trace)
    returns (choice: Choice, calls: Trace, candidates: seq<Candidate>)
    requires ValidPlan(p)
    ensures OnlyLooks(calls) && (Answered(h, before, 0) ==> Answered(h, before + calls, 0))
    ensures choice.Chosen? ==> Allowed(p, state, number, choice.attempt)
    ensures choice.Chosen? ==> Offered(p, state, number, calls, choice.attempt)
    ensures choice == NoneLeft ==> Candidates(p, state, number, calls, |p.targets|, [])
    ensures choice.Chosen? && choice.attempt.target != state.preferred ==>
              && Candidates(p, state, number, calls, |p.targets|, candidates)
              && Permitted(p, state, number, candidates)
              && DecidedByDraw(calls, candidates, choice.attempt)
    ensures if choice == Failed(ErrCanceled) then JustCanceled(calls) else Uncanceled(calls)
    ensures choice == Failed(ErrEligibility) ==> CheckFailed(calls)
    ensures choice == Failed(ErrRandom) ==> BadDraw(calls)
    ensures choice.Failed? ==> choice.error in {ErrCanceled, ErrEligibility, ErrRandom}
  {
    hide ValidPlan, Answered, Candidates, Allowed, Declined, Offers, Closed;
    calls, candidates := [], [];
    assert before + calls == before;
    NoCandidates(p, state, number);
    var total := 0;
    var i := 0;
    while i < |p.targets|
      invariant 0 <= i <= |p.targets|
      invariant OnlyLooks(calls) && (Answered(h, before, 0) ==> Answered(h, before + calls, 0))
      invariant AboutTargets(p, calls, i) && Uncanceled(calls)
      invariant Candidates(p, state, number, calls, i, candidates) && Permitted(p, state, number, candidates)
      invariant total == Sum(Weights(candidates))
    {
      var t := p.targets[i];
      if Closed(state, t) {
        ClosedTarget(p, state, number, calls, i, candidates);
      } else {
        var selected, error, asked := AskTarget(p, state, number, h, before + calls, i);
        assert before + calls + asked == before + (calls + asked);
        AnswersAdded(p, state, number, calls, asked, i, candidates, selected);
        ghost var earlier := calls;
        calls := calls + asked;
        if error.Some? {
          assert error.value == ErrCanceled ==> calls[..|calls| - 1] == earlier + asked[..|asked| - 1];
          return Failed(error.value), calls, candidates;
        }
        if selected.Some? {
          if selected.value.target == state.preferred {
            assert Offered(p, state, number, calls, selected.value);
            return Chosen(selected.value), calls, candidates;
          }
          assert Weights(candidates + [Candidate(selected.value, t.weight)]) == Weights(candidates) + [t.weight];
          SumAppend(Weights(candidates), t.weight);
          candidates := candidates + [Candidate(selected.value, t.weight)];
          total := total + t.weight;
        }
      }
      i := i + 1;
    }
    if |candidates| == 0 { return NoneLeft, calls, candidates; }
    var canceled := h.canceled(before + calls);
    if Answered(h, before, 0) { AnswerOne(h, before + calls, 0, Polled(canceled)); }
    assert before + calls + [Polled(canceled)] == before + (calls + [Polled(canceled)]);
    LaterAnswers(p, state, number, calls, [Polled(canceled)], |p.targets|, candidates);
    calls := calls + [Polled(canceled)];
    if canceled { return Failed(ErrCanceled), calls, candidates; }
    var pick := h.draw(before + calls, total);
    if Answered(h, before, 0) { AnswerOne(h, before + calls, 0, Drawn(total, pick)); }
    assert before + calls + [Drawn(total, pick)] == before + (calls + [Drawn(total, pick)]);
    LaterAnswers(p, state, number, calls, [Drawn(total, pick)], |p.targets|, candidates);
    calls := calls + [Drawn(total, pick)];
    if pick.None? || pick.value < 0 || pick.value >= total { return Failed(ErrRandom), calls, candidates; }
    var k := WeighedPick(Weights(candidates), pick.value);
    CandidatesOffered(p, state, number, calls, |p.targets|, candidates, k);
    return Chosen(candidates[k].attempt), calls, candidates;
  }

  /** Subtracts weights until the pick falls below one; a pick in range never runs past the last. */
  method WeighedPick(ws: seq<int>, pick: int) returns (k: nat)
    requires Positive(ws) && 0 <= pick < Sum(ws)
    ensures k < |ws| && k == PickIndex(ws, pick)
  {
    k := 0;
    var rest := pick;
    assert ws[0..] == ws;
    while rest >= ws[k]
      invariant k < |ws| && 0 <= rest < Sum(ws[k..])
      invariant PickIndex(ws, pick) == k + PickIndex(ws[k..], rest)
      decreases |ws| - k
    {
      assert ws[k..][1..] == ws[k + 1..];
      rest := rest - ws[k];
      k := k + 1;
    }
  }

  lemma NoCandidates(p: Plan, state: Progress, number: int)
    ensures Candidates(p, state, number, [], 0, []) && Sum(Weights([])) == 0
  {}

  lemma ClosedTarget(p: Plan, state: Progress, number: int, seen: Trace, n: nat, cs: seq<Candidate>)
    requires n < |p.targets| && Candidates(p, state, number, seen, n, cs) && Closed(state, p.targets[n])
    requires AboutTargets(p, seen, n)
    ensures Candidates(p, state, number, seen, n + 1, cs) && AboutTargets(p, seen, n + 1)
  {
    hide Declined, Offers, Closed;
  }

  lemma DistinctTargets(p: Plan, j: nat, k: nat)
    requires ValidPlan(p) && j < |p.targets| && k < |p.targets| && j != k
    ensures p.targets[j].id != p.targets[k].id
  {
    hide ValidTarget, OneOwner, Ordered;
  }

  lemma PositiveWeight(p: Plan, state: Progress, n: nat)
    requires ValidPlan(p) && n < |p.targets| && !Closed(state, p.targets[n])
    ensures p.targets[n].weight > 0
  {
    hide OneOwner, Ordered, ValidId, DistinctIds;
    assert ValidTarget(p.protocol, p.targets[n]);
  }

  /** The answers about target n extend the candidates of the targets before it. */
  lemma AnswersAdded(p: Plan, state: Progress, number: int, seen: Trace, asked: Trace, n: nat, cs: seq<Candidate>,
                     selected: Option<Attempt>)
    requires ValidPlan(p) && n < |p.targets| && !Closed(state, p.targets[n])
    requires Candidates(p, state, number, seen, n, cs) && AboutTargets(p, seen, n)
    requires forall i :: 0 <= i < |asked| && asked[i].Asked? ==> asked[i].attempt.target == p.targets[n].id
    ensures AboutTargets(p, seen + asked, n + 1) && p.targets[n].weight > 0
    ensures Declined(p, state, number, asked, p.targets[n], |p.targets[n].credentials|) ==>
              Candidates(p, state, number, seen + asked, n + 1, cs)
    ensures Declined(p, state, number, seen + asked, p.targets[n], |p.targets[n].credentials|) ==>
              Declined(p, state, number, asked, p.targets[n], |p.targets[n].credentials|)
    ensures selected.Some? && Offers(p, state, number, asked, p.targets[n], selected.value) ==>
              Offers(p, state, number, seen + asked, p.targets[n], selected.value)
    ensures selected.Some? && Offers(p, state, number, asked, p.targets[n], selected.value)
            && !Declined(p, state, number, asked, p.targets[n], |p.targets[n].credentials|) ==>
              Candidates(p, state, number, seen + asked, n + 1, cs + [Candidate(selected.value, p.targets[n].weight)])
  {
    hide ValidPlan, Declined, Offers, Closed;
    PositiveWeight(p, state, n);
    forall k | 0 <= k < n ensures p.targets[k].id != p.targets[n].id { DistinctTargets(p, k, n); }
    LaterAnswers(p, state, number, seen, asked, n, cs);
    EarlierAnswers(p, state, number, seen, asked, p.targets[n]);
    if selected.Some? {
      var more := cs + [Candidate(selected.value, p.targets[n].weight)];
      assert more[..|more| - 1] == cs;
    }
  }

  /** Answers about other targets beforehand do not matter either. */
  lemma EarlierAnswers(p: Plan, state: Progress, number: int, seen: Trace, asked: Trace, t: Target)
    requires forall i :: 0 <= i < |seen| && seen[i].Asked? ==> seen[i].attempt.target != t.id
    ensures forall n :: 0 <= n <= |t.credentials| ==>
              (Declined(p, state, number, seen + asked, t, n) <==> Declined(p, state, number, asked, t, n))
    ensures forall a :: Offers(p, state, number, asked, t, a) ==> Offers(p, state, number, seen + asked, t, a)
  {
    hide Excluded;
    forall j, answer | 0 <= j < |t.credentials|
      ensures Asked(AttemptOf(p, number, t, t.credentials[j]), answer) in seen + asked
              <==> Asked(AttemptOf(p, number, t, t.credentials[j]), answer) in asked
    {
      forall i | 0 <= i < |seen| ensures seen[i] != Asked(AttemptOf(p, number, t, t.credentials[j]), answer) {}
    }
  }
}
