/** What the attempts so far decide about the next one, told by the attempts themselves. */
module FailoverChoices {
  import opened Wrappers
  import opened AttemptPlan
  import opened AttemptSelection
  import opened Totals

  datatype AttemptResult = AttemptResult(attempt: Attempt, outcome: Outcome)

  predicate ConnectionFailed(r: AttemptResult) { r.outcome.failure == ConnectionFailure || r.outcome.failure == RateLimited }

  predicate CredentialFailed(r: AttemptResult) { r.outcome.failure == CredentialRejected }

  /** The attempt is one of the plan's: an open target of positive weight and one of its credentials. */
  predicate InPlan(p: Plan, a: Attempt)
  {
    exists i, j :: 0 <= i < |p.targets| && 0 <= j < |p.targets[i].credentials| && p.targets[i].weight != 0
      && a == AttemptOf(p, a.number, p.targets[i], p.targets[i].credentials[j])
  }

  predicate Numbered(p: Plan, rs: seq<AttemptResult>)
  {
    forall i :: 0 <= i < |rs| ==> rs[i].attempt.number == i + 1 && InPlan(p, rs[i].attempt)
  }

  // ---------- what is left ----------

  /** The target takes no traffic, or its connection failed in an earlier attempt. */
  predicate Shut(rs: seq<AttemptResult>, t: Target)
  {
    t.weight == 0
    || exists i :: 0 <= i < |rs| && rs[i].attempt.connection == t.connection
              && (rs[i].outcome.failure == ConnectionFailure || rs[i].outcome.failure == RateLimited)
  }

  /** The pair was attempted before, or the credential was rejected in an earlier attempt. */
  predicate Barred(rs: seq<AttemptResult>, t: Target, c: Credential)
  {
    exists i :: 0 <= i < |rs| && rs[i].attempt.credential == c.id
           && (rs[i].attempt.target == t.id || rs[i].outcome.failure == CredentialRejected)
  }

  /** Nothing can be tried with the credential on this target: barred, or not eligible this time. */
  predicate Spent(p: Plan, rs: seq<AttemptResult>, round: Trace, t: Target, c: Credential)
  {
    Barred(rs, t, c) || Asked(AttemptOf(p, |rs| + 1, t, c), No) in round
  }

  /** The target offers nothing after the attempts rs, by the answers of this round. */
  predicate Idle(p: Plan, rs: seq<AttemptResult>, round: Trace, t: Target)
  {
    Shut(rs, t) || forall j :: 0 <= j < |t.credentials| ==> Spent(p, rs, round, t, t.credentials[j])
  }

  /** The weights of the first n targets that offer something. */
  function Pool(p: Plan, rs: seq<AttemptResult>, round: Trace, n: nat): (w: int)
    requires n <= |p.targets|
  {
    if n == 0 then 0
    else Pool(p, rs, round, n - 1) + if Idle(p, rs, round, p.targets[n - 1]) then 0 else p.targets[n - 1].weight
  }

  /** After a rejected credential its target is preferred. */
  function Favoured(rs: seq<AttemptResult>): (target: string)
  {
    if |rs| > 0 && rs[|rs| - 1].outcome.failure == CredentialRejected then rs[|rs| - 1].attempt.target else ""
  }

  /** The last draw of the round was from all weights on offer and fell into those of target i. */
  predicate DrawnFor(p: Plan, rs: seq<AttemptResult>, round: Trace, i: nat)
    requires i < |p.targets|
  {
    && |round| > 0 && round[|round| - 1].Drawn? && round[|round| - 1].total == Pool(p, rs, round, |p.targets|)
    && round[|round| - 1].pick.Some?
    && 0 <= round[|round| - 1].pick.value - Pool(p, rs, round, i) < p.targets[i].weight
  }

  /** The attempt is on target i: its least credential by priority and id that is not spent, which
      was found eligible. The target is the favoured one, or that offers nothing and a draw decided. */
  predicate Selected(p: Plan, rs: seq<AttemptResult>, round: Trace, a: Attempt, i: nat)
    requires i < |p.targets|
  {
    var t := p.targets[i];
    && !Idle(p, rs, round, t)
    && (exists j :: 0 <= j < |t.credentials| && a == AttemptOf(p, |rs| + 1, t, t.credentials[j])
          && !Barred(rs, t, t.credentials[j]) && Asked(a, Yes) in round
          && forall k :: 0 <= k < j ==> Spent(p, rs, round, t, t.credentials[k]))
    && (t.id != Favoured(rs) ==>
          && DrawnFor(p, rs, round, i)
          && forall k :: 0 <= k < |p.targets| && p.targets[k].id == Favoured(rs) ==> Idle(p, rs, round, p.targets[k]))
  }

  /** Every target offers nothing. */
  predicate AllIdle(p: Plan, rs: seq<AttemptResult>, round: Trace)
  {
    forall i :: 0 <= i < |p.targets| ==> Idle(p, rs, round, p.targets[i])
  }

  // ---------- the exclusions of a run ----------

  function Tried(rs: seq<AttemptResult>): (keys: set<string>) { set i | 0 <= i < |rs| :: AttemptKey(rs[i].attempt) }

  function Rejected(rs: seq<AttemptResult>): (ids: set<string>)
  {
    set i | 0 <= i < |rs| && CredentialFailed(rs[i]) :: rs[i].attempt.credential
  }

  function Broken(rs: seq<AttemptResult>): (ids: set<string>)
  {
    set i | 0 <= i < |rs| && ConnectionFailed(rs[i]) :: rs[i].attempt.connection
  }

  /** The progress of a run is exactly what its attempts say. */
  predicate Tracks(state: Progress, rs: seq<AttemptResult>)
  {
    state == Progress(Tried(rs), Rejected(rs), Broken(rs), Favoured(rs))
  }

  lemma TracksNothing()
    ensures Tracks(Progress({}, {}, {}, ""), [])
  {}

  /** The exclusions after one more attempt: its pair, and what it found unusable. */
  function Excluding(state: Progress, a: Attempt, o: Outcome): (next: Progress)
  {
    Progress(state.attempted + {AttemptKey(a)},
             if o.failure == CredentialRejected then state.credentials + {a.credential} else state.credentials,
             if o.failure == ConnectionFailure || o.failure == RateLimited then state.connections + {a.connection}
             else state.connections,
             if o.failure == CredentialRejected then a.target else "")
  }

  lemma TracksOneMore(state: Progress, rs: seq<AttemptResult>, a: Attempt, o: Outcome)
    requires Tracks(state, rs)
    ensures Tracks(Excluding(state, a, o), rs + [AttemptResult(a, o)])
  {
    hide AttemptKey;
    var more := rs + [AttemptResult(a, o)];
    assert more[|rs|] == AttemptResult(a, o);
    TriedOneMore(rs, a, o);
    RejectedOneMore(rs, a, o);
    BrokenOneMore(rs, a, o);
  }

  lemma TriedOneMore(rs: seq<AttemptResult>, a: Attempt, o: Outcome)
    ensures Tried(rs + [AttemptResult(a, o)]) == Tried(rs) + {AttemptKey(a)}
  {
    hide AttemptKey;
    var more := rs + [AttemptResult(a, o)];
    forall k ensures k in Tried(more) <==> k in Tried(rs) + {AttemptKey(a)} {
      if k in Tried(rs) {
        var i :| 0 <= i < |rs| && k == AttemptKey(rs[i].attempt);
        assert more[i] == rs[i];
      }
      assert more[|rs|].attempt == a;
    }
  }

  lemma RejectedOneMore(rs: seq<AttemptResult>, a: Attempt, o: Outcome)
    ensures Rejected(rs + [AttemptResult(a, o)])
         == Rejected(rs) + if o.failure == CredentialRejected then {a.credential} else {}
  {
    var more := rs + [AttemptResult(a, o)];
    forall k ensures k in Rejected(more) <==> k in Rejected(rs) || (o.failure == CredentialRejected && k == a.credential) {
      if k in Rejected(rs) {
        var i :| 0 <= i < |rs| && CredentialFailed(rs[i]) && k == rs[i].attempt.credential;
        assert more[i] == rs[i];
      }
      assert more[|rs|].attempt == a;
    }
  }

  lemma BrokenOneMore(rs: seq<AttemptResult>, a: Attempt, o: Outcome)
    ensures Broken(rs + [AttemptResult(a, o)])
         == Broken(rs) + if o.failure == ConnectionFailure || o.failure == RateLimited then {a.connection} else {}
  {
    var more := rs + [AttemptResult(a, o)];
    var last := AttemptResult(a, o);
    forall k ensures k in Broken(more) <==> k in Broken(rs) || (ConnectionFailed(last) && k == a.connection) {
      if k in Broken(rs) {
        var i :| 0 <= i < |rs| && ConnectionFailed(rs[i]) && k == rs[i].attempt.connection;
        assert more[i] == rs[i];
      }
      assert more[|rs|] == last;
    }
  }

  lemma ClosedIsShut(state: Progress, rs: seq<AttemptResult>, t: Target)
    requires Tracks(state, rs)
    ensures Closed(state, t) <==> Shut(rs, t)
  {}

  lemma ValidTargetId(p: Plan, a: Attempt)
    requires ValidPlan(p) && InPlan(p, a)
    ensures ValidId(a.target)
  {
    hide OneOwner, Ordered, DistinctIds, ValidId;
    var i, j :| 0 <= i < |p.targets| && 0 <= j < |p.targets[i].credentials| && p.targets[i].weight != 0
      && a == AttemptOf(p, a.number, p.targets[i], p.targets[i].credentials[j]);
    assert ValidTarget(p.protocol, p.targets[i]);
  }

  lemma ExcludedIsBarred(p: Plan, state: Progress, rs: seq<AttemptResult>, t: Target, c: Credential)
    requires ValidPlan(p) && Tracks(state, rs) && Numbered(p, rs) && t in p.targets
    ensures Excluded(p, state, |rs| + 1, t, c) <==> Barred(rs, t, c)
  {
    hide ValidPlan, InPlan, ValidId;
    var a := AttemptOf(p, |rs| + 1, t, c);
    assert ValidId(t.id) by { TargetId(p, t); }
    forall i | 0 <= i < |rs|
      ensures AttemptKey(rs[i].attempt) == AttemptKey(a) <==> rs[i].attempt.target == t.id && rs[i].attempt.credential == c.id
    {
      ValidTargetId(p, rs[i].attempt);
      if AttemptKey(rs[i].attempt) == AttemptKey(a) { AttemptKeyInjective(rs[i].attempt, a); }
    }
  }

  lemma TargetId(p: Plan, t: Target)
    requires ValidPlan(p) && t in p.targets
    ensures ValidId(t.id)
  {
    hide OneOwner, Ordered, DistinctIds, ValidId;
    var i :| 0 <= i < |p.targets| && p.targets[i] == t;
    assert ValidTarget(p.protocol, p.targets[i]);
  }

  lemma DeclinedIsSpent(p: Plan, state: Progress, rs: seq<AttemptResult>, round: Trace, t: Target, n: nat)
    requires ValidPlan(p) && Tracks(state, rs) && Numbered(p, rs) && t in p.targets && n <= |t.credentials|
    ensures Declined(p, state, |rs| + 1, round, t, n) <==>
              forall j :: 0 <= j < n ==> Spent(p, rs, round, t, t.credentials[j])
  {
    hide ValidPlan, Tracks, Numbered, Excluded, Barred;
    forall j | 0 <= j < n
      ensures Excluded(p, state, |rs| + 1, t, t.credentials[j]) <==> Barred(rs, t, t.credentials[j])
    {
      ExcludedIsBarred(p, state, rs, t, t.credentials[j]);
    }
  }

  lemma IdleIs(p: Plan, state: Progress, rs: seq<AttemptResult>, round: Trace, t: Target)
    requires ValidPlan(p) && Tracks(state, rs) && Numbered(p, rs) && t in p.targets
    ensures Idle(p, rs, round, t) <==> Closed(state, t) || Declined(p, state, |rs| + 1, round, t, |t.credentials|)
  {
    hide ValidPlan, Tracks, Numbered, Closed, Declined, Shut, Spent;
    ClosedIsShut(state, rs, t);
    DeclinedIsSpent(p, state, rs, round, t, |t.credentials|);
  }

  // ---------- the choice ----------

  /** The candidates are the targets that offer something, with their weights. */
  lemma {:induction false} PoolIs(p: Plan, state: Progress, rs: seq<AttemptResult>, round: Trace, n: nat, cs: seq<Candidate>)
    requires ValidPlan(p) && Tracks(state, rs) && Numbered(p, rs) && n <= |p.targets|
    requires Candidates(p, state, |rs| + 1, round, n, cs)
    ensures Sum(Weights(cs)) == Pool(p, rs, round, n)
    decreases n
  {
    hide ValidPlan, Tracks, Numbered, Closed, Declined, Idle, Offers;
    if n == 0 {
      assert Weights(cs) == [];
    } else {
      var t := p.targets[n - 1];
      IdleIs(p, state, rs, round, t);
      if Idle(p, rs, round, t) {
        PoolIs(p, state, rs, round, n - 1, cs);
      } else {
        PoolIs(p, state, rs, round, n - 1, cs[..|cs| - 1]);
        assert Weights(cs) == Weights(cs[..|cs| - 1]) + [t.weight];
        SumAppend(Weights(cs[..|cs| - 1]), t.weight);
      }
    }
  }

  /** Each candidate is offered by a target, and the weights before it are those on offer before that. */
  lemma {:induction false} CandidateTarget(p: Plan, state: Progress, rs: seq<AttemptResult>, round: Trace, n: nat,
                                           cs: seq<Candidate>, k: nat) returns (i: nat)
    requires ValidPlan(p) && Tracks(state, rs) && Numbered(p, rs) && n <= |p.targets|
    requires Candidates(p, state, |rs| + 1, round, n, cs) && k < |cs|
    ensures i < n && !Idle(p, rs, round, p.targets[i]) && Offers(p, state, |rs| + 1, round, p.targets[i], cs[k].attempt)
    ensures cs[k].weight == p.targets[i].weight && Sum(Weights(cs)[..k]) == Pool(p, rs, round, i)
    decreases n
  {
    hide ValidPlan, Tracks, Numbered, Closed, Declined, Idle, Offers;
    var t := p.targets[n - 1];
    IdleIs(p, state, rs, round, t);
    if Idle(p, rs, round, t) {
      i := CandidateTarget(p, state, rs, round, n - 1, cs, k);
    } else if k < |cs| - 1 {
      i := CandidateTarget(p, state, rs, round, n - 1, cs[..|cs| - 1], k);
      assert Weights(cs)[..k] == Weights(cs[..|cs| - 1])[..k];
    } else {
      i := n - 1;
      PoolIs(p, state, rs, round, n - 1, cs[..|cs| - 1]);
      assert Weights(cs)[..k] == Weights(cs[..|cs| - 1]);
    }
  }

  /** A target whose candidate would be preferred offers nothing when no candidate is on it. */
  lemma PreferredIdle(p: Plan, state: Progress, rs: seq<AttemptResult>, round: Trace, cs: seq<Candidate>, i: nat)
    requires ValidPlan(p) && Tracks(state, rs) && Numbered(p, rs) && i < |p.targets|
    requires Candidates(p, state, |rs| + 1, round, |p.targets|, cs) && Permitted(p, state, |rs| + 1, cs)
    requires p.targets[i].id == Favoured(rs)
    ensures Idle(p, rs, round, p.targets[i])
  {
    hide ValidPlan, Numbered, Closed, Declined, Idle, Tried, Rejected, Broken, Favoured, Candidates;
    IdleIs(p, state, rs, round, p.targets[i]);
    if !Idle(p, rs, round, p.targets[i]) {
      var k := OfferAmong(p, state, |rs| + 1, round, |p.targets|, cs, i);
      assert false;
    }
  }

  lemma {:induction false} OfferAmong(p: Plan, state: Progress, number: int, round: Trace, n: nat, cs: seq<Candidate>, i: nat)
    returns (k: nat)
    requires i < n <= |p.targets| && Candidates(p, state, number, round, n, cs)
    requires !Closed(state, p.targets[i]) && !Declined(p, state, number, round, p.targets[i], |p.targets[i].credentials|)
    ensures k < |cs| && cs[k].attempt.target == p.targets[i].id
    decreases n
  {
    hide Closed, Declined, Excluded;
    var t := p.targets[n - 1];
    if i == n - 1 {
      k := |cs| - 1;
    } else if Closed(state, t) || Declined(p, state, number, round, t, |t.credentials|) {
      k := OfferAmong(p, state, number, round, n - 1, cs, i);
    } else {
      k := OfferAmong(p, state, number, round, n - 1, cs[..|cs| - 1], i);
    }
  }

  /** What a target offers is its least credential that is not spent. */
  lemma OfferIs(p: Plan, state: Progress, rs: seq<AttemptResult>, round: Trace, t: Target, a: Attempt)
    requires ValidPlan(p) && Tracks(state, rs) && Numbered(p, rs) && t in p.targets
    requires Offers(p, state, |rs| + 1, round, t, a)
    ensures exists j :: 0 <= j < |t.credentials| && a == AttemptOf(p, |rs| + 1, t, t.credentials[j])
              && !Barred(rs, t, t.credentials[j]) && Asked(a, Yes) in round
              && forall k :: 0 <= k < j ==> Spent(p, rs, round, t, t.credentials[k])
  {
    hide ValidPlan, Tracks, Numbered, Excluded, Barred, Declined, Spent;
    var j :| 0 <= j < |t.credentials| && a == AttemptOf(p, |rs| + 1, t, t.credentials[j])
      && !Excluded(p, state, |rs| + 1, t, t.credentials[j])
      && Asked(a, Yes) in round && Declined(p, state, |rs| + 1, round, t, j);
    ExcludedIsBarred(p, state, rs, t, t.credentials[j]);
    DeclinedIsSpent(p, state, rs, round, t, j);
  }

  /** A choice by draw. */
  lemma DrawnIs(p: Plan, state: Progress, rs: seq<AttemptResult>, round: Trace, cs: seq<Candidate>, a: Attempt) returns (i: nat)
    requires ValidPlan(p) && Tracks(state, rs) && Numbered(p, rs) && a.target != Favoured(rs)
    requires Candidates(p, state, |rs| + 1, round, |p.targets|, cs) && Permitted(p, state, |rs| + 1, cs)
    requires DecidedByDraw(round, cs, a)
    ensures i < |p.targets| && Selected(p, rs, round, a, i)
  {
    hide ValidPlan, Tracks, Numbered, Candidates, Idle, Offers, Barred, Spent, Favoured, Allowed, Pool;
    var ws, pick := Weights(cs), round[|round| - 1].pick.value;
    var k := PickIndex(ws, pick);
    assert Positive(ws);
    PickInterval(ws, k, pick);
    PoolIs(p, state, rs, round, |p.targets|, cs);
    i := CandidateTarget(p, state, rs, round, |p.targets|, cs, k);
    OfferIs(p, state, rs, round, p.targets[i], a);
    forall k | 0 <= k < |p.targets| && p.targets[k].id == Favoured(rs) ensures Idle(p, rs, round, p.targets[k]) {
      PreferredIdle(p, state, rs, round, cs, k);
    }
  }

  /** A choice of the favoured target. */
  lemma FavouredIs(p: Plan, state: Progress, rs: seq<AttemptResult>, round: Trace, a: Attempt) returns (i: nat)
    requires ValidPlan(p) && Tracks(state, rs) && Numbered(p, rs) && a.target == Favoured(rs)
    requires Offered(p, state, |rs| + 1, round, a)
    ensures i < |p.targets| && Selected(p, rs, round, a, i)
  {
    hide ValidPlan, Tracks, Numbered, Idle, Offers, Barred, Spent, Favoured, Closed, Declined;
    i :| 0 <= i < |p.targets| && !Closed(state, p.targets[i]) && Offers(p, state, |rs| + 1, round, p.targets[i], a)
      && !Declined(p, state, |rs| + 1, round, p.targets[i], |p.targets[i].credentials|);
    IdleIs(p, state, rs, round, p.targets[i]);
    OfferIs(p, state, rs, round, p.targets[i], a);
    assert p.targets[i].id == a.target by { OfferTarget(p, state, |rs| + 1, round, p.targets[i], a); }
  }

  lemma OfferTarget(p: Plan, state: Progress, number: int, round: Trace, t: Target, a: Attempt)
    requires Offers(p, state, number, round, t, a)
    ensures a.target == t.id
  {}

  /** Without candidates every target is idle. */
  lemma {:induction false} NothingOffered(p: Plan, state: Progress, rs: seq<AttemptResult>, round: Trace)
    requires ValidPlan(p) && Tracks(state, rs) && Numbered(p, rs)
    requires Candidates(p, state, |rs| + 1, round, |p.targets|, [])
    ensures AllIdle(p, rs, round)
  {
    hide ValidPlan, Tracks, Numbered, Idle, Candidates, Closed, Declined;
    forall i | 0 <= i < |p.targets| ensures Idle(p, rs, round, p.targets[i]) {
      IdleIs(p, state, rs, round, p.targets[i]);
      if !Idle(p, rs, round, p.targets[i]) {
        var k := OfferAmong(p, state, |rs| + 1, round, |p.targets|, [], i);
        assert false;
      }
    }
  }
}
