/** Planning bounded retries: a validated plan, and the choice of the next attempt. */
module AttemptPlan {
  import opened Wrappers

  const MAX_ATTEMPTS := 4
  const MAX_TARGETS := 128
  const MAX_CREDENTIALS := 32

  datatype Credential = Credential(id: string, priority: int)

  datatype Target = Target(id: string, connection: string, protocol: string, weight: int, credentials: seq<Credential>)

  datatype Plan = Plan(protocol: string, targets: seq<Target>, maxAttempts: int)

  datatype Attempt = Attempt(number: int, target: string, connection: string, credential: string, protocol: string)

  /** What earlier attempts exclude, and the target to stay on after a rejected credential. */
  datatype Progress = Progress(attempted: set<string>, credentials: set<string>, connections: set<string>, preferred: string)

  datatype Failure =
    | Success
    | CredentialRejected
    | ConnectionFailure
    | RateLimited
    | PermanentFailure
    | OtherFailure(name: string)

  datatype Work = Unknown | NotSent | RejectedWithoutWork | Completed | OtherWork(name: string)

  datatype Outcome = Outcome(failure: Failure, work: Work, outputStarted: bool, finalUsageKnown: bool)

  datatype Answer = Yes | No | Fails

  /** One call of a hook, or one look at whether the request was canceled. */
  datatype Call =
    | Polled(canceled: bool)
    | Asked(attempt: Attempt, answer: Answer)
    | Drawn(total: int, pick: Option<int>)
    | Prepared(attempt: Attempt, ok: bool)
    | Admitted(attempt: Attempt, ok: bool)
    | Executed(attempt: Attempt, outcome: Outcome, ok: bool)

  type Trace = seq<Call>

  /** Arbitrary hooks: each answer may depend on everything that happened before. */
  datatype Hooks = Hooks(
    canceled: Trace -> bool,
    eligible: (Trace, Attempt) -> Answer,
    draw: (Trace, int) -> Option<int>,
    prepare: (Trace, Attempt) -> bool,
    admit: (Trace, Attempt) -> bool,
    execute: (Trace, Attempt) -> (Outcome, bool))

  datatype Error = ErrCanceled | ErrEligibility | ErrPrepare | ErrAdmission | ErrExecution | ErrRandom

  // ---------- plans ----------

  predicate ValidId(s: string)
  {
    s != "" && |s| <= 128 && forall i :: 0 <= i < |s| ==> s[i] != '\0' && s[i] != '\r' && s[i] != '\n'
  }

  /** The order of strings, character by character. */
  predicate TextBelow(a: string, b: string)
  {
    if |b| == 0 then false
    else if |a| == 0 then true
    else a[0] < b[0] || (a[0] == b[0] && TextBelow(a[1..], b[1..]))
  }

  /** Lower priorities first, and ids in order among equal priorities. */
  predicate Before(a: Credential, b: Credential)
  {
    a.priority < b.priority || (a.priority == b.priority && TextBelow(a.id, b.id))
  }

  predicate Ordered(cs: seq<Credential>)
  {
    forall i, j :: 0 <= i < j < |cs| ==> Before(cs[i], cs[j])
  }

  predicate DistinctIds(cs: seq<Credential>)
  {
    forall i, j :: 0 <= i < j < |cs| ==> cs[i].id != cs[j].id
  }

  predicate ValidTarget(protocol: string, t: Target)
  {
    && ValidId(t.id) && ValidId(t.connection) && t.protocol == protocol && 0 <= t.weight <= 100
    && |t.credentials| <= MAX_CREDENTIALS
    && (forall i :: 0 <= i < |t.credentials| ==> ValidId(t.credentials[i].id) && 0 <= t.credentials[i].priority)
    && DistinctIds(t.credentials)
  }

  /** A credential id belongs to one connection. */
  predicate OneOwner(s: Target, t: Target)
  {
    forall i, j :: 0 <= i < |s.credentials| && 0 <= j < |t.credentials| && s.credentials[i].id == t.credentials[j].id ==>
      s.connection == t.connection
  }

  predicate ValidTargets(protocol: string, ts: seq<Target>)
  {
    && |ts| <= MAX_TARGETS
    && (forall i :: 0 <= i < |ts| ==> ValidTarget(protocol, ts[i]))
    && (forall i, j :: 0 <= i < j < |ts| ==> ts[i].id != ts[j].id)
    && (forall i, j :: 0 <= i < |ts| && 0 <= j < |ts| ==> OneOwner(ts[i], ts[j]))
  }

  /** The plan is a copy of the targets with every target's credentials in order. */
  predicate SortedCopy(t: Target, s: Target)
  {
    s == t.(credentials := s.credentials) && multiset(s.credentials) == multiset(t.credentials) && Ordered(s.credentials)
  }

  predicate ValidPlan(p: Plan)
  {
    && 1 <= p.maxAttempts <= MAX_ATTEMPTS
    && ValidTargets(p.protocol, p.targets)
    && forall i :: 0 <= i < |p.targets| ==> Ordered(p.targets[i].credentials)
  }

  // ---------- sorting ----------

  lemma {:induction false} TextOrder(a: string, b: string, c: string)
    ensures a != b ==> TextBelow(a, b) || TextBelow(b, a)
    ensures TextBelow(a, b) && TextBelow(b, c) ==> TextBelow(a, c)
    ensures !TextBelow(a, a)
    decreases |a|
  {
    if |a| > 0 {
      TextOrder(a[1..], if |b| > 0 then b[1..] else "", if |c| > 0 then c[1..] else "");
      assert |b| > 0 && a[0] == b[0] && a[1..] == b[1..] ==> a == b by {
        assert a == [a[0]] + a[1..];
        if |b| > 0 { assert b == [b[0]] + b[1..]; }
      }
    }
  }

  lemma BeforeOrder(a: Credential, b: Credential, c: Credential)
    ensures a.id != b.id ==> Before(a, b) || Before(b, a)
    ensures Before(a, b) && Before(b, c) ==> Before(a, c)
    ensures !Before(a, a)
  {
    TextOrder(a.id, b.id, c.id);
  }

  /** Where a credential belongs among ordered ones. */
  method Place(cs: seq<Credential>, c: Credential) returns (k: nat)
    requires Ordered(cs) && forall i :: 0 <= i < |cs| ==> cs[i].id != c.id
    ensures k <= |cs|
    ensures forall i :: 0 <= i < k ==> Before(cs[i], c)
    ensures forall i :: k <= i < |cs| ==> Before(c, cs[i])
  {
    k := 0;
    while k < |cs| && Before(cs[k], c)
      invariant k <= |cs| && forall i :: 0 <= i < k ==> Before(cs[i], c)
    {
      k := k + 1;
    }
    forall i | k <= i < |cs| ensures Before(c, cs[i]) {
      BeforeOrder(c, cs[k], cs[i]);
    }
  }

  /** Sorts the credentials of one target by priority, then id. */
  method SortCredentials(cs: seq<Credential>) returns (sorted: seq<Credential>)
    requires DistinctIds(cs)
    ensures multiset(sorted) == multiset(cs) && Ordered(sorted)
  {
    sorted := [];
    var i := 0;
    while i < |cs|
      invariant 0 <= i <= |cs|
      invariant multiset(sorted) == multiset(cs[..i]) && Ordered(sorted)
    {
      var c := cs[i];
      NewAmongSorted(cs, i, sorted);
      var k := Place(sorted, c);
      ghost var before := sorted;
      sorted := sorted[..k] + [c] + sorted[k..];
      InsertKeeps(before, k, c, sorted);
      assert cs[..i + 1] == cs[..i] + [c];
      i := i + 1;
    }
    assert cs[..|cs|] == cs;
  }

  lemma NewAmongSorted(cs: seq<Credential>, i: nat, sorted: seq<Credential>)
    requires DistinctIds(cs) && i < |cs| && multiset(sorted) == multiset(cs[..i])
    ensures forall j :: 0 <= j < |sorted| ==> sorted[j].id != cs[i].id
  {
    forall j | 0 <= j < |sorted| ensures sorted[j].id != cs[i].id {
      assert sorted[j] in multiset(cs[..i]);
      var k :| 0 <= k < i && cs[..i][k] == sorted[j];
    }
  }

  lemma InsertKeeps(cs: seq<Credential>, k: nat, c: Credential, more: seq<Credential>)
    requires Ordered(cs) && k <= |cs| && more == cs[..k] + [c] + cs[k..]
    requires forall i :: 0 <= i < k ==> Before(cs[i], c)
    requires forall i :: k <= i < |cs| ==> Before(c, cs[i])
    ensures Ordered(more) && multiset(more) == multiset(cs) + multiset{c}
  {
    assert cs == cs[..k] + cs[k..];
  }

  // ---------- validation ----------

  datatype NewResult = Planned(plan: Plan) | ErrConfig

  /** Validates the targets and takes a detached copy with sorted credentials. */
  method New(protocol: string, targets: seq<Target>, maxAttempts: int) returns (r: NewResult)
    ensures r.Planned? <==> protocol != "" && 1 <= maxAttempts <= MAX_ATTEMPTS && ValidTargets(protocol, targets)
    ensures r.Planned? ==>
              && ValidPlan(r.plan)
              && r.plan.protocol == protocol && r.plan.maxAttempts == maxAttempts && |r.plan.targets| == |targets|
              && forall i :: 0 <= i < |targets| ==> SortedCopy(targets[i], r.plan.targets[i])
  {
    hide ValidId, Ordered, SortedCopy, ValidTargets, Owned, CredentialsFit, OneOwner, TargetIds, DistinctIds, ValidPlan;
    Limited(protocol, targets);
    if protocol == "" || maxAttempts < 1 || maxAttempts > MAX_ATTEMPTS || |targets| > MAX_TARGETS { return ErrConfig; }
    var copied: seq<Target> := [];
    var ids: set<string> := {};
    var owners: map<string, string> := map[];
    NoOwners(targets);
    NoTargets(protocol, targets);
    var i := 0;
    while i < |targets|
      invariant 0 <= i <= |targets| && |copied| == i
      invariant forall j :: 0 <= j < i ==> SortedCopy(targets[j], copied[j])
      invariant ids == TargetIds(targets, i)
      invariant Owned(targets, i, owners)
      invariant ValidTargets(protocol, targets[..i])
    {
      var t := targets[i];
      if !ValidId(t.id) || !ValidId(t.connection) || t.protocol != protocol || t.weight < 0 || t.weight > 100
         || t.id in ids || |t.credentials| > MAX_CREDENTIALS {
        PrefixInvalid(protocol, targets, i);
        return ErrConfig;
      }
      NextId(targets, i);
      ids := ids + {t.id};
      var ok;
      ok, owners := CheckCredentials(targets, i, owners);
      if !ok {
        BadTarget(protocol, targets, i);
        return ErrConfig;
      }
      PrefixGrows(protocol, targets, i);
      FitIsDistinct(targets, i);
      var sorted := SortCredentials(t.credentials);
      CopyOf(t, sorted);
      copied := copied + [t.(credentials := sorted)];
      i := i + 1;
    }
    assert targets[..|targets|] == targets;
    CopyIsValid(protocol, targets, copied);
    return Planned(Plan(protocol, copied, maxAttempts));
  }

  function TargetIds(ts: seq<Target>, n: nat): (s: set<string>)
    requires n <= |ts|
  {
    set j | 0 <= j < n :: ts[j].id
  }

  lemma NextId(ts: seq<Target>, n: nat)
    requires n < |ts|
    ensures TargetIds(ts, n + 1) == TargetIds(ts, n) + {ts[n].id}
  {}

  lemma Limited(protocol: string, ts: seq<Target>)
    ensures ValidTargets(protocol, ts) ==> |ts| <= MAX_TARGETS
  {}

  lemma NoTargets(protocol: string, ts: seq<Target>)
    ensures TargetIds(ts, 0) == {} && ValidTargets(protocol, ts[..0])
  {}

  lemma FitIsDistinct(ts: seq<Target>, n: nat)
    requires n < |ts| && CredentialsFit(ts, n)
    ensures DistinctIds(ts[n].credentials)
  {}

  lemma CopyOf(t: Target, sorted: seq<Credential>)
    requires multiset(sorted) == multiset(t.credentials) && Ordered(sorted)
    ensures SortedCopy(t, t.(credentials := sorted))
  {}

  /** Which connection the credentials of the first n targets belong to. */
  predicate Owned(ts: seq<Target>, n: nat, owners: map<string, string>)
    requires n <= |ts|
  {
    && (forall id :: id in owners ==> exists i, j :: 0 <= i < n && 0 <= j < |ts[i].credentials|
                                        && ts[i].credentials[j].id == id && ts[i].connection == owners[id])
    && (forall i, j :: 0 <= i < n && 0 <= j < |ts[i].credentials| ==>
          ts[i].credentials[j].id in owners && owners[ts[i].credentials[j].id] == ts[i].connection)
  }

  lemma NoOwners(ts: seq<Target>)
    ensures Owned(ts, 0, map[])
  {}

  /** The credentials of target n are well formed and conflict with no earlier target. */
  predicate CredentialsFit(ts: seq<Target>, n: nat)
    requires n < |ts|
  {
    && (forall i :: 0 <= i < |ts[n].credentials| ==> ValidId(ts[n].credentials[i].id) && 0 <= ts[n].credentials[i].priority)
    && DistinctIds(ts[n].credentials)
    && forall i :: 0 <= i < n ==> OneOwner(ts[i], ts[n])
  }

  /** owners after the first m credentials of target n. */
  predicate PartlyOwned(ts: seq<Target>, n: nat, m: nat, before: map<string, string>, owners: map<string, string>)
    requires n < |ts| && m <= |ts[n].credentials|
  {
    && (forall id :: id in before ==> id in owners && owners[id] == before[id])
    && (forall id :: id in owners ==>
          (id in before && before[id] == owners[id])
          || exists j :: 0 <= j < m && ts[n].credentials[j].id == id && owners[id] == ts[n].connection)
    && (forall j :: 0 <= j < m ==> ts[n].credentials[j].id in owners && owners[ts[n].credentials[j].id] == ts[n].connection)
  }

  /** Checks the credentials of one target and records their owner. */
  method CheckCredentials(ts: seq<Target>, n: nat, owned: map<string, string>) returns (ok: bool, owners: map<string, string>)
    requires n < |ts| && Owned(ts, n, owned)
    ensures ok <==> CredentialsFit(ts, n)
    ensures ok ==> Owned(ts, n + 1, owners)
  {
    hide ValidId, Owned, PartlyOwned, CredentialsFit, Accepted;
    var t := ts[n];
    owners := owned;
    NothingOwned(ts, n, owned);
    var seen: set<string> := {};
    var i := 0;
    while i < |t.credentials|
      invariant 0 <= i <= |t.credentials|
      invariant Accepted(t, i, seen)
      invariant PartlyOwned(ts, n, i, owned, owners)
    {
      var c := t.credentials[i];
      if !ValidId(c.id) || c.priority < 0 || c.id in seen {
        Unacceptable(ts, n, i, seen);
        return false, owners;
      }
      if c.id in owners && owners[c.id] != t.connection {
        Conflict(ts, n, i, owned, owners);
        return false, owners;
      }
      OneMore(ts, n, i, seen, owned, owners);
      seen := seen + {c.id};
      owners := owners[c.id := t.connection];
      i := i + 1;
    }
    AllOwned(ts, n, owned, owners);
    AllAccepted(ts, n, seen);
    return true, owners;
  }

  /** The first m credentials are well formed and have the distinct ids in seen. */
  predicate Accepted(t: Target, m: nat, seen: set<string>)
    requires m <= |t.credentials|
  {
    && (forall j :: 0 <= j < m ==> ValidId(t.credentials[j].id) && 0 <= t.credentials[j].priority && t.credentials[j].id in seen)
    && (forall id :: id in seen ==> exists j :: 0 <= j < m && t.credentials[j].id == id)
    && (forall j, k :: 0 <= j < k < m ==> t.credentials[j].id != t.credentials[k].id)
  }

  lemma NothingOwned(ts: seq<Target>, n: nat, owned: map<string, string>)
    requires n < |ts|
    ensures Accepted(ts[n], 0, {}) && PartlyOwned(ts, n, 0, owned, owned)
  {}

  lemma Unacceptable(ts: seq<Target>, n: nat, m: nat, seen: set<string>)
    requires n < |ts| && m < |ts[n].credentials| && Accepted(ts[n], m, seen)
    requires !ValidId(ts[n].credentials[m].id) || ts[n].credentials[m].priority < 0 || ts[n].credentials[m].id in seen
    ensures !CredentialsFit(ts, n)
  {
    hide ValidId, OneOwner;
  }

  lemma OneMore(ts: seq<Target>, n: nat, m: nat, seen: set<string>, before: map<string, string>, owners: map<string, string>)
    requires n < |ts| && m < |ts[n].credentials| && Accepted(ts[n], m, seen) && PartlyOwned(ts, n, m, before, owners)
    requires var c := ts[n].credentials[m];
             ValidId(c.id) && 0 <= c.priority && c.id !in seen && (c.id in owners ==> owners[c.id] == ts[n].connection)
    ensures Accepted(ts[n], m + 1, seen + {ts[n].credentials[m].id})
    ensures PartlyOwned(ts, n, m + 1, before, owners[ts[n].credentials[m].id := ts[n].connection])
  {
    hide ValidId;
  }

  lemma AllAccepted(ts: seq<Target>, n: nat, seen: set<string>)
    requires n < |ts| && Accepted(ts[n], |ts[n].credentials|, seen) && forall i :: 0 <= i < n ==> OneOwner(ts[i], ts[n])
    ensures CredentialsFit(ts, n)
  {
    hide ValidId, OneOwner;
  }

  lemma Conflict(ts: seq<Target>, n: nat, m: nat, before: map<string, string>, owners: map<string, string>)
    requires n < |ts| && m < |ts[n].credentials| && Owned(ts, n, before) && PartlyOwned(ts, n, m, before, owners)
    requires ts[n].credentials[m].id in owners && owners[ts[n].credentials[m].id] != ts[n].connection
    ensures !CredentialsFit(ts, n)
  {
    var id := ts[n].credentials[m].id;
    assert id in before && before[id] == owners[id];
    var i, j :| 0 <= i < n && 0 <= j < |ts[i].credentials| && ts[i].credentials[j].id == id && ts[i].connection == before[id];
    assert !OneOwner(ts[i], ts[n]);
  }

  lemma AllOwned(ts: seq<Target>, n: nat, before: map<string, string>, owners: map<string, string>)
    requires n < |ts| && Owned(ts, n, before) && PartlyOwned(ts, n, |ts[n].credentials|, before, owners)
    ensures Owned(ts, n + 1, owners)
    ensures forall i :: 0 <= i < n ==> OneOwner(ts[i], ts[n])
  {
    forall i, j | 0 <= i < n && 0 <= j < |ts[i].credentials|
      ensures ts[i].credentials[j].id in owners && owners[ts[i].credentials[j].id] == ts[i].connection
    {
      assert ts[i].credentials[j].id in before;
    }
    forall id | id in owners
      ensures exists i, j :: 0 <= i < n + 1 && 0 <= j < |ts[i].credentials|
                && ts[i].credentials[j].id == id && ts[i].connection == owners[id]
    {
      if id in before && before[id] == owners[id] {
        var i, j :| 0 <= i < n && 0 <= j < |ts[i].credentials| && ts[i].credentials[j].id == id && ts[i].connection == before[id];
      } else {
        var j :| 0 <= j < |ts[n].credentials| && ts[n].credentials[j].id == id && owners[id] == ts[n].connection;
        assert ts[n].connection == owners[id];
      }
    }
  }

  lemma PrefixInvalid(protocol: string, ts: seq<Target>, n: nat)
    requires n < |ts|
    requires !ValidId(ts[n].id) || !ValidId(ts[n].connection) || ts[n].protocol != protocol || ts[n].weight < 0
             || ts[n].weight > 100 || ts[n].id in TargetIds(ts, n) || |ts[n].credentials| > MAX_CREDENTIALS
    ensures !ValidTargets(protocol, ts)
  {
    hide ValidId, OneOwner;
    if ts[n].id in TargetIds(ts, n) {
      var j :| 0 <= j < n && ts[j].id == ts[n].id;
    } else {
      assert !ValidTarget(protocol, ts[n]);
    }
  }

  lemma BadTarget(protocol: string, ts: seq<Target>, n: nat)
    requires n < |ts| && !CredentialsFit(ts, n)
    ensures !ValidTargets(protocol, ts)
  {
    hide ValidId, OneOwner;
    if exists i :: 0 <= i < n && !OneOwner(ts[i], ts[n]) {
      var i :| 0 <= i < n && !OneOwner(ts[i], ts[n]);
    } else {
      assert !ValidTarget(protocol, ts[n]);
    }
  }

  lemma PrefixGrows(protocol: string, ts: seq<Target>, n: nat)
    requires n < |ts| <= MAX_TARGETS && ValidTargets(protocol, ts[..n]) && CredentialsFit(ts, n)
    requires ValidId(ts[n].id) && ValidId(ts[n].connection) && ts[n].protocol == protocol && 0 <= ts[n].weight <= 100
    requires ts[n].id !in TargetIds(ts, n) && |ts[n].credentials| <= MAX_CREDENTIALS
    ensures ValidTargets(protocol, ts[..n + 1])
  {
    hide ValidId;
    var more := ts[..n + 1];
    assert ValidTarget(protocol, ts[n]);
    forall i, j | 0 <= i < |more| && 0 <= j < |more| ensures OneOwner(more[i], more[j]) {
      if i < n && j < n { assert OneOwner(ts[..n][i], ts[..n][j]); }
    }
  }

  lemma CopyIsValid(protocol: string, ts: seq<Target>, copied: seq<Target>)
    requires ValidTargets(protocol, ts) && |copied| == |ts|
    requires forall i :: 0 <= i < |ts| ==> SortedCopy(ts[i], copied[i])
    ensures ValidTargets(protocol, copied) && forall i :: 0 <= i < |copied| ==> Ordered(copied[i].credentials)
    ensures forall n :: 1 <= n <= MAX_ATTEMPTS ==> ValidPlan(Plan(protocol, copied, n))
  {
    hide ValidId, Ordered, SortedCopy, OneOwner;
    forall i | 0 <= i < |ts| ensures ValidTarget(protocol, copied[i]) && copied[i].id == ts[i].id {
      CopiedTarget(protocol, ts[i], copied[i]);
    }
    forall i, j | 0 <= i < |ts| && 0 <= j < |ts| ensures OneOwner(copied[i], copied[j]) {
      CopiedOwner(ts[i], copied[i], ts[j], copied[j]);
    }
    forall i | 0 <= i < |ts| ensures Ordered(copied[i].credentials) { CopiedOrder(ts[i], copied[i]); }
  }

  lemma CopiedOrder(t: Target, s: Target)
    requires SortedCopy(t, s)
    ensures Ordered(s.credentials)
  {}

  lemma CopiedMember(t: Target, s: Target, i: nat) returns (j: nat)
    requires SortedCopy(t, s) && i < |s.credentials|
    ensures j < |t.credentials| && t.credentials[j] == s.credentials[i]
  {
    assert s.credentials[i] in multiset(t.credentials);
    j :| 0 <= j < |t.credentials| && t.credentials[j] == s.credentials[i];
  }

  lemma CopiedTarget(protocol: string, t: Target, s: Target)
    requires ValidTarget(protocol, t) && SortedCopy(t, s)
    ensures ValidTarget(protocol, s) && s.id == t.id && s.connection == t.connection
  {
    hide ValidId;
    assert |multiset(s.credentials)| == |multiset(t.credentials)|;
    forall i | 0 <= i < |s.credentials| ensures ValidId(s.credentials[i].id) && 0 <= s.credentials[i].priority {
      var j := CopiedMember(t, s, i);
    }
    forall i, j | 0 <= i < j < |s.credentials| ensures s.credentials[i].id != s.credentials[j].id {
      OrderedDistinct(t, s, i, j);
    }
  }

  lemma OrderedDistinct(t: Target, s: Target, i: nat, j: nat)
    requires DistinctIds(t.credentials) && SortedCopy(t, s) && i < j < |s.credentials|
    ensures s.credentials[i].id != s.credentials[j].id
  {
    var k := CopiedMember(t, s, i);
    var l := CopiedMember(t, s, j);
    BeforeOrder(s.credentials[i], s.credentials[i], s.credentials[i]);
    assert Before(s.credentials[i], s.credentials[j]);
  }

  lemma CopiedOwner(t: Target, s: Target, t': Target, s': Target)
    requires OneOwner(t, t') && SortedCopy(t, s) && SortedCopy(t', s')
    ensures OneOwner(s, s')
  {
    hide Ordered;
    forall i, j | 0 <= i < |s.credentials| && 0 <= j < |s'.credentials| && s.credentials[i].id == s'.credentials[j].id
      ensures s.connection == s'.connection
    {
      var k := CopiedMember(t, s, i);
      var l := CopiedMember(t', s', j);
    }
  }
}
