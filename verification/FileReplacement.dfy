/** Replacing a delivered key file so that every crash leaves the slot naming the old file, or the
    new one together with a durable record that names both. What other programs, the network and
    the disk answer is arbitrary; only this controller and its agent write the directory. */
module FileReplacement {
  import opened Wrappers

  const MAX_KEY_BYTES := 4096
  const OWNER_ONLY := 384 // octal 0600

  // ---------- records ----------

  datatype File = File(device: nat, inode: nat, uid: nat, mode: nat, size: int, modified: int)

  const NO_FILE := File(0, 0, 0, 0, 0, 0)

  datatype Phase = Prepared | PromotePending | ReportPending | Reported | OtherPhase(name: string)
  datatype AgentState = AgentUnknown | AgentFailed | OtherAgent(name: string)
  datatype OutputState = OutputUnknown | Written | OutputFailed | OtherOutput(name: string)

  datatype Config = Config(url: string, slot: string, revision: string, digest: string, uid: nat)

  datatype Replacement = Replacement(before: File, stage: string, after: File, promoted: bool)

  datatype Operation = Operation(
    schema: int,
    url: string,
    slot: string,
    phase: Phase,
    request: string,
    revision: string,
    digest: string,
    agent: AgentState,
    output: OutputState,
    replacement: Option<Replacement>)

  predicate Hex(c: char) { '0' <= c <= '9' || 'a' <= c <= 'f' }

  /** A random version 4 identifier in its canonical text form. */
  predicate ValidUuid(s: string)
  {
    && |s| == 36
    && s[8] == '-' && s[13] == '-' && s[18] == '-' && s[23] == '-' && s[14] == '4' && s[19] in {'8', '9', 'a', 'b'}
    && forall i :: 0 <= i < 36 && i !in {8, 13, 18, 23} ==> Hex(s[i])
  }

  predicate ValidFile(cfg: Config, f: File)
  {
    f.inode != 0 && f.uid == cfg.uid && f.mode == OWNER_ONLY && 0 < f.size <= MAX_KEY_BYTES
  }

  function StagingLeaf(slot: string, request: string): (s: string) { ".routex-" + slot + "-" + request + ".pending" }

  predicate ValidReplacement(cfg: Config, r: Replacement, op: Operation)
  {
    var recorded := r.after != NO_FILE;
    && ValidFile(cfg, r.before) && r.stage == StagingLeaf(op.slot, op.request)
    && (recorded ==> ValidFile(cfg, r.after) && r.after.device == r.before.device && r.after.inode != r.before.inode)
    && r.promoted == (op.output == Written)
    && (r.promoted ==> recorded && (op.phase == ReportPending || op.phase == Reported))
    && (op.phase == Prepared ==> !recorded)
    && (op.phase == PromotePending ==> !r.promoted && recorded)
  }

  /** What a saved operation must satisfy to be read back. */
  predicate Valid(cfg: Config, op: Operation)
  {
    && (op.schema == 1 || op.schema == 2)
    && op.url == cfg.url && op.slot == cfg.slot && op.revision == cfg.revision && op.digest == cfg.digest
    && ValidUuid(op.request)
    && !op.phase.OtherPhase? && !op.agent.OtherAgent? && !op.output.OtherOutput?
    && (op.schema == 1 ==> op.replacement == None && op.phase != PromotePending)
    && (op.schema == 2 ==> op.replacement.Some? && ValidReplacement(cfg, op.replacement.value, op))
    && (op.phase == Prepared || op.phase == PromotePending ==> op.agent == AgentUnknown && op.output == OutputUnknown)
  }

  // ---------- the disk ----------

  datatype Report = Report(agent: AgentState, output: OutputState)

  /** Which file a name or an open descriptor refers to, apart from what can be read of it. */
  type Node = nat

  datatype Name = SlotName | StageName

  /** slot, stage and record are what programs see now; slots and records are what a crash at this
      moment may leave, since an unsynced change may or may not survive. */
  datatype Disk = Disk(
    slot: Option<File>,
    slotNode: Node,
    slots: set<Option<File>>,
    stage: Option<File>,
    stageNode: Node,
    record: Option<Operation>,
    records: set<Option<Operation>>,
    locked: bool,
    reports: seq<Report>)

  function Lookup(d: Disk, name: Name): (f: Option<File>) { if name == SlotName then d.slot else d.stage }

  function NodeOf(d: Disk, name: Name): (n: Node) { if name == SlotName then d.slotNode else d.stageNode }

  predicate Linked(d: Disk, name: Name, node: Node) { Lookup(d, name).Some? && NodeOf(d, name) == node }

  /** What an open descriptor tells of its file, if the file is protected and has one link. */
  function Inspect(cfg: Config, d: Disk, held: Node): (f: Option<File>)
  {
    if Linked(d, SlotName, held) && Linked(d, StageName, held) then None
    else if Linked(d, SlotName, held) && ValidFile(cfg, d.slot.value) then d.slot
    else if Linked(d, StageName, held) && ValidFile(cfg, d.stage.value) then d.stage
    else None
  }

  /** A file system gives no two live files the same device and inode number. */
  predicate DistinctInodes(d: Disk)
  {
    (d.slot.Some? && d.stage.Some?
     && d.slot.value.device == d.stage.value.device && d.slot.value.inode == d.stage.value.inode) ==>
      d.slotNode == d.stageNode
  }

  datatype Crash = Crash(slot: Option<File>, record: Option<Operation>)

  function Crashes(d: Disk): (cs: set<Crash>)
  {
    set s, r | s in d.slots && r in d.records :: Crash(s, r)
  }

  /** Nothing is in flight: a crash would change nothing. */
  predicate Quiet(d: Disk) { d.slots == {d.slot} && d.records == {d.record} }

  /** The record has reached the point where the slot may change, and names both files. */
  predicate NamesBoth(op: Operation, reviewed: File, now: Option<File>)
  {
    && op.replacement.Some? && op.replacement.value.before == reviewed
    && now == Some(op.replacement.value.after)
    && (op.phase == PromotePending || op.phase == ReportPending || op.phase == Reported)
  }

  /** What a crash may leave of a replacement of file reviewed. */
  predicate CrashSafe(cfg: Config, reviewed: File, c: Crash)
  {
    && (c.record.Some? ==> Valid(cfg, c.record.value))
    && (c.slot == Some(reviewed) || (c.record.Some? && NamesBoth(c.record.value, reviewed, c.slot)))
    && (c.record.Some? && c.record.value.output == Written ==> NamesBoth(c.record.value, reviewed, c.slot))
  }

  /** Every moment so far was safe, and the present one is among them. */
  ghost predicate AlwaysSafe(cfg: Config, reviewed: File, d: Disk, seen: set<Crash>)
  {
    Crashes(d) <= seen && forall c :: c in seen ==> CrashSafe(cfg, reviewed, c)
  }

  /** Written is reported only while every crash would leave the new file in the slot and the claim
      on record. */
  predicate HonestReports(d: Disk)
  {
    forall i, r :: 0 <= i < |d.reports| && d.reports[i].output == Written && r in d.records ==>
      && r.Some? && r.value.output == Written && r.value.replacement.Some?
      && d.slots == {Some(r.value.replacement.value.after)}
  }

  datatype Result = Result(reported: bool, joined: bool, gone: bool, agent: AgentState, output: OutputState)

  /** Where the world may fail an operation: locks, reads, writes, checks, other programs, the network. */
  datatype Step =
    | TakeLock
    | ReleaseLock
    | ReadRecord
    | LookAtSlot
    | LookAgain
    | LookOnceMore
    | Configure
    | SaveIntent
    | Authorize
    | ConfirmAgent
    | ReadStage
    | SyncStage
    | LookAtStage
    | SyncDirectory
    | SavePending
    | CompareSlot
    | CompareStage
    | StayLive
    | MoveFile
    | SyncMove
    | CompareResult
    | SaveOutcome
    | CleanUp
    | StillLive
    | Connect
    | SendOutcome
    | SaveReceipt

  /** How the agent ran and which file it staged. */
  datatype AgentRun = AgentRun(started: bool, joined: bool, gone: bool, succeeded: bool, stage: Option<File>, node: Node)

  /** The agent ran to its end and staged a valid new file beside the reviewed one. */
  predicate Delivers(cfg: Config, run: AgentRun, reviewed: File, held: Node)
  {
    && run.started && run.joined && run.gone && run.succeeded
    && run.stage.Some? && ValidFile(cfg, run.stage.value) && run.node != held
    && run.stage.value.device == reviewed.device && run.stage.value.inode != reviewed.inode
  }

  /** A valid new file is staged beside the reviewed one, which the slot still names. */
  predicate Staged(cfg: Config, d: Disk, reviewed: File, held: Node)
  {
    && d.slotNode == held && ValidFile(cfg, reviewed)
    && d.stage.Some? && ValidFile(cfg, d.stage.value) && d.stageNode != held
    && d.stage.value.device == reviewed.device && d.stage.value.inode != reviewed.inode
  }

  const NOTHING := Result(false, false, false, AgentUnknown, OutputUnknown)

  class Controller {
    const cfg: Config
    var d: Disk
    /** Every state that a crash since the operation began could have left. */
    ghost var seen: set<Crash>

    constructor (cfg: Config, d: Disk)
      ensures this.cfg == cfg && this.d == d && seen == Crashes(d)
    {
      this.cfg := cfg;
      this.d := d;
      seen := Crashes(d);
    }

    // ---------- single steps ----------

    /** Writes a new record next to the old one, renames it and syncs. When this fails the old
        record or the new one may be found afterwards. */
    method SaveOperation(op: Operation, works: bool, ghost reviewed: File) returns (ok: bool)
      requires AlwaysSafe(cfg, reviewed, d, seen)
      requires forall s :: s in d.slots ==> CrashSafe(cfg, reviewed, Crash(s, Some(op)))
      modifies this
      ensures AlwaysSafe(cfg, reviewed, d, seen)
      ensures d == old(d).(record := d.record, records := d.records)
      ensures ok == works
      ensures ok ==> d.record == Some(op) && d.records == {Some(op)}
      ensures !ok ==> d.records == old(d.records) + {Some(op)} && (d.record == old(d.record) || d.record == Some(op))
    {
      seen := seen + Crashes(d.(records := d.records + {Some(op)}));
      var renamed: bool := *;
      if works {
        d := d.(record := Some(op), records := {Some(op)});
        return true;
      }
      d := d.(records := d.records + {Some(op)}, record := if renamed then Some(op) else d.record);
      return false;
    }

    /** Moves the staged file over the slot. Until the directory is synced either may survive. */
    method Rename(file: File, works: bool, ghost reviewed: File) returns (ok: bool)
      requires AlwaysSafe(cfg, reviewed, d, seen) && d.stage == Some(file)
      requires forall r :: r in d.records ==> CrashSafe(cfg, reviewed, Crash(Some(file), r))
      modifies this
      ensures AlwaysSafe(cfg, reviewed, d, seen)
      ensures d == old(d).(slot := d.slot, slotNode := d.slotNode, slots := old(d.slots) + {Some(file)}, stage := d.stage)
      ensures ok == works
      ensures ok ==> d.slot == Some(file) && d.slotNode == old(d.stageNode) && d.stage == None
    {
      seen := seen + Crashes(d.(slots := d.slots + {Some(file)}));
      var moved: bool := *;
      d := d.(slots := d.slots + {Some(file)});
      if works || moved { d := d.(slot := Some(file), slotNode := d.stageNode, stage := None); }
      return works;
    }

    /** Makes the visible slot durable. */
    method SyncOutput(works: bool, ghost reviewed: File) returns (ok: bool)
      requires AlwaysSafe(cfg, reviewed, d, seen) && d.slot in d.slots
      modifies this
      ensures AlwaysSafe(cfg, reviewed, d, seen)
      ensures ok == works && d == old(d).(slots := if ok then {old(d.slot)} else old(d.slots))
    {
      ok := works;
      if ok { d := d.(slots := {d.slot}); }
    }

    /** Opens the name and compares its identity, and that of the descriptor held since the review,
        with the identity reviewed. It succeeds exactly when both can be read, the name still refers to
        the very file held, nothing readable of it changed, and no other name refers to it. */
    method ExactIdentity(name: Name, held: Node, expected: File, readable: bool) returns (ok: bool)
      requires DistinctInodes(d)
      ensures ok <==>
                && readable && Linked(d, name, held) && (forall other :: Linked(d, other, held) ==> other == name)
                && Lookup(d, name) == Some(expected) && ValidFile(cfg, expected)
    {
      if !readable || Lookup(d, name).None? { return false; }
      var current, heldIdentity := Inspect(cfg, d, NodeOf(d, name)), Inspect(cfg, d, held);
      ok := current == Some(expected) && heldIdentity == Some(expected);
    }

    // ---------- promotion ----------

    /** Records the staged file durably before it replaces the old one, and confirms it after. */
    method PromoteReplacement(op: Operation, held: Node, fails: set<Step>, ghost reviewed: File)
      returns (ok: bool, promoted: Operation)
      requires Launched(cfg, op, reviewed) && d.record == Some(op) && d.records == {Some(op)} && DistinctInodes(d)
      requires d.slot == Some(reviewed) && d.slots == {Some(reviewed)}
      requires AlwaysSafe(cfg, reviewed, d, seen)
      modifies this
      ensures AlwaysSafe(cfg, reviewed, d, seen)
      ensures d == old(d).(slot := d.slot, slotNode := d.slotNode, slots := d.slots, stage := d.stage,
                           record := d.record, records := d.records)
      ensures ok ==> old(d.slotNode) == held && d.slotNode == old(d.stageNode)
      ensures ok ==> promoted.agent == op.agent && promoted.request == op.request
      ensures fails == {} && old(Staged(cfg, d, reviewed, held)) ==> ok
      ensures ok ==>
                && Confirmed(cfg, promoted, reviewed)
                && d.record == Some(Pending(promoted)) && d.records == {Some(Pending(promoted))}
                && old(d.stage) == d.slot && d.stage == None
                && d.slots == {Some(promoted.replacement.value.after)} && d.slot == Some(promoted.replacement.value.after)
    {
      promoted := op;
      var r := op.replacement.value;
      if ReadStage in fails || d.stage.None? { return false, promoted; }
      var file, staged := d.stage.value, d.stageNode;
      if !ValidFile(cfg, file) || file.device != r.before.device { return false, promoted; }
      if SyncStage in fails { return false, promoted; }
      var exact := ExactIdentity(StageName, staged, file, LookAtStage !in fails);
      if !exact { return false, promoted; }
      var durable := SyncOutput(SyncDirectory !in fails, reviewed);
      if !durable { return false, promoted; }
      var pending := op.(phase := PromotePending, replacement := Some(r.(after := file)));
      if !Valid(cfg, pending) { return false, promoted; }
      PendingIsSafe(cfg, op, reviewed, file);
      var saved := SaveOperation(pending, SavePending !in fails, reviewed);
      if !saved { return false, promoted; }
      exact := ExactIdentity(SlotName, held, r.before, CompareSlot !in fails);
      if !exact { return false, promoted; }
      exact := ExactIdentity(StageName, staged, file, CompareStage !in fails);
      if !exact { return false, promoted; }
      if StayLive in fails { return false, promoted; }
      var moved := Rename(file, MoveFile !in fails, reviewed);
      if !moved { return false, promoted; }
      durable := SyncOutput(SyncMove !in fails, reviewed);
      if !durable { return false, promoted; }
      exact := ExactIdentity(SlotName, staged, file, CompareResult !in fails);
      if !exact { return false, promoted; }
      promoted := pending.(phase := ReportPending, output := Written, replacement := Some(r.(after := file, promoted := true)));
      return true, promoted;
    }

    // ---------- whole operations ----------

    /** Sends the durable outcome, which the server may or may not take. */
    method SendReport(op: Operation, works: bool) returns (ok: bool)
      modifies this`d
      ensures ok == works && d == old(d).(reports := old(d.reports) + [Report(op.agent, op.output)])
    {
      d := d.(reports := d.reports + [Report(op.agent, op.output)]);
      ok := works;
    }

    /** The slot still names the reviewed file, the one held open, and nothing is staged. */
    method CheckOutput(held: Node, reviewed: File, readable: bool) returns (ok: bool)
      requires DistinctInodes(d)
      ensures ok <==>
                readable && d.slot == Some(reviewed) && d.slotNode == held && d.stage == None && ValidFile(cfg, reviewed)
    {
      ok := ExactIdentity(SlotName, held, reviewed, readable);
      ok := ok && d.stage == None;
    }

    /** Replaces the reviewed file in the slot by one the agent delivers. A slot that is locked, or
        an operation that is still on record, refuses a new one. */
    method Replace(request: string, fails: set<Step>, run: AgentRun) returns (r: Result, ok: bool)
      requires Quiet(d) && DistinctInodes(d)
      modifies this
      ensures old(d.record).Some? ==> d == old(d) && !ok
      ensures old(d.record).None? && !old(d.locked) ==>
                && (d.reports == [] || d.reports == [Report(AgentUnknown, Written)])
                && (d.reports != [] ==>
                      d.record.Some? && d.record.value.agent == AgentUnknown && d.record.value.output == Written)
      ensures r.reported ==> d.reports != [] && r.agent == AgentUnknown && r.output == Written
      ensures old(d.record).None? && !old(d.locked) && cfg.revision != "1" && ValidUuid(request)
              && old(d.slot).Some? && ValidFile(cfg, old(d.slot).value) && old(d.stage).None?
              && Delivers(cfg, run, old(d.slot).value, old(d.slotNode)) && fails == {} ==>
                ok && !d.locked && d.slot == run.stage && d.slotNode == run.node && d.stage == None
                && d.reports == [Report(AgentUnknown, Written)]
      ensures old(d.record).None? && old(d.slot).Some? && !old(d.locked) ==>
                && AlwaysSafe(cfg, old(d.slot).value, d, seen) && HonestReports(d)
                && (!d.locked ==> Agreed(old(d.slot).value, d))
                && (ok ==> r.reported && d.record.Some? && d.record.value.output == Written
                           && NamesBoth(d.record.value, old(d.slot).value, d.slot) && Quiet(d))
    {
      r, ok := NOTHING, false;
      if d.record.Some? || d.locked { return; }
      seen := Crashes(d);
      d := d.(locked := true, reports := []);
      if TakeLock in fails { return; }
      var keep := false;
      if cfg.revision != "1" && d.slot.Some? && ValidFile(cfg, d.slot.value) && ValidUuid(request) {
        r, ok, keep := Deliver(request, d.slotNode, d.slot.value, fails, run);
      }
      if !keep && ReleaseLock !in fails { d := d.(locked := false); }
    }

    /** The replacement while the slot is locked. keep says that the lock must stay for a review. */
    method Deliver(request: string, held: Node, reviewed: File, fails: set<Step>, run: AgentRun)
      returns (r: Result, ok: bool, keep: bool)
      requires d.slot == Some(reviewed) && d.record == None && Quiet(d) && d.reports == [] && d.locked
      requires d.slotNode == held && DistinctInodes(d)
      requires ValidFile(cfg, reviewed) && ValidUuid(request) && seen == Crashes(d)
      modifies this
      ensures d.locked && AlwaysSafe(cfg, reviewed, d, seen) && HonestReports(d)
      ensures d.reports == [] || d.reports == [Report(AgentUnknown, Written)]
      ensures d.reports != [] ==> d.record.Some? && d.record.value.agent == AgentUnknown && d.record.value.output == Written
      ensures r.reported ==> d.reports != [] && r.agent == AgentUnknown && r.output == Written
      ensures fails == {} && old(d.stage).None? && Delivers(cfg, run, reviewed, held) ==>
                ok && !keep && d.slot == run.stage && d.slotNode == run.node && d.stage == None && d.reports != []
      ensures !keep ==> Agreed(reviewed, d)
      ensures ok ==> r.reported && d.record.Some? && d.record.value.output == Written
                     && NamesBoth(d.record.value, reviewed, d.slot) && Quiet(d)
    {
      r, ok, keep := NOTHING, false, false;
      var op := Operation(2, cfg.url, cfg.slot, Prepared, request, cfg.revision, cfg.digest, AgentUnknown, OutputUnknown,
                          Some(Replacement(reviewed, StagingLeaf(cfg.slot, request), NO_FILE, false)));
      var ready := CheckOutput(held, reviewed, LookAtSlot !in fails);
      if !ready { return; }
      if Configure in fails || !Valid(cfg, op) { return; }
      LaunchedIsSafe(cfg, op, reviewed);
      var saved := SaveOperation(op, SaveIntent !in fails, reviewed);
      if !saved { return; }
      ready := CheckOutput(held, reviewed, LookAgain !in fails);
      if !ready { return; }
      if Authorize in fails { return; }
      ready := CheckOutput(held, reviewed, LookOnceMore !in fails);
      if !ready { return; }
      RunAgent(run);
      var started, joined, gone, succeeded := run.started, run.joined, run.gone, run.succeeded;
      keep := started && (!joined || !gone);
      r := r.(joined := joined, gone := gone);
      if !succeeded || !joined || !gone {
        if (joined && gone) || !started { op := op.(agent := AgentFailed); }
        op := op.(phase := ReportPending);
        keep := true;
        LaunchedIsSafe(cfg, op.(phase := Prepared, agent := AgentUnknown), reviewed);
        saved := SaveOperation(op, SaveOutcome !in fails, reviewed);
        r := r.(agent := op.agent, output := op.output);
        return;
      }
      if ConfirmAgent in fails { return r, false, true; }
      r, ok, keep := Promote(op, held, reviewed, r, fails);
    }

    /** The second half: the agent is done, and the slot may change. */
    method Promote(op: Operation, held: Node, reviewed: File, before: Result, fails: set<Step>)
      returns (r: Result, ok: bool, keep: bool)
      requires Launched(cfg, op, reviewed) && d.record == Some(op) && d.records == {Some(op)} && !before.reported
      requires d.slot == Some(reviewed) && d.slots == {Some(reviewed)} && d.reports == [] && DistinctInodes(d)
      requires AlwaysSafe(cfg, reviewed, d, seen)
      modifies this
      ensures d.locked == old(d.locked) && AlwaysSafe(cfg, reviewed, d, seen) && HonestReports(d)
      ensures d.reports == [] || d.reports == [Report(AgentUnknown, Written)]
      ensures d.reports != [] ==> d.record.Some? && d.record.value.agent == AgentUnknown && d.record.value.output == Written
      ensures r.reported ==> d.reports != [] && r.agent == AgentUnknown && r.output == Written
      ensures fails == {} && old(Staged(cfg, d, reviewed, held)) ==>
                ok && !keep && d.slot == old(d.stage) && d.slotNode == old(d.stageNode) && d.stage == None && d.reports != []
      ensures !keep ==> Agreed(reviewed, d)
      ensures ok ==> r.reported && d.record.Some? && d.record.value.output == Written
                     && NamesBoth(d.record.value, reviewed, d.slot) && Quiet(d)
    {
      hide Valid, CrashSafe, Crashes, Launched, AlwaysSafe;
      LaunchedUnknown(cfg, op, reviewed);
      r, keep := before, true;
      var promoted;
      ok, promoted := PromoteReplacement(op, held, fails, reviewed);
      if !ok { return; }
      ok := false;
      r := r.(agent := promoted.agent, output := promoted.output);
      ConfirmedIsSafe(cfg, promoted, reviewed);
      var saved := SaveOperation(promoted, SaveOutcome !in fails, reviewed);
      if !saved { return; }
      keep := false;
      if CleanUp in fails { return; }
      if StillLive in fails { return; }
      SameCrashes(d, d.(reports := d.reports + [Report(promoted.agent, promoted.output)]), cfg, reviewed, seen);
      var taken := SendReport(promoted, SendOutcome !in fails);
      if !taken { return; }
      r := r.(reported := true);
      saved := SaveOperation(promoted.(phase := Reported), SaveReceipt !in fails, reviewed);
      ok := saved;
    }

    /** The agent writes the staged file and nothing else in the directory. */
    method RunAgent(run: AgentRun)
      requires DistinctInodes(d)
      modifies this`d
      ensures d == old(d).(stage := d.stage, stageNode := d.stageNode) && DistinctInodes(d)
      ensures !run.started ==> d == old(d)
      ensures run.started && DistinctInodes(old(d).(stage := run.stage, stageNode := run.node)) ==>
                d.stage == run.stage && d.stageNode == run.node
    {
      var written := d.(stage := run.stage, stageNode := run.node);
      if run.started && DistinctInodes(written) { d := written; }
    }

    /** Sends the recorded outcome again after an interruption, without touching any output. */
    method RetryReport(fails: set<Step>, ghost reviewed: File) returns (r: Result, ok: bool)
      requires Quiet(d) && CrashSafe(cfg, reviewed, Crash(d.slot, d.record)) && HonestReports(d)
      requires seen == Crashes(d)
      modifies this
      ensures AlwaysSafe(cfg, reviewed, d, seen) && HonestReports(d)
      ensures d == old(d).(record := d.record, records := d.records, reports := d.reports)
      ensures forall x :: x in d.records + {d.record} ==> SameOutcome(old(d.record), x)
      ensures d.reports == old(d.reports)
              || (old(d.record).Some?
                  && d.reports == old(d.reports) + [Report(old(d.record).value.agent, old(d.record).value.output)])
      ensures r.reported ==>
                && d.reports != old(d.reports)
                && r.agent == old(d.record).value.agent && r.output == old(d.record).value.output
      ensures ok <==> r.reported && SaveReceipt !in fails
      ensures d.reports != old(d.reports) <==>
                && ReadRecord !in fails && old(d.record).Some? && Valid(cfg, old(d.record).value)
                && (old(d.record).value.phase == Prepared ==> SaveIntent !in fails) && Connect !in fails
      ensures r.reported <==> d.reports != old(d.reports) && SendOutcome !in fails
      ensures ok ==> r.reported && d.record.Some? && old(d.record).Some?
                     && d.record.value == old(d.record).value.(phase := Reported)
    {
      r, ok := NOTHING, false;
      if ReadRecord in fails || d.record.None? || !Valid(cfg, d.record.value) { return; }
      var op := d.record.value;
      if op.phase == Prepared {
        op := op.(phase := ReportPending);
        var saved := SaveOperation(op, SaveIntent !in fails, reviewed);
        if !saved { return; }
      }
      if Connect in fails { return; }
      r := r.(agent := op.agent, output := op.output);
      var taken := SendReport(op, SendOutcome !in fails);
      if !taken { return; }
      r := r.(reported := true);
      op := op.(phase := Reported);
      var saved := SaveOperation(op, SaveReceipt !in fails, reviewed);
      ok := saved;
    }

    /** A crash keeps one of the states that may survive it. */
    method Restart(ghost reviewed: File)
      requires AlwaysSafe(cfg, reviewed, d, seen) && d.slots != {} && d.records != {}
      modifies this
      ensures Quiet(d) && d.slot in old(d.slots) && d.record in old(d.records)
      ensures CrashSafe(cfg, reviewed, Crash(d.slot, d.record)) && seen == Crashes(d)
      ensures old(HonestReports(d)) ==> HonestReports(d)
    {
      var s :| s in d.slots;
      var r :| r in d.records;
      assert Crash(s, r) in Crashes(d);
      var node: Node := *;
      d := d.(slot := s, slotNode := node, slots := {s}, record := r, records := {r});
      seen := Crashes(d);
    }
  }

  /** The record differs in its phase at most. */
  predicate SameOutcome(was: Option<Operation>, now: Option<Operation>)
  {
    now == was || (was.Some? && now.Some? && now.value == was.value.(phase := now.value.phase))
  }

  /** The operation as it was saved before the agent started. */
  predicate Launched(cfg: Config, op: Operation, reviewed: File)
  {
    && Valid(cfg, op) && op.schema == 2 && op.phase == Prepared
    && op.replacement == Some(Replacement(reviewed, StagingLeaf(cfg.slot, op.request), NO_FILE, false))
  }

  lemma LaunchedUnknown(cfg: Config, op: Operation, reviewed: File)
    requires Launched(cfg, op, reviewed)
    ensures op.agent == AgentUnknown
  {
    hide ValidUuid, ValidReplacement;
  }

  /** The operation after a confirmed promotion, ready to be reported. */
  predicate Confirmed(cfg: Config, op: Operation, reviewed: File)
  {
    && Valid(cfg, op) && op.schema == 2 && op.phase == ReportPending && op.output == Written
    && op.replacement.Some? && op.replacement.value.before == reviewed && op.replacement.value.promoted
  }

  /** The durable record that went before a confirmed promotion. */
  function Pending(op: Operation): (p: Operation)
    requires op.replacement.Some?
  {
    op.(phase := PromotePending, output := OutputUnknown, replacement := Some(op.replacement.value.(promoted := false)))
  }

  lemma PendingIsSafe(cfg: Config, op: Operation, reviewed: File, file: File)
    requires Launched(cfg, op, reviewed)
    requires Valid(cfg, op.(phase := PromotePending, replacement := Some(op.replacement.value.(after := file))))
    ensures var pending := op.(phase := PromotePending, replacement := Some(op.replacement.value.(after := file)));
            && CrashSafe(cfg, reviewed, Crash(Some(reviewed), Some(pending)))
            && CrashSafe(cfg, reviewed, Crash(Some(file), Some(pending)))
  {
    hide ValidUuid;
  }

  /** Slot and record tell the same story whatever a crash leaves: either the old file with no
      claim and nothing in flight, or the new file with the claim that it was written. */
  predicate Agreed(reviewed: File, d: Disk)
  {
    forall s, r :: s in d.slots && r in d.records ==>
      || (s == Some(reviewed) && (r.Some? ==> r.value.phase != PromotePending && r.value.output != Written))
      || (r.Some? && r.value.output == Written && NamesBoth(r.value, reviewed, s))
  }

  lemma ConfirmedIsSafe(cfg: Config, op: Operation, reviewed: File)
    requires Confirmed(cfg, op, reviewed)
    ensures var s := Some(op.replacement.value.after);
            && CrashSafe(cfg, reviewed, Crash(s, Some(op)))
            && CrashSafe(cfg, reviewed, Crash(s, Some(op.(phase := Reported))))
  {
    hide ValidUuid;
  }

  /** Reports change nothing on the disk. */
  lemma SameCrashes(x: Disk, y: Disk, cfg: Config, reviewed: File, seen: set<Crash>)
    requires y.slots == x.slots && y.records == x.records
    ensures AlwaysSafe(cfg, reviewed, x, seen) ==> AlwaysSafe(cfg, reviewed, y, seen)
  {}

  /** The saved operation, before and after the agent failed. */
  lemma LaunchedIsSafe(cfg: Config, op: Operation, reviewed: File)
    requires Launched(cfg, op, reviewed)
    ensures CrashSafe(cfg, reviewed, Crash(Some(reviewed), Some(op)))
    ensures CrashSafe(cfg, reviewed, Crash(Some(reviewed), Some(op.(phase := ReportPending))))
    ensures CrashSafe(cfg, reviewed, Crash(Some(reviewed), Some(op.(phase := ReportPending, agent := AgentFailed))))
  {
    hide ValidUuid;
  }
}
