/** What the contract of a submission says, read off the task and its schedule. */
module TaskContracts {
  import opened Records
  import opened TaskSpecs

  /** The revision of the schedule is in force for a submission: its checkpoint is before it. */
  predicate InForce(t: Task, index: nat, k: nat) {
    k < |t.revisions| && t.revisions[k].after < index
  }

  /** The revision sets, moves or removes the file. */
  predicate Mentions(r: Revision, name: string) {
    name in r.inputs || name in r.private || name in r.remove
  }

  /** The notes of the revisions in force, in the order of the schedule. */
  function Notes(revisions: seq<Scheduled>, index: nat): string {
    if revisions == [] then ""
    else
      var last := revisions[|revisions| - 1];
      Notes(revisions[..|revisions| - 1], index)
      + if last.after < index && last.revision.note != "" then "\n\n" + last.revision.note else ""
  }

  /** The last revision in force that sets the checks. */
  predicate SetsChecks(t: Task, index: nat, k: nat) {
    && InForce(t, index, k) && t.revisions[k].revision.checks.Some?
    && forall j | k < j < |t.revisions| && InForce(t, index, j) :: t.revisions[j].revision.checks.None?
  }

  /** The last revision in force that mentions the file. */
  predicate LastMentions(t: Task, index: nat, k: nat, name: string) {
    && InForce(t, index, k) && Mentions(t.revisions[k].revision, name)
    && forall j | k < j < |t.revisions| && InForce(t, index, j) :: !Mentions(t.revisions[j].revision, name)
  }

  /** The file is in `files` exactly when it is in `given`, and with the same bytes. */
  predicate Agree(files: Files, given: Files, name: string) {
    && (name in files <==> name in given)
    && (name in files ==> files[name] == given[name])
  }

  // ---- After the first `k` revisions ----

  function FirstNotes(revisions: seq<Scheduled>): string {
    if revisions == [] then ""
    else
      var note := revisions[|revisions| - 1].revision.note;
      FirstNotes(revisions[..|revisions| - 1]) + if note != "" then "\n\n" + note else ""
  }

  ghost predicate Checked(t: Task, k: nat, contract: Task)
    requires k <= |t.revisions|
  {
    && (forall i | 0 <= i < k && t.revisions[i].revision.checks.Some?
                   && (forall j | i < j < k :: t.revisions[j].revision.checks.None?) ::
          contract.checks == t.revisions[i].revision.checks.value)
    && ((forall i | 0 <= i < k :: t.revisions[i].revision.checks.None?) ==> contract.checks == t.checks)
  }

  ghost predicate Filed(t: Task, k: nat, contract: Task, name: string)
    requires k <= |t.revisions|
  {
    && (forall i | 0 <= i < k && Mentions(t.revisions[i].revision, name)
                   && (forall j | i < j < k :: !Mentions(t.revisions[j].revision, name)) ::
          && Agree(contract.inputs, t.revisions[i].revision.inputs, name)
          && Agree(contract.private, t.revisions[i].revision.private, name))
    && ((forall i | 0 <= i < k :: !Mentions(t.revisions[i].revision, name)) ==>
          Agree(contract.inputs, t.inputs, name) && Agree(contract.private, t.private, name))
  }

  ghost predicate Rest(t: Task, contract: Task) {
    && contract.id == t.id && contract.submissions == t.submissions && contract.checkBudget == t.checkBudget
    && contract.guard == t.guard && contract.memory == t.memory && contract.revisions == []
  }

  /** Each contract of the chain is the one before it under one more revision. */
  ghost predicate Chain(t: Task, contracts: seq<Task>) {
    && 0 < |contracts| <= |t.revisions| + 1 && contracts[0] == t.(revisions := [])
    && forall i | 0 < i < |contracts| ::
         Revises(t.revisions[i - 1].revision, contracts[i - 1], contracts[i]) && ValidContract(contracts[i])
  }

  lemma Lengthens(t: Task, contracts: seq<Task>, after: Task)
    requires Chain(t, contracts) && |contracts| <= |t.revisions|
    requires Revises(t.revisions[|contracts| - 1].revision, contracts[|contracts| - 1], after) && ValidContract(after)
    ensures Chain(t, contracts + [after])
  {
  }

  lemma {:induction false} ChainOf(t: Task, k: nat) returns (contracts: seq<Task>)
    requires k <= |t.revisions| && ContractAfter(t, k).Some?
    ensures Chain(t, contracts) && |contracts| == k + 1 && contracts[k] == ContractAfter(t, k).value
  {
    if k == 0 {
      contracts := [t.(revisions := [])];
    } else {
      var before := ChainOf(t, k - 1);
      var after := ContractAfter(t, k).value;
      AmendedRevises(t.revisions[k - 1].revision, before[k - 1], after);
      Lengthens(t, before, after);
      contracts := before + [after];
    }
  }

  lemma {:induction false} ChainRest(t: Task, contracts: seq<Task>, k: nat)
    requires Chain(t, contracts) && k < |contracts|
    ensures Rest(t, contracts[k])
    ensures contracts[k].objective == t.objective + FirstNotes(t.revisions[..k])
  {
    if k == 0 {
      assert t.objective + "" == t.objective;
    } else {
      ChainRest(t, contracts, k - 1);
      var note := if t.revisions[k - 1].revision.note != "" then "\n\n" + t.revisions[k - 1].revision.note else "";
      assert t.revisions[..k][..k - 1] == t.revisions[..k - 1];
      assert (t.objective + FirstNotes(t.revisions[..k - 1])) + note == t.objective + (FirstNotes(t.revisions[..k - 1]) + note);
    }
  }

  lemma {:induction false} ChainChecks(t: Task, contracts: seq<Task>, k: nat)
    requires Chain(t, contracts) && k < |contracts|
    ensures Checked(t, k, contracts[k])
  {
    if k > 0 {
      ChainChecks(t, contracts, k - 1);
    }
  }

  lemma {:induction false} ChainFiles(t: Task, contracts: seq<Task>, k: nat, name: string)
    requires Chain(t, contracts) && k < |contracts|
    requires ValidSchedule(t)
    ensures Filed(t, k, contracts[k], name)
  {
    if k > 0 {
      ChainFiles(t, contracts, k - 1, name);
      MentionedOnce(t.revisions[k - 1].revision, contracts[k - 1], contracts[k], name);
      FiledOnceMore(t, k - 1, contracts[k - 1], contracts[k], name);
    }
  }

  /** A revision decides the files it mentions and leaves the others. */
  lemma MentionedOnce(r: Revision, before: Task, after: Task, name: string)
    requires Revises(r, before, after) && ValidRevision(r) && ValidContract(after)
    ensures if Mentions(r, name) then Agree(after.inputs, r.inputs, name) && Agree(after.private, r.private, name)
            else Agree(after.inputs, before.inputs, name) && Agree(after.private, before.private, name)
  {
    if Mentions(r, name) {
      assert name in r.inputs ==> name !in r.remove && name in after.inputs && name !in after.private;
      assert name in r.private ==> name !in r.remove && name in after.private && name !in after.inputs;
    }
  }

  lemma FiledOnceMore(t: Task, k: nat, before: Task, after: Task, name: string)
    requires k < |t.revisions| && Filed(t, k, before, name)
    requires var r := t.revisions[k].revision;
      if Mentions(r, name) then Agree(after.inputs, r.inputs, name) && Agree(after.private, r.private, name)
      else Agree(after.inputs, before.inputs, name) && Agree(after.private, before.private, name)
    ensures Filed(t, k + 1, after, name)
  {
    forall i | 0 <= i < k + 1 && Mentions(t.revisions[i].revision, name)
               && (forall j | i < j < k + 1 :: !Mentions(t.revisions[j].revision, name))
      ensures Agree(after.inputs, t.revisions[i].revision.inputs, name)
      ensures Agree(after.private, t.revisions[i].revision.private, name)
    {
      if i < k {
        assert !Mentions(t.revisions[k].revision, name);
      }
    }
  }

  lemma {:induction false} NotesInForce(t: Task, index: nat, k: nat)
    requires ValidSchedule(t) && k <= |t.revisions|
    ensures Notes(t.revisions[..k], index) == FirstNotes(t.revisions[..if k < Version(t, index) then k else Version(t, index)])
  {
    if k > 0 {
      NotesInForce(t, index, k - 1);
      VersionSelects(t, index, k - 1);
      assert t.revisions[..k][..k - 1] == t.revisions[..k - 1];
    }
  }

  // ---- The contract of a submission ----

  lemma ForceIsVersion(t: Task, index: nat)
    requires ValidTask(t)
    ensures ContractAfter(t, Version(t, index)).Some?
    ensures forall i: nat :: InForce(t, index, i) <==> i < Version(t, index)
  {
    ContractsAreValid(t, Version(t, index));
    forall i: nat
      ensures InForce(t, index, i) <==> i < Version(t, index)
    {
      if i < |t.revisions| {
        VersionSelects(t, index, i);
      }
    }
  }

  /** The objective of a submission's contract is the task's with the notes of the revisions
      in force in order; its checks are those of the last of them that sets any, else the
      task's; all else but the files is the task's, and it has no schedule. */
  lemma ContractReads(t: Task, index: nat, k: nat)
    requires ValidTask(t)
    ensures Contract(t, index).Some? && Rest(t, Contract(t, index).value)
    ensures Contract(t, index).value.objective == t.objective + Notes(t.revisions, index)
    ensures SetsChecks(t, index, k) ==> Contract(t, index).value.checks == t.revisions[k].revision.checks.value
    ensures (forall i: nat | InForce(t, index, i) :: t.revisions[i].revision.checks.None?) ==>
      Contract(t, index).value.checks == t.checks
  {
    ForceIsVersion(t, index);
    var contracts := ChainOf(t, Version(t, index));
    ChainRest(t, contracts, Version(t, index));
    ChainChecks(t, contracts, Version(t, index));
    NotesInForce(t, index, |t.revisions|);
    assert t.revisions[..|t.revisions|] == t.revisions;
  }

  /** A file is in a submission's contract exactly where the last revision in force to
      mention it put it, with those bytes, or where the task has it when none mentions it. */
  lemma ContractHolds(t: Task, index: nat, k: nat, name: string)
    requires ValidTask(t)
    ensures Contract(t, index).Some?
    ensures LastMentions(t, index, k, name) ==>
      && Agree(Contract(t, index).value.inputs, t.revisions[k].revision.inputs, name)
      && Agree(Contract(t, index).value.private, t.revisions[k].revision.private, name)
    ensures (forall i: nat | InForce(t, index, i) :: !Mentions(t.revisions[i].revision, name)) ==>
      && Agree(Contract(t, index).value.inputs, t.inputs, name)
      && Agree(Contract(t, index).value.private, t.private, name)
  {
    ForceIsVersion(t, index);
    var contracts := ChainOf(t, Version(t, index));
    ChainFiles(t, contracts, Version(t, index), name);
  }
}
