/** Tasks, their scheduled contract revisions, and the contract in force. */
module TaskSpecs {
  import opened Records

  type Files = map<string, Blob>

  datatype Revision = Revision(
    id: string,
    owner: string,
    reason: string,
    inputs: Files,
    private: Files,
    remove: seq<string>,
    checks: Option<seq<string>>,
    note: string)

  datatype Scheduled = Scheduled(after: nat, revision: Revision)

  datatype MemorySpec = MemorySpec(scope: string, depends: seq<string>)

  /** `guard` is the recorded form of the duplicate guard, null when there is none. */
  datatype Task = Task(
    id: string,
    objective: string,
    inputs: Files,
    private: Files,
    checks: seq<string>,
    submissions: nat,
    checkBudget: Option<nat>,
    guard: Json,
    memory: Option<MemorySpec>,
    revisions: seq<Scheduled>)

  // ---- What the constructors accept ----

  predicate Alphanumeric(c: char) {
    'a' <= c <= 'z' || 'A' <= c <= 'Z' || '0' <= c <= '9'
  }

  predicate NameOk(name: string) {
    1 <= |name| <= 101 && Alphanumeric(name[0]) && forall c | c in name[1..] :: Alphanumeric(c) || c in "_.-"
  }

  predicate IdOk(id: string) {
    1 <= |id| <= 101 && Alphanumeric(id[0]) && forall c | c in id[1..] :: Alphanumeric(c) || c in "_.:-"
  }

  const RESERVED: set<string> :=
    {"context.json", "result.json", "workspace", "responses", "notes.json", "memory.json"}

  predicate FileOk(name: string) {
    NameOk(name) && name !in RESERVED && !("feedback-" <= name)
  }

  predicate Distinct(items: seq<string>) {
    forall i, j | 0 <= i < j < |items| :: items[i] != items[j]
  }

  predicate ValidRevision(r: Revision) {
    && IdOk(r.id) && !Blank(r.owner) && !Blank(r.reason)
    && (forall name | name in r.remove :: name !in r.inputs && name !in r.private)
    && (r.inputs != map[] || r.private != map[] || r.remove != [] || r.checks.Some? || r.note != "")
  }

  predicate ValidMemory(memory: MemorySpec, inputs: Files, private: Files) {
    && IdOk(memory.scope) && Distinct(memory.depends)
    && forall name | name in memory.depends :: name in inputs || name in private
  }

  /** A contract: everything of a task but its schedule. */
  predicate ValidContract(t: Task) {
    && IdOk(t.id) && !Blank(t.objective)
    && (forall name | name in t.inputs :: FileOk(name))
    && (forall name | name in t.private :: FileOk(name))
    && t.inputs.Keys !! t.private.Keys
    && t.checks != [] && Distinct(t.checks) && (forall check | check in t.checks :: NameOk(check))
    && t.submissions >= 1
    && (t.memory.Some? ==> ValidMemory(t.memory.value, t.inputs, t.private))
  }

  predicate ValidSchedule(t: Task) {
    && (forall k | 0 <= k < |t.revisions| ::
          1 <= t.revisions[k].after < t.submissions && ValidRevision(t.revisions[k].revision))
    && (forall j, k | 0 <= j < k < |t.revisions| ::
          t.revisions[j].after < t.revisions[k].after && t.revisions[j].revision.id != t.revisions[k].revision.id)
  }

  /** A task is valid when every contract its schedule leads to is. */
  predicate ValidTask(t: Task) {
    ValidContract(t) && ValidSchedule(t) && ContractAfter(t, |t.revisions|).Some?
  }

  // ---- Applying a revision ----

  function Without<V>(files: map<string, V>, names: set<string>): map<string, V> {
    map name | name in files && name !in names :: files[name]
  }

  /** Drop some files and set others. */
  function Revised(files: Files, dropped: set<string>, changed: Files): Files {
    Without(files, dropped) + changed
  }

  function Removed(names: seq<string>): set<string> {
    set name | name in names
  }

  function Objective(t: Task, r: Revision): string {
    if r.note == "" then t.objective else t.objective + "\n\n" + r.note
  }

  /** A task without a schedule under one more revision; `None` where the host refuses it. */
  function Amended(r: Revision, t: Task): Option<Task> {
    if exists name | name in r.remove :: name !in t.inputs && name !in t.private then None
    else
      var after := t.(
        objective := Objective(t, r),
        inputs := Revised(t.inputs, Removed(r.remove) + r.private.Keys, r.inputs),
        private := Revised(t.private, Removed(r.remove) + r.inputs.Keys, r.private),
        checks := if r.checks.Some? then r.checks.value else t.checks);
      if ValidContract(after) then Some(after) else None
  }

  /** A task under one more revision. It keeps its schedule, so every contract the schedule
      still leads to must be valid as well. */
  function Applied(r: Revision, t: Task): Option<Task> {
    match Amended(r, t)
    case None => None
    case Some(after) => if ValidTask(after) then Some(after) else None
  }

  /** Applying a revision to a task without a schedule is amending its contract. */
  lemma AppliedToContract(r: Revision, t: Task)
    requires t.revisions == []
    ensures Applied(r, t) == Amended(r, t)
  {
  }

  /** A task the host has revised is valid, under every submission. */
  lemma AppliedStaysValid(r: Revision, t: Task, index: nat)
    requires Applied(r, t).Some?
    ensures var after := Applied(r, t).value;
      && ValidTask(after) && after.revisions == t.revisions
      && Contract(after, index).Some? && ValidContract(Contract(after, index).value)
  {
    ContractsAreValid(Applied(r, t).value, Version(Applied(r, t).value, index));
  }

  /** The files on one side after a revision: those it sets there, and those that were
      there and that it neither removes nor sets on the other side. */
  ghost predicate SideRevised(before: Files, after: Files, r: Revision, given: Files, moved: Files) {
    && (forall name :: name in after <==> name in given || (name in before && name !in r.remove && name !in moved))
    && (forall name | name in after :: after[name] == if name in given then given[name] else before[name])
  }

  /** What one revision makes of a task, part by part. */
  ghost predicate Revises(r: Revision, t: Task, after: Task) {
    && after.id == t.id && after.submissions == t.submissions && after.checkBudget == t.checkBudget
    && after.guard == t.guard && after.memory == t.memory && after.revisions == t.revisions
    && after.checks == (match r.checks case Some(checks) => checks case None => t.checks)
    && after.objective == t.objective + (if r.note != "" then "\n\n" + r.note else "")
    && SideRevised(t.inputs, after.inputs, r, r.inputs, r.private)
    && SideRevised(t.private, after.private, r, r.private, r.inputs)
  }

  predicate RemovesPresent(r: Revision, t: Task) {
    forall name | name in r.remove :: name in t.inputs || name in t.private
  }

  lemma RevisedIsOne(r: Revision, t: Task, after: Task, other: Task)
    requires Revises(r, t, after) && Revises(r, t, other)
    ensures after == other
  {
    assert after.inputs == other.inputs;
    assert after.private == other.private;
  }

  /** A contract is amended exactly when every file to remove is there and the revised
      contract is valid, and then it is that contract. */
  lemma AmendedRevises(r: Revision, t: Task, after: Task)
    ensures Amended(r, t) == Some(after) <==> RemovesPresent(r, t) && Revises(r, t, after) && ValidContract(after)
  {
    var revised := t.(
      objective := Objective(t, r),
      inputs := Revised(t.inputs, Removed(r.remove) + r.private.Keys, r.inputs),
      private := Revised(t.private, Removed(r.remove) + r.inputs.Keys, r.private),
      checks := if r.checks.Some? then r.checks.value else t.checks);
    assert Revises(r, t, revised) by {
      assert t.objective + "" == t.objective;
      assert t.objective + ("\n\n" + r.note) == t.objective + "\n\n" + r.note;
    }
    if Revises(r, t, after) {
      RevisedIsOne(r, t, after, revised);
    }
  }

  /** Likewise for a task and the schedule it keeps. */
  lemma AppliedRevises(r: Revision, t: Task, after: Task)
    ensures Applied(r, t) == Some(after) <==> RemovesPresent(r, t) && Revises(r, t, after) && ValidTask(after)
  {
    AmendedRevises(r, t, after);
    if Amended(r, t).Some? {
      AmendedRevises(r, t, Amended(r, t).value);
    }
  }

  method Pop<V>(files: map<string, V>, names: set<string>) returns (rest: map<string, V>)
    ensures rest == Without(files, names)
  {
    rest := files;
    var left := names;
    while left != {}
      invariant left <= names
      invariant forall name :: name in rest <==> name in files && (name !in names || name in left)
      invariant forall name | name in rest :: rest[name] == files[name]
      decreases left
    {
      var name :| name in left;
      rest := rest - {name};
      left := left - {name};
    }
  }

  /** Pop what a revision removes, and what it moves to the other side; then add. */
  method Revise(files: Files, removed: set<string>, moved: set<string>, changed: Files) returns (revised: Files)
    ensures revised == Revised(files, removed + moved, changed)
  {
    var kept := Pop(files, removed);
    var rest := Pop(kept, moved);
    assert rest == Without(files, removed + moved);
    revised := rest + changed;
  }

  method Apply(r: Revision, t: Task) returns (out: Option<Task>)
    ensures out == Applied(r, t)
    ensures forall after :: out == Some(after) <==> RemovesPresent(r, t) && Revises(r, t, after) && ValidTask(after)
  {
    forall after
      ensures Applied(r, t) == Some(after) <==> RemovesPresent(r, t) && Revises(r, t, after) && ValidTask(after)
    {
      AppliedRevises(r, t, after);
    }
    for k := 0 to |r.remove|
      invariant forall i | 0 <= i < k :: r.remove[i] in t.inputs || r.remove[i] in t.private
    {
      if r.remove[k] !in t.inputs && r.remove[k] !in t.private {
        assert r.remove[k] in r.remove;
        return None;
      }
    }
    var inputs := Revise(t.inputs, Removed(r.remove), r.private.Keys, r.inputs);
    var private := Revise(t.private, Removed(r.remove), r.inputs.Keys, r.private);
    var checks := if r.checks.Some? then r.checks.value else t.checks;
    var after := t.(objective := Objective(t, r), inputs := inputs, private := private, checks := checks);
    out := if ValidTask(after) then Some(after) else None;
  }

  // ---- Versions ----

  function CountBefore(revisions: seq<Scheduled>, index: nat): (n: nat)
    ensures n <= |revisions|
  {
    if revisions == [] then 0
    else
      CountBefore(revisions[..|revisions| - 1], index)
      + if revisions[|revisions| - 1].after < index then 1 else 0
  }

  /** How many scheduled revisions apply to a submission. */
  function Version(t: Task, index: nat): (n: nat)
    ensures n <= |t.revisions|
  {
    CountBefore(t.revisions, index)
  }

  /** The contract after the first `k` revisions, without its schedule. */
  function ContractAfter(t: Task, k: nat): Option<Task>
    requires k <= |t.revisions|
  {
    if k == 0 then Some(t.(revisions := []))
    else
      match ContractAfter(t, k - 1)
      case None => None
      case Some(contract) => Amended(t.revisions[k - 1].revision, contract)
  }

  /** The contract in force for a submission. */
  function Contract(t: Task, index: nat): Option<Task> {
    ContractAfter(t, Version(t, index))
  }

  lemma {:induction false} CountSelects(revisions: seq<Scheduled>, index: nat, k: nat)
    requires forall i, j | 0 <= i < j < |revisions| :: revisions[i].after < revisions[j].after
    requires k < |revisions|
    ensures k < CountBefore(revisions, index) <==> revisions[k].after < index
  {
    var n := |revisions| - 1;
    if n > 0 && k > 0 {
      CountSelects(revisions[..n], index, k - 1);
    }
    if k < n {
      CountSelects(revisions[..n], index, k);
    } else if revisions[n].after < index {
      AllCounted(revisions[..n], index);
    }
  }

  lemma {:induction false} AllCounted(revisions: seq<Scheduled>, index: nat)
    requires forall r | r in revisions :: r.after < index
    ensures CountBefore(revisions, index) == |revisions|
  {
    if revisions != [] {
      AllCounted(revisions[..|revisions| - 1], index);
    }
  }

  /** The revisions that apply to a submission are exactly those whose checkpoint comes
      before it. */
  lemma VersionSelects(t: Task, index: nat, k: nat)
    requires ValidSchedule(t) && k < |t.revisions|
    ensures k < Version(t, index) <==> t.revisions[k].after < index
  {
    CountSelects(t.revisions, index, k);
  }

  /** The first submission after the k-th checkpoint is the first under version k, so the
      memory snapshot taken for a version belongs to the contract it is shown under. */
  lemma VersionAtCheckpoint(t: Task, k: nat)
    requires ValidSchedule(t) && k <= |t.revisions|
    ensures Version(t, if k == 0 then 1 else t.revisions[k - 1].after + 1) == k
  {
    var index := if k == 0 then 1 else t.revisions[k - 1].after + 1;
    var n := Version(t, index);
    if k > 0 {
      VersionSelects(t, index, k - 1);
    }
    if k < |t.revisions| {
      VersionSelects(t, index, k);
    }
  }

  /** The first revisions of the schedule lead to a contract. */
  ghost predicate Leads(t: Task, k: nat) {
    k <= |t.revisions| && ContractAfter(t, k).Some?
  }

  lemma PreviousLeads(t: Task, k: nat)
    requires Leads(t, k + 1)
    ensures Leads(t, k)
  {
  }

  /** What goes down by one goes down. */
  lemma {:induction false} Downwards(p: nat -> bool, k: nat, n: nat)
    requires k <= n && p(n) && forall i: nat | p(i + 1) :: p(i)
    ensures p(k)
    decreases n
  {
    if k < n {
      assert p(n - 1 + 1);
      Downwards(p, k, n - 1);
    }
  }

  lemma EarlierContract(t: Task, k: nat, n: nat)
    requires k <= n && Leads(t, n)
    ensures Leads(t, k)
  {
    forall i: nat | Leads(t, i + 1)
      ensures Leads(t, i)
    {
      PreviousLeads(t, i);
    }
    Downwards((i: nat) => Leads(t, i), k, n);
  }

  /** Every contract a valid task leads to is valid itself. */
  lemma ContractsAreValid(t: Task, k: nat)
    requires ValidTask(t) && k <= |t.revisions|
    ensures ContractAfter(t, k).Some? && ValidContract(ContractAfter(t, k).value)
  {
    EarlierContract(t, k, |t.revisions|);
    if k > 0 {
      EarlierContract(t, k - 1, |t.revisions|);
      AmendedIsValid(t.revisions[k - 1].revision, ContractAfter(t, k - 1).value);
    }
  }

  lemma AmendedIsValid(r: Revision, t: Task)
    requires Amended(r, t).Some?
    ensures ValidContract(Amended(r, t).value)
  {
  }
}
