/** The multi-threaded path: a main thread hands each member to a slot, a detached
    worker per member fetches and stores its table, and the main thread waits for all
    slots. One step is one atomic read or write, one mutex section, or one read of the
    shared map. */
module SlotPool {
  import opened Common
  import opened MemberLoad

  /** Where a worker stands. */
  datatype WorkerPc =
    | Fetching
    | Storing(fetched: Fetched)
    | Checking(raised: bool)
    | Reporting(warning: Warning)
    | Finishing
    | Exited

  datatype Worker = Worker(slot: nat, prior: Option<Table>, pc: WorkerPc)

  /** Where the main thread stands. */
  datatype MainPc =
    | NextMember
    | Scanning(index: nat)
    | Claiming
    | Reading
    | Spawning(prior: Option<Table>)
    | Waiting(index: nat)
    | Finished

  /** One load: the members, the number of slots, the database, the map to start from. */
  datatype Job = Job(members: seq<Member>, slots: nat, fetch: Fetch, tables: map<Name, Table>)

  /** The done flags, the workers (worker i serves member i) and the main thread's variables. */
  datatype Pool = Pool(done: seq<bool>, workers: seq<Worker>, launched: nat, found: nat, main: MainPc)

  datatype State = State(pool: Pool, tables: map<Name, Table>, errors: multiset<Warning>)

  datatype Actor = Main | Thread(worker: nat)

  ghost predicate ValidJob(j: Job) {
    1 <= j.slots && DistinctNames(j.members)
  }

  function Start(j: Job): State {
    State(Pool(seq(j.slots, _ => true), [], 0, 0, NextMember), j.tables, multiset{})
  }

  /** The steps of the main thread. */
  function MainStep(j: Job, s: State): State {
    s.(pool := PoolStep(j, s.pool, s.tables))
  }

  function PoolStep(j: Job, p: Pool, tables: map<Name, Table>): Pool {
    match p.main
    case NextMember =>
      if |p.workers| >= |j.members| then p.(main := Waiting(0))
      else if p.launched >= j.slots then p.(main := Scanning(0))
      else p.(main := Claiming)
    case Scanning(k) =>
      if k >= |p.done| then p.(main := Scanning(0))
      else if p.done[k] then p.(found := k, launched := if j.slots > 0 then j.slots - 1 else 0, main := Claiming)
      else p.(main := Scanning(k + 1))
    case Claiming =>
      if p.found < |p.done| then p.(done := p.done[p.found := false], main := Reading) else p
    case Reading =>
      if |p.workers| < |j.members|
      then p.(main := Spawning(Lookup(tables, j.members[|p.workers|].name)))
      else p
    case Spawning(prior) =>
      p.(workers := p.workers + [Worker(p.found, prior, Fetching)],
         launched := p.launched + 1, found := p.found + 1, main := NextMember)
    case Waiting(k) =>
      if k >= |p.done| then p.(main := Finished)
      else if p.done[k] then p.(main := Waiting(k + 1))
      else p.(main := Waiting(0))
    case Finished => p
  }

  function Move(p: Pool, i: nat, pc: WorkerPc): Pool
    requires i < |p.workers|
  {
    p.(workers := p.workers[i := p.workers[i].(pc := pc)])
  }

  /** The worker leaves, setting the done flag of its slot. */
  function Leave(p: Pool, i: nat): Pool
    requires i < |p.workers|
  {
    var slot := p.workers[i].slot;
    var q := Move(p, i, Exited);
    if slot < |p.done| then q.(done := p.done[slot := true]) else q
  }

  /** The steps of the worker that serves member i. */
  function WorkerStep(j: Job, s: State, i: nat): State {
    if i >= |s.pool.workers| || i >= |j.members| then s else
    var w := s.pool.workers[i];
    var m := j.members[i];
    match w.pc
    case Fetching => s.(pool := Move(s.pool, i, Storing(j.fetch(m, w.prior))))
    case Storing(f) =>
      if f.table.None?
      then State(Leave(s.pool, i), s.tables - {m.name}, s.errors + multiset{NullTable(m)})
      else s.(pool := Move(s.pool, i, Checking(f.raised)), tables := s.tables[m.name := f.table.value])
    case Checking(raised) =>
      if m.name !in s.tables || s.tables[m.name].view.None?
      then s.(pool := Move(s.pool, i, Reporting(NoActiveView(m))))
      else if raised then s.(pool := Move(s.pool, i, Reporting(FetchError(m))))
      else s.(pool := Move(s.pool, i, Finishing))
    case Reporting(warning) => s.(pool := Move(s.pool, i, Finishing), errors := s.errors + multiset{warning})
    case Finishing => s.(pool := Leave(s.pool, i))
    case Exited => s
  }

  function Step(j: Job, s: State, a: Actor): State {
    match a
    case Main => MainStep(j, s)
    case Thread(i) => WorkerStep(j, s, i)
  }

  /** The state after a schedule; an actor with nothing to do leaves it as it is. */
  function Run(j: Job, s: State, schedule: seq<Actor>): State {
    if schedule == [] then s
    else Step(j, Run(j, s, schedule[..|schedule| - 1]), schedule[|schedule| - 1])
  }

  // ---------------------------------------------------------------------------
  // The invariant
  // ---------------------------------------------------------------------------

  predicate Running(w: Worker) { !w.pc.Exited? }

  /** What the database answers for member i, given the map the load started from. */
  function Answer(j: Job, i: nat): Fetched
    requires i < |j.members|
  {
    j.fetch(j.members[i], Lookup(j.tables, j.members[i].name))
  }

  predicate Stored(w: Worker) {
    w.pc.Checking? || w.pc.Reporting? || w.pc.Finishing? || w.pc.Exited?
  }

  predicate Reported(w: Worker) {
    w.pc.Finishing? || w.pc.Exited?
  }

  ghost predicate PcOk(j: Job, i: nat, w: Worker)
    requires i < |j.members|
  {
    var a := Answer(j, i);
    match w.pc
    case Fetching => true
    case Storing(f) => f == a
    case Checking(raised) => a.table.Some? && raised == a.raised
    case Reporting(warning) => a.table.Some? && Complaint(j.members[i], a) == Some(warning)
    case Finishing => a.table.Some?
    case Exited => true
  }

  /** Slots: who holds which, and which are free. */
  ghost predicate SlotsOk(j: Job, p: Pool) {
    && |p.done| == j.slots
    && |p.workers| <= |j.members|
    && (forall i :: 0 <= i < |p.workers| ==> p.workers[i].slot < j.slots)
    && (forall i :: 0 <= i < |p.workers| && Running(p.workers[i]) ==> !p.done[p.workers[i].slot])
    && (forall i, k :: 0 <= i < k < |p.workers| && Running(p.workers[i]) && Running(p.workers[k]) ==>
          p.workers[i].slot != p.workers[k].slot)
  }

  /** The slots that were never handed out are free. */
  ghost predicate FreshFrom(p: Pool, from: nat) {
    forall k :: from <= k < |p.done| ==> p.done[k]
  }

  ghost predicate MainOk(j: Job, p: Pool)
    requires SlotsOk(j, p)
  {
    match p.main
    case NextMember =>
      p.launched == j.slots || (p.launched < j.slots && p.found == p.launched && FreshFrom(p, p.launched))
    case Scanning(k) => p.launched == j.slots && k <= j.slots && |p.workers| < |j.members|
    case Claiming =>
      && p.launched < j.slots && p.found < j.slots && p.done[p.found] && |p.workers| < |j.members|
      && (p.launched + 1 == j.slots || (p.found == p.launched && FreshFrom(p, p.launched)))
    case Reading => Claimed(j, p)
    case Spawning(prior) => Claimed(j, p) && prior == Lookup(j.tables, j.members[|p.workers|].name)
    case Waiting(k) => |p.workers| == |j.members| && k <= j.slots && forall i :: 0 <= i < k ==> p.done[i]
    case Finished => |p.workers| == |j.members| && forall i :: 0 <= i < j.slots ==> p.done[i]
  }

  /** The main thread has taken slot `found` for the next member. */
  ghost predicate Claimed(j: Job, p: Pool)
    requires SlotsOk(j, p)
  {
    && p.launched < j.slots && p.found < j.slots && !p.done[p.found] && |p.workers| < |j.members|
    && (p.launched + 1 == j.slots || (p.found == p.launched && FreshFrom(p, p.launched + 1)))
    && (forall i :: 0 <= i < |p.workers| && Running(p.workers[i]) ==> p.workers[i].slot != p.found)
  }

  /** No worker has stored a table of this name yet. */
  ghost predicate Untouched(j: Job, workers: seq<Worker>, name: Name)
    requires |workers| <= |j.members|
  {
    forall i :: 0 <= i < |workers| && Stored(workers[i]) ==> j.members[i].name != name
  }

  /** The shared map: a member's entry changes exactly when its worker has stored it. */
  ghost predicate TablesOk(j: Job, workers: seq<Worker>, tables: map<Name, Table>)
    requires |workers| <= |j.members|
  {
    && (forall i :: 0 <= i < |workers| && Stored(workers[i]) ==>
          Lookup(tables, j.members[i].name) == Answer(j, i).table)
    && (forall name :: Untouched(j, workers, name) ==> Lookup(tables, name) == Lookup(j.tables, name))
  }

  ghost predicate WorkersOk(j: Job, workers: seq<Worker>)
    requires |workers| <= |j.members|
  {
    forall i :: 0 <= i < |workers| ==>
      workers[i].prior == Lookup(j.tables, j.members[i].name) && PcOk(j, i, workers[i])
  }

  /** The complaint a worker has put into the shared error text, if it has got there. */
  function Said(j: Job, i: nat, w: Worker): Option<Warning>
    requires i < |j.members|
  {
    if Reported(w) then Complaint(j.members[i], Answer(j, i)) else None
  }

  function Add(errors: multiset<Warning>, said: Option<Warning>): multiset<Warning> {
    match said
    case None => errors
    case Some(warning) => errors + multiset{warning}
  }

  /** The complaints the workers have reported so far. */
  function Reports(j: Job, workers: seq<Worker>): multiset<Warning>
    requires |workers| <= |j.members|
  {
    if workers == [] then multiset{}
    else Add(Reports(j, workers[..|workers| - 1]), Said(j, |workers| - 1, workers[|workers| - 1]))
  }

  ghost predicate Inv(j: Job, s: State) {
    && SlotsOk(j, s.pool)
    && MainOk(j, s.pool)
    && WorkersOk(j, s.pool.workers)
    && TablesOk(j, s.pool.workers, s.tables)
    && s.errors == Reports(j, s.pool.workers)
  }

  // ---------------------------------------------------------------------------
  // Every step keeps the invariant
  // ---------------------------------------------------------------------------

  lemma MainKeepsSlots(j: Job, p: Pool, tables: map<Name, Table>)
    requires ValidJob(j) && SlotsOk(j, p) && MainOk(j, p) && !p.main.Reading?
    ensures SlotsOk(j, PoolStep(j, p, tables)) && MainOk(j, PoolStep(j, p, tables))
  {
    if p.main.Spawning? {
      SpawnKeepsSlots(j, p, tables);
    } else if p.main.Claiming? {
      ClaimKeepsSlots(j, p, tables);
    }
  }

  lemma SpawnKeepsSlots(j: Job, p: Pool, tables: map<Name, Table>)
    requires SlotsOk(j, p) && MainOk(j, p) && p.main.Spawning?
    ensures SlotsOk(j, PoolStep(j, p, tables)) && MainOk(j, PoolStep(j, p, tables))
  {
    var q := PoolStep(j, p, tables);
    assert forall i :: 0 <= i < |p.workers| ==> q.workers[i] == p.workers[i];
  }

  lemma ClaimKeepsSlots(j: Job, p: Pool, tables: map<Name, Table>)
    requires SlotsOk(j, p) && MainOk(j, p) && p.main.Claiming?
    ensures SlotsOk(j, PoolStep(j, p, tables)) && MainOk(j, PoolStep(j, p, tables))
  {
    assert forall i :: 0 <= i < |p.workers| && Running(p.workers[i]) ==> p.workers[i].slot != p.found;
  }

  lemma SpawnKeepsTables(j: Job, workers: seq<Worker>, w: Worker, tables: map<Name, Table>)
    requires |workers| < |j.members| && w.pc.Fetching?
    requires TablesOk(j, workers, tables)
    ensures TablesOk(j, workers + [w], tables)
    ensures Reports(j, workers + [w]) == Reports(j, workers)
  {
    var all := workers + [w];
    assert all[..|all| - 1] == workers;
    forall name | Untouched(j, all, name) ensures Untouched(j, workers, name) {
      assert forall i :: 0 <= i < |workers| ==> all[i] == workers[i];
    }
  }

  /** Nobody else stores under the next member's name, so the unlocked read sees the original entry. */
  lemma ReadKeepsSlots(j: Job, p: Pool, tables: map<Name, Table>)
    requires DistinctNames(j.members) && SlotsOk(j, p) && MainOk(j, p) && p.main.Reading?
    requires TablesOk(j, p.workers, tables)
    ensures SlotsOk(j, PoolStep(j, p, tables)) && MainOk(j, PoolStep(j, p, tables))
  {
    assert Untouched(j, p.workers, j.members[|p.workers|].name);
  }

  lemma SpawnKeepsWorkers(j: Job, p: Pool, tables: map<Name, Table>)
    requires SlotsOk(j, p) && MainOk(j, p) && p.main.Spawning? && WorkersOk(j, p.workers)
    ensures WorkersOk(j, PoolStep(j, p, tables).workers)
  {
  }

  lemma MainKeepsInv(j: Job, s: State)
    requires ValidJob(j) && Inv(j, s)
    ensures Inv(j, MainStep(j, s))
  {
    var p := s.pool;
    var q := PoolStep(j, p, s.tables);
    if p.main.Reading? {
      ReadKeepsSlots(j, p, s.tables);
    } else {
      MainKeepsSlots(j, p, s.tables);
    }
    if p.main.Spawning? {
      SpawnKeepsTables(j, p.workers, Worker(p.found, p.main.prior, Fetching), s.tables);
      SpawnKeepsWorkers(j, p, s.tables);
    } else {
      assert q.workers == p.workers;
    }
  }

  lemma MoveKeepsSlots(j: Job, p: Pool, i: nat, pc: WorkerPc)
    requires SlotsOk(j, p) && MainOk(j, p) && i < |p.workers| && Running(p.workers[i])
    ensures SlotsOk(j, Move(p, i, pc)) && MainOk(j, Move(p, i, pc))
  {
  }

  lemma LeaveKeepsSlots(j: Job, p: Pool, i: nat)
    requires SlotsOk(j, p) && MainOk(j, p) && i < |p.workers| && Running(p.workers[i])
    ensures SlotsOk(j, Leave(p, i)) && MainOk(j, Leave(p, i))
  {
  }

  /** Storing a table changes its own entry and no other. */
  lemma StoreKeepsTables(j: Job, workers: seq<Worker>, tables: map<Name, Table>,
                         i: nat, w: Worker, stored: map<Name, Table>)
    requires |workers| <= |j.members| && i < |workers| && DistinctNames(j.members)
    requires TablesOk(j, workers, tables)
    requires Stored(w) && !Stored(workers[i])
    requires Lookup(stored, j.members[i].name) == Answer(j, i).table
    requires forall name :: name != j.members[i].name ==> Lookup(stored, name) == Lookup(tables, name)
    ensures TablesOk(j, workers[i := w], stored)
  {
    var after := workers[i := w];
    forall name | Untouched(j, after, name) ensures Lookup(stored, name) == Lookup(j.tables, name) {
      assert Stored(after[i]);
      assert j.members[i].name != name;
      forall k | 0 <= k < |workers| && Stored(workers[k]) ensures j.members[k].name != name {
        assert Stored(after[k]);
      }
      assert Untouched(j, workers, name);
    }
  }

  lemma OtherStepsKeepTables(j: Job, workers: seq<Worker>, tables: map<Name, Table>, i: nat, w: Worker)
    requires |workers| <= |j.members| && i < |workers| && TablesOk(j, workers, tables)
    requires Stored(w) == Stored(workers[i])
    ensures TablesOk(j, workers[i := w], tables)
  {
    var after := workers[i := w];
    assert forall k :: 0 <= k < |workers| ==> Stored(after[k]) == Stored(workers[k]);
    forall name | Untouched(j, after, name) ensures Untouched(j, workers, name) {
    }
  }

  lemma UpdateFront(workers: seq<Worker>, i: nat, w: Worker)
    requires i < |workers|
    ensures var n := |workers| - 1;
      && workers[i := w][..n] == (if i < n then workers[..n][i := w] else workers[..n])
      && workers[i := w][n] == (if i < n then workers[n] else w)
  {
  }

  lemma LastReport(j: Job, workers: seq<Worker>, front: seq<Worker>, last: Worker)
    requires 0 < |workers| <= |j.members| && front == workers[..|workers| - 1] && last == workers[|workers| - 1]
    ensures Reports(j, workers) == Add(Reports(j, front), Said(j, |workers| - 1, last))
  {
  }

  /** A worker that has not reported yet comes to report. */
  lemma {:induction false} ReportsUpdate(j: Job, workers: seq<Worker>, i: nat, w: Worker)
    requires |workers| <= |j.members| && i < |workers| && !Reported(workers[i])
    ensures Reports(j, workers[i := w]) == Add(Reports(j, workers), Said(j, i, w))
  {
    var n := |workers| - 1;
    var front, after := workers[..n], workers[i := w];
    UpdateFront(workers, i, w);
    LastReport(j, workers, front, workers[n]);
    if i < n {
      LastReport(j, after, front[i := w], workers[n]);
      ReportsUpdate(j, front, i, w);
      AddsCommute(Reports(j, front), Said(j, i, w), Said(j, n, workers[n]));
    } else {
      LastReport(j, after, front, w);
    }
  }

  lemma AddsCommute(errors: multiset<Warning>, a: Option<Warning>, b: Option<Warning>)
    ensures Add(Add(errors, a), b) == Add(Add(errors, b), a)
  {
  }

  /** A worker that has reported moves on. */
  lemma {:induction false} ReportsStay(j: Job, workers: seq<Worker>, i: nat, w: Worker)
    requires |workers| <= |j.members| && i < |workers| && Reported(workers[i]) && Reported(w)
    ensures Reports(j, workers[i := w]) == Reports(j, workers)
  {
    var n := |workers| - 1;
    var front, after := workers[..n], workers[i := w];
    UpdateFront(workers, i, w);
    LastReport(j, workers, front, workers[n]);
    if i < n {
      LastReport(j, after, front[i := w], workers[n]);
      ReportsStay(j, front, i, w);
    } else {
      LastReport(j, after, front, w);
    }
  }

  lemma WorkerKeepsSlots(j: Job, s: State, i: nat)
    requires SlotsOk(j, s.pool) && MainOk(j, s.pool) && i < |s.pool.workers| && Running(s.pool.workers[i])
    ensures SlotsOk(j, WorkerStep(j, s, i).pool) && MainOk(j, WorkerStep(j, s, i).pool)
  {
    var t := WorkerStep(j, s, i).pool;
    MoveKeepsSlots(j, s.pool, i, t.workers[i].pc);
    LeaveKeepsSlots(j, s.pool, i);
    assert t == Move(s.pool, i, t.workers[i].pc) || t == Leave(s.pool, i);
  }

  lemma WorkerKeepsTables(j: Job, s: State, i: nat)
    requires DistinctNames(j.members) && |s.pool.workers| <= |j.members|
    requires i < |s.pool.workers| && Running(s.pool.workers[i])
    requires WorkersOk(j, s.pool.workers) && TablesOk(j, s.pool.workers, s.tables)
    ensures |WorkerStep(j, s, i).pool.workers| == |s.pool.workers|
    ensures WorkersOk(j, WorkerStep(j, s, i).pool.workers)
    ensures TablesOk(j, WorkerStep(j, s, i).pool.workers, WorkerStep(j, s, i).tables)
  {
    var t := WorkerStep(j, s, i);
    var w := s.pool.workers[i];
    var w' := t.pool.workers[i];
    assert PcOk(j, i, w);
    OwnPlaceOnly(j, s, i);
    OwnPlaceOk(j, s, i);
    if w.pc.Storing? {
      StoreKeepsTables(j, s.pool.workers, s.tables, i, w', t.tables);
    } else {
      OtherStepsKeepTables(j, s.pool.workers, s.tables, i, w');
    }
  }

  lemma OwnPlaceOk(j: Job, s: State, i: nat)
    requires |s.pool.workers| <= |j.members| && i < |s.pool.workers| && Running(s.pool.workers[i])
    requires s.pool.workers[i].prior == Lookup(j.tables, j.members[i].name) && PcOk(j, i, s.pool.workers[i])
    requires Stored(s.pool.workers[i]) ==> Lookup(s.tables, j.members[i].name) == Answer(j, i).table
    ensures PcOk(j, i, WorkerStep(j, s, i).pool.workers[i])
  {
  }

  /** A step appends to the errors exactly what it makes the worker report. */
  lemma ErrorsGrow(j: Job, s: State, i: nat)
    requires |s.pool.workers| <= |j.members| && i < |s.pool.workers| && Running(s.pool.workers[i])
    requires PcOk(j, i, s.pool.workers[i])
    requires Stored(s.pool.workers[i]) ==> Lookup(s.tables, j.members[i].name) == Answer(j, i).table
    ensures !Reported(s.pool.workers[i]) ==>
              WorkerStep(j, s, i).errors == Add(s.errors, Said(j, i, WorkerStep(j, s, i).pool.workers[i]))
    ensures Reported(s.pool.workers[i]) ==>
              WorkerStep(j, s, i).errors == s.errors && Reported(WorkerStep(j, s, i).pool.workers[i])
  {
  }

  /** A worker's step changes its own place in the program and nothing else of the workers. */
  lemma OwnPlaceOnly(j: Job, s: State, i: nat)
    requires i < |s.pool.workers|
    ensures var t := WorkerStep(j, s, i);
      && |t.pool.workers| == |s.pool.workers|
      && t.pool.workers == s.pool.workers[i := s.pool.workers[i].(pc := t.pool.workers[i].pc)]
  {
    var w := s.pool.workers[i];
    assert s.pool.workers == s.pool.workers[i := w.(pc := w.pc)];
  }

  lemma WorkerKeepsReports(j: Job, s: State, i: nat)
    requires |s.pool.workers| <= |j.members| && i < |s.pool.workers| && Running(s.pool.workers[i])
    requires PcOk(j, i, s.pool.workers[i])
    requires Stored(s.pool.workers[i]) ==> Lookup(s.tables, j.members[i].name) == Answer(j, i).table
    requires s.errors == Reports(j, s.pool.workers)
    ensures |WorkerStep(j, s, i).pool.workers| == |s.pool.workers|
    ensures WorkerStep(j, s, i).errors == Reports(j, WorkerStep(j, s, i).pool.workers)
  {
    OwnPlaceOnly(j, s, i);
    ErrorsGrow(j, s, i);
    UpdatedReports(j, s, WorkerStep(j, s, i), i);
  }

  lemma UpdatedReports(j: Job, s: State, t: State, i: nat)
    requires |t.pool.workers| == |s.pool.workers| <= |j.members| && i < |s.pool.workers|
    requires t.pool.workers == s.pool.workers[i := s.pool.workers[i].(pc := t.pool.workers[i].pc)]
    requires s.errors == Reports(j, s.pool.workers)
    requires !Reported(s.pool.workers[i]) ==> t.errors == Add(s.errors, Said(j, i, t.pool.workers[i]))
    requires Reported(s.pool.workers[i]) ==> t.errors == s.errors && Reported(t.pool.workers[i])
    ensures t.errors == Reports(j, t.pool.workers)
  {
    if Reported(s.pool.workers[i]) {
      ReportsStay(j, s.pool.workers, i, t.pool.workers[i]);
    } else {
      ReportsUpdate(j, s.pool.workers, i, t.pool.workers[i]);
    }
  }

  lemma WorkerKeepsInv(j: Job, s: State, i: nat)
    requires ValidJob(j) && Inv(j, s)
    ensures Inv(j, WorkerStep(j, s, i))
  {
    if i < |s.pool.workers| && Running(s.pool.workers[i]) {
      WorkerKeepsSlots(j, s, i);
      WorkerKeepsTables(j, s, i);
      WorkerKeepsReports(j, s, i);
    }
  }

  /** The invariant holds after every schedule. */
  lemma {:induction false} RunKeepsInv(j: Job, s: State, schedule: seq<Actor>)
    requires ValidJob(j) && Inv(j, s)
    ensures Inv(j, Run(j, s, schedule))
  {
    if schedule != [] {
      var before := schedule[..|schedule| - 1];
      RunKeepsInv(j, s, before);
      match schedule[|schedule| - 1]
      case Main => MainKeepsInv(j, Run(j, s, before));
      case Thread(i) => WorkerKeepsInv(j, Run(j, s, before), i);
    }
  }

  lemma StartIsGood(j: Job)
    requires ValidJob(j)
    ensures Inv(j, Start(j))
  {
  }

  // ---------------------------------------------------------------------------
  // What the pool guarantees
  // ---------------------------------------------------------------------------

  /** The workers that have not exited. */
  ghost function RunningSet(p: Pool): set<nat> {
    set i | 0 <= i < |p.workers| && Running(p.workers[i])
  }

  lemma {:induction false} FewerThanSlots(workers: set<nat>, slot: nat -> nat, slots: nat)
    requires forall i :: i in workers ==> slot(i) < slots
    requires forall i, k :: i in workers && k in workers && i != k ==> slot(i) != slot(k)
    ensures |workers| <= slots
  {
    if slots == 0 {
      assert workers == {};
    } else if exists i :: i in workers && slot(i) == slots - 1 {
      var i :| i in workers && slot(i) == slots - 1;
      FewerThanSlots(workers - {i}, slot, slots - 1);
    } else {
      FewerThanSlots(workers, slot, slots - 1);
    }
  }

  /** After every schedule: the slot about to be taken is in range and its last worker has
      exited; no two running workers share a slot, so at most `slots` run at once; the
      dispatched members are a prefix, one worker each; and the main thread passes the
      final wait only when every member was dispatched and every worker has exited. */
  lemma SlotPoolSafety(j: Job, schedule: seq<Actor>)
    requires ValidJob(j)
    ensures var p := Run(j, Start(j), schedule).pool;
      && |p.done| == j.slots && |p.workers| <= |j.members|
      && (p.main.Claiming? ==> p.found < j.slots && p.done[p.found])
      && (p.main.Claiming? ==>
            forall i :: 0 <= i < |p.workers| && p.workers[i].slot == p.found ==> !Running(p.workers[i]))
      && (forall i, k :: 0 <= i < k < |p.workers| && p.workers[i].slot == p.workers[k].slot ==>
            !Running(p.workers[i]) || !Running(p.workers[k]))
      && |RunningSet(p)| <= j.slots
      && (p.main.Finished? ==> |p.workers| == |j.members| && RunningSet(p) == {})
  {
    StartIsGood(j);
    RunKeepsInv(j, Start(j), schedule);
    var p := Run(j, Start(j), schedule).pool;
    FewerThanSlots(RunningSet(p), (i: nat) => if i < |p.workers| then p.workers[i].slot else 0, j.slots);
  }

  /** A dispatched member keeps its worker, its slot and the pointer it was handed. */
  lemma {:induction false} DispatchedOnce(j: Job, s: State, schedule: seq<Actor>)
    ensures KeepsWorkers(s.pool.workers, Run(j, s, schedule).pool.workers)
  {
    if schedule != [] {
      var t := Run(j, s, schedule[..|schedule| - 1]);
      DispatchedOnce(j, s, schedule[..|schedule| - 1]);
      StepKeepsWorkers(j, t, schedule[|schedule| - 1]);
    }
  }

  ghost predicate KeepsWorkers(before: seq<Worker>, after: seq<Worker>) {
    |before| <= |after| && forall i :: 0 <= i < |before| ==>
      after[i].slot == before[i].slot && after[i].prior == before[i].prior
  }

  lemma StepKeepsWorkers(j: Job, s: State, a: Actor)
    ensures KeepsWorkers(s.pool.workers, Step(j, s, a).pool.workers)
  {
    if a.Thread? && a.worker < |s.pool.workers| { OwnPlaceOnly(j, s, a.worker); }
  }

  /** Main results about the two paths: whatever the schedule, once the pool has finished
      - without a warnings string the pool throws exactly when the sequential path does;
      - with one the pool never throws, and the sequential path throws exactly when some
        fetched table has no active view;
      - unless the sequential path throws, both end with the same map and the same warnings. */
  lemma PoolRefinesSequential(j: Job, schedule: seq<Actor>)
    requires ValidJob(j) && Run(j, Start(j), schedule).pool.main.Finished?
    ensures var s := Run(j, Start(j), schedule);
      var strict := Sequential(j.fetch, j.members, j.tables, false);
      var lenient := Sequential(j.fetch, j.members, j.tables, true);
      && (strict.threw <==> s.errors != multiset{})
      && (!strict.threw ==> strict.tables == s.tables)
      && (lenient.threw <==> exists i :: 0 <= i < |j.members| && LacksView(Answer(j, i)))
      && (!lenient.threw ==> lenient.tables == s.tables && multiset(lenient.warnings) == s.errors)
  {
    StartIsGood(j);
    RunKeepsInv(j, Start(j), schedule);
    var s := Run(j, Start(j), schedule);
    assert j.members[0..] == j.members;
    ErrorsAreComplaints(j, s);
    ComplaintsEmpty(j, 0);
    SequentialThrows(j, 0, j.tables, false);
    SequentialThrows(j, 0, j.tables, true);
    if !Sequential(j.fetch, j.members, j.tables, false).threw {
      SameTables(j, s, false);
    }
    if !Sequential(j.fetch, j.members, j.tables, true).threw {
      SameTables(j, s, true);
      SequentialWarnings(j, 0, j.tables, true);
    }
  }

  /** What the two paths come to, in terms of what the database answers: without a warnings string the load
      throws exactly if some fetch raises, gives no table or gives one without an active view, with one only
      in the last case; and a member that does not make it throw ends with the table it was given, if any. */
  lemma SequentialInTermsOfAnswers(j: Job, accumulate: bool, i: nat)
    requires ValidJob(j) && i < |j.members|
    ensures var l := Sequential(j.fetch, j.members, j.tables, accumulate);
      var f := j.fetch(j.members[i], Lookup(j.tables, j.members[i].name));
      && (l.threw <==> exists k :: 0 <= k < |j.members| && Bad(j, k, accumulate))
      && (!l.threw ==> Lookup(l.tables, j.members[i].name) == f.table)
  {
    assert j.members[0..] == j.members;
    SequentialThrows(j, 0, j.tables, accumulate);
    assert forall k :: 0 <= k < |j.members| ==> (Bad(j, k, accumulate) <==> Stops(j.members[k], Answer(j, k), accumulate));
    if !Sequential(j.fetch, j.members, j.tables, accumulate).threw {
      SequentialTables(j, 0, j.tables, accumulate, j.members[i].name);
    }
  }

  /** The answer for member k makes the load throw. */
  ghost predicate Bad(j: Job, k: nat, accumulate: bool)
    requires k < |j.members|
  {
    var f := j.fetch(j.members[k], Lookup(j.tables, j.members[k].name));
    if f.table == None then !accumulate else f.table.value.view == None || (f.raised && !accumulate)
  }

  lemma ErrorsAreComplaints(j: Job, s: State)
    requires Inv(j, s) && s.pool.main.Finished?
    ensures s.errors == Complaints(j, 0)
  {
    var workers := s.pool.workers;
    assert forall i :: 0 <= i < |workers| ==> !Running(workers[i]);
    AllReported(j, workers, 0);
  }

  lemma SameTables(j: Job, s: State, accumulate: bool)
    requires ValidJob(j) && Inv(j, s) && s.pool.main.Finished?
    requires !Sequential(j.fetch, j.members, j.tables, accumulate).threw
    ensures Sequential(j.fetch, j.members, j.tables, accumulate).tables == s.tables
  {
    var r := Sequential(j.fetch, j.members, j.tables, accumulate).tables;
    var workers := s.pool.workers;
    assert forall i :: 0 <= i < |workers| ==> !Running(workers[i]);
    assert j.members[0..] == j.members;
    forall name ensures Lookup(r, name) == Lookup(s.tables, name) {
      SequentialTables(j, 0, j.tables, accumulate, name);
      if i :| 0 <= i < |j.members| && j.members[i].name == name {
        assert Stored(workers[i]);
      } else {
        assert Untouched(j, workers, name);
      }
    }
    SameLookups(r, s.tables);
  }

  /** The complaints of the members from `from` on. */
  function Complaints(j: Job, from: nat): multiset<Warning>
    requires from <= |j.members|
    decreases |j.members| - from
  {
    if from == |j.members| then multiset{}
    else Add(Complaints(j, from + 1), Complaint(j.members[from], Answer(j, from)))
  }

  lemma {:induction false} ComplaintsEmpty(j: Job, from: nat)
    requires from <= |j.members|
    ensures Complaints(j, from) != multiset{} <==>
            exists i :: from <= i < |j.members| && Complaint(j.members[i], Answer(j, i)).Some?
    decreases |j.members| - from
  {
    if from < |j.members| { ComplaintsEmpty(j, from + 1); }
  }

  lemma {:induction false} AllReported(j: Job, workers: seq<Worker>, from: nat)
    requires from <= |workers| == |j.members|
    requires forall i :: 0 <= i < |workers| ==> workers[i].pc.Exited?
    ensures Reports(j, workers[..from]) + Complaints(j, from) == Reports(j, workers)
    decreases |workers| - from
  {
    if from == |workers| {
      assert workers[..from] == workers;
    } else {
      AllReported(j, workers, from + 1);
      assert workers[..from + 1][..from] == workers[..from];
      AddMoves(Reports(j, workers[..from]), Complaint(j.members[from], Answer(j, from)), Complaints(j, from + 1));
    }
  }

  lemma AddMoves(a: multiset<Warning>, said: Option<Warning>, b: multiset<Warning>)
    ensures Add(a, said) + b == a + Add(b, said)
  {
  }

  /** The map after one member that the sequential path does not give up on. */
  function After(tables: map<Name, Table>, m: Member, f: Fetched): map<Name, Table> {
    if f.table.None? then tables - {m.name} else tables[m.name := f.table.value]
  }

  /** Entries of the members from `from` on are still those the load started with. */
  ghost predicate Pending(j: Job, from: nat, tables: map<Name, Table>) {
    forall i :: from <= i < |j.members| ==>
      Lookup(tables, j.members[i].name) == Lookup(j.tables, j.members[i].name)
  }

  lemma SequentialStep(j: Job, from: nat, tables: map<Name, Table>, accumulate: bool)
    requires from < |j.members| && Pending(j, from, tables)
    ensures var m, f := j.members[from], Answer(j, from);
      var r := Sequential(j.fetch, j.members[from..], tables, accumulate);
      var rest := Sequential(j.fetch, j.members[from + 1..], After(tables, m, f), accumulate);
      if Stops(m, f, accumulate) then r.threw
      else r == match Complaint(m, f)
                case None => rest
                case Some(w) => rest.(warnings := [w] + rest.warnings)
  {
    assert j.members[from..][0] == j.members[from] && j.members[from..][1..] == j.members[from + 1..];
  }

  lemma StillPending(j: Job, from: nat, tables: map<Name, Table>)
    requires DistinctNames(j.members) && from < |j.members| && Pending(j, from, tables)
    ensures Pending(j, from + 1, After(tables, j.members[from], Answer(j, from)))
  {
  }

  lemma {:induction false} SequentialThrows(j: Job, from: nat, tables: map<Name, Table>, accumulate: bool)
    requires DistinctNames(j.members) && from <= |j.members| && Pending(j, from, tables)
    ensures Sequential(j.fetch, j.members[from..], tables, accumulate).threw <==>
            exists i :: from <= i < |j.members| && Stops(j.members[i], Answer(j, i), accumulate)
    decreases |j.members| - from
  {
    if from < |j.members| {
      SequentialStep(j, from, tables, accumulate);
      StillPending(j, from, tables);
      SequentialThrows(j, from + 1, After(tables, j.members[from], Answer(j, from)), accumulate);
    }
  }

  lemma {:induction false} SequentialTables(j: Job, from: nat, tables: map<Name, Table>, accumulate: bool, name: Name)
    requires DistinctNames(j.members) && from <= |j.members| && Pending(j, from, tables)
    requires !Sequential(j.fetch, j.members[from..], tables, accumulate).threw
    ensures var r := Lookup(Sequential(j.fetch, j.members[from..], tables, accumulate).tables, name);
      && (forall i :: from <= i < |j.members| && j.members[i].name == name ==> r == Answer(j, i).table)
      && ((forall i :: from <= i < |j.members| ==> j.members[i].name != name) ==> r == Lookup(tables, name))
    decreases |j.members| - from
  {
    if from < |j.members| {
      SequentialStep(j, from, tables, accumulate);
      StillPending(j, from, tables);
      SequentialTables(j, from + 1, After(tables, j.members[from], Answer(j, from)), accumulate, name);
    }
  }

  lemma {:induction false} SequentialWarnings(j: Job, from: nat, tables: map<Name, Table>, accumulate: bool)
    requires DistinctNames(j.members) && from <= |j.members| && Pending(j, from, tables)
    requires !Sequential(j.fetch, j.members[from..], tables, accumulate).threw
    ensures multiset(Sequential(j.fetch, j.members[from..], tables, accumulate).warnings) == Complaints(j, from)
    decreases |j.members| - from
  {
    if from < |j.members| {
      SequentialStep(j, from, tables, accumulate);
      StillPending(j, from, tables);
      SequentialWarnings(j, from + 1, After(tables, j.members[from], Answer(j, from)), accumulate);
    }
  }

  // ---------------------------------------------------------------------------
  // The pool cannot get stuck
  // ---------------------------------------------------------------------------

  ghost predicate HeldByWorker(workers: seq<Worker>, slot: nat) {
    exists i :: 0 <= i < |workers| && Running(workers[i]) && workers[i].slot == slot
  }

  predicate HeldByMain(p: Pool, slot: nat) {
    (p.main.Reading? || p.main.Spawning?) && p.found == slot
  }

  /** A slot that is not done is held by a running worker, or by the main thread between
      taking it and spawning. */
  ghost predicate Held(p: Pool) {
    forall k :: 0 <= k < |p.done| && !p.done[k] ==> HeldByMain(p, k) || HeldByWorker(p.workers, k)
  }

  lemma HeldAfterSpawn(workers: seq<Worker>, w: Worker, slot: nat)
    requires HeldByWorker(workers, slot) || (Running(w) && w.slot == slot)
    ensures HeldByWorker(workers + [w], slot)
  {
    var all := workers + [w];
    if HeldByWorker(workers, slot) {
      var i :| 0 <= i < |workers| && Running(workers[i]) && workers[i].slot == slot;
      assert all[i] == workers[i];
    } else {
      assert all[|workers|] == w;
    }
  }

  lemma MainKeepsHeld(j: Job, p: Pool, tables: map<Name, Table>)
    requires Held(p)
    ensures Held(PoolStep(j, p, tables))
  {
    var q := PoolStep(j, p, tables);
    if p.main.Spawning? {
      forall k | 0 <= k < |q.done| && !q.done[k] ensures HeldByWorker(q.workers, k) {
        HeldAfterSpawn(p.workers, Worker(p.found, p.main.prior, Fetching), k);
      }
    } else {
      assert q.workers == p.workers;
      assert forall k :: 0 <= k < |q.done| && !q.done[k] && !HeldByMain(q, k) ==> !p.done[k] && !HeldByMain(p, k);
    }
  }

  lemma WorkerKeepsHeld(j: Job, s: State, i: nat)
    requires SlotsOk(j, s.pool) && Held(s.pool) && i < |s.pool.workers| && Running(s.pool.workers[i])
    ensures Held(WorkerStep(j, s, i).pool)
  {
    var p, q := s.pool, WorkerStep(j, s, i).pool;
    assert q.workers == p.workers[i := p.workers[i].(pc := q.workers[i].pc)];
    assert q.done == if q.workers[i].pc.Exited? then p.done[p.workers[i].slot := true] else p.done;
    forall k | 0 <= k < |q.done| && !q.done[k] && !HeldByMain(q, k) ensures HeldByWorker(q.workers, k) {
      assert !HeldByMain(p, k) && HeldByWorker(p.workers, k);
      var m :| 0 <= m < |p.workers| && Running(p.workers[m]) && p.workers[m].slot == k;
      assert Running(q.workers[m]) && q.workers[m].slot == k;
    }
  }

  function StepsLeft(pc: WorkerPc): nat {
    match pc
    case Fetching => 5
    case Storing(_) => 4
    case Checking(_) => 3
    case Reporting(_) => 2
    case Finishing => 1
    case Exited => 0
  }

  function WorkLeft(workers: seq<Worker>): nat {
    if workers == [] then 0
    else WorkLeft(workers[..|workers| - 1]) + StepsLeft(workers[|workers| - 1].pc)
  }

  lemma {:induction false} WorkShrinks(workers: seq<Worker>, i: nat, w: Worker)
    requires i < |workers| && StepsLeft(w.pc) < StepsLeft(workers[i].pc)
    ensures WorkLeft(workers[i := w]) < WorkLeft(workers)
  {
    var n := |workers| - 1;
    if i < n {
      WorkShrinks(workers[..n], i, w);
      assert workers[i := w][..n] == workers[..n][i := w];
    } else {
      assert workers[i := w][..n] == workers[..n];
    }
  }

  function MainLeft(j: Job, main: MainPc): nat {
    match main
    case NextMember => j.slots + 7
    case Scanning(k) => if k < j.slots then 5 else 6
    case Claiming => 4
    case Reading => 3
    case Spawning(_) => 2
    case Waiting(k) => if k <= j.slots then j.slots - k + 1 else 1
    case Finished => 0
  }

  lemma {:induction false} RunCons(j: Job, s: State, a: Actor, rest: seq<Actor>)
    ensures Run(j, s, [a] + rest) == Run(j, Step(j, s, a), rest)
  {
    if rest == [] {
      assert ([a] + rest)[..0] == [];
    } else {
      RunCons(j, s, a, rest[..|rest| - 1]);
      assert ([a] + rest)[..|rest|] == [a] + rest[..|rest| - 1];
    }
  }

  lemma IdleMainAdvances(j: Job, s: State)
    requires ValidJob(j) && Inv(j, s) && Held(s.pool) && !s.pool.main.Finished?
    requires forall i :: 0 <= i < |s.pool.workers| ==> !Running(s.pool.workers[i])
    ensures Closer(j, MainStep(j, s).pool, s.pool)
  {
    assert forall k :: 0 <= k < |s.pool.done| && !HeldByMain(s.pool, k) ==> s.pool.done[k];
  }

  lemma WorkerAdvances(j: Job, s: State, i: nat)
    requires SlotsOk(j, s.pool) && i < |s.pool.workers| && Running(s.pool.workers[i])
    ensures Closer(j, WorkerStep(j, s, i).pool, s.pool)
  {
    WorkerGains(j, s, i);
  }

  /** Lexicographically less left to do: members to dispatch, worker steps, main steps. */
  ghost predicate Closer(j: Job, q: Pool, p: Pool) {
    || |q.workers| > |p.workers|
    || (|q.workers| == |p.workers| && WorkLeft(q.workers) < WorkLeft(p.workers))
    || (|q.workers| == |p.workers| && WorkLeft(q.workers) == WorkLeft(p.workers)
        && MainLeft(j, q.main) < MainLeft(j, p.main))
  }

  lemma Advance(j: Job, s: State) returns (a: Actor)
    requires ValidJob(j) && Inv(j, s) && Held(s.pool) && !s.pool.main.Finished?
    ensures Inv(j, Step(j, s, a)) && Held(Step(j, s, a).pool) && Closer(j, Step(j, s, a).pool, s.pool)
  {
    if i :| 0 <= i < |s.pool.workers| && Running(s.pool.workers[i]) {
      a := Thread(i);
      WorkerKeepsInv(j, s, i);
      WorkerKeepsHeld(j, s, i);
      WorkerAdvances(j, s, i);
    } else {
      a := Main;
      MainKeepsInv(j, s);
      MainKeepsHeld(j, s.pool, s.tables);
      IdleMainAdvances(j, s);
    }
  }

  /** From every state the pool can reach, some continuation finishes: no wait of the main
      thread can last for ever once the workers get to run. */
  lemma {:induction false} CanFinish(j: Job, s: State) returns (schedule: seq<Actor>)
    requires ValidJob(j) && Inv(j, s) && Held(s.pool)
    ensures Run(j, s, schedule).pool.main.Finished?
    decreases |j.members| - |s.pool.workers|, WorkLeft(s.pool.workers), MainLeft(j, s.pool.main)
  {
    if s.pool.main.Finished? {
      schedule := [];
    } else {
      var a := Advance(j, s);
      var rest := CanFinish(j, Step(j, s, a));
      schedule := [a] + rest;
      RunCons(j, s, a, rest);
    }
  }

  lemma {:induction false} RunKeepsHeld(j: Job, schedule: seq<Actor>)
    requires ValidJob(j)
    ensures Held(Run(j, Start(j), schedule).pool)
  {
    if schedule != [] {
      var before := schedule[..|schedule| - 1];
      RunKeepsHeld(j, before);
      StartIsGood(j);
      RunKeepsInv(j, Start(j), before);
      var s := Run(j, Start(j), before);
      match schedule[|schedule| - 1]
      case Main => MainKeepsHeld(j, s.pool, s.tables);
      case Thread(i) =>
        if i < |s.pool.workers| && Running(s.pool.workers[i]) { WorkerKeepsHeld(j, s, i); }
    }
  }

  /** Whatever has happened so far, the load can still run to its end. */
  lemma NeverStuck(j: Job, schedule: seq<Actor>) returns (more: seq<Actor>)
    requires ValidJob(j)
    ensures Run(j, Run(j, Start(j), schedule), more).pool.main.Finished?
  {
    StartIsGood(j);
    RunKeepsInv(j, Start(j), schedule);
    RunKeepsHeld(j, schedule);
    more := CanFinish(j, Run(j, Start(j), schedule));
  }

  // ---------------------------------------------------------------------------
  // Every fair run finishes
  // ---------------------------------------------------------------------------

  ghost predicate Good(j: Job, s: State) {
    Inv(j, s) && Held(s.pool)
  }

  /** At least as many members dispatched and, if as many, at most as much work left; and with something gained. */
  ghost predicate NotBehind(q: Pool, p: Pool) {
    |q.workers| > |p.workers| || (|q.workers| == |p.workers| && WorkLeft(q.workers) <= WorkLeft(p.workers))
  }

  ghost predicate Ahead(q: Pool, p: Pool) {
    |q.workers| > |p.workers| || (|q.workers| == |p.workers| && WorkLeft(q.workers) < WorkLeft(p.workers))
  }

  lemma StepIsGood(j: Job, s: State, a: Actor)
    requires ValidJob(j) && Good(j, s)
    ensures Good(j, Step(j, s, a)) && NotBehind(Step(j, s, a).pool, s.pool)
  {
    match a
    case Main => MainIsGood(j, s);
    case Thread(i) =>
      if i < |s.pool.workers| && Running(s.pool.workers[i]) {
        WorkerKeepsInv(j, s, i);
        WorkerKeepsHeld(j, s, i);
        WorkerGains(j, s, i);
      }
  }

  lemma MainIsGood(j: Job, s: State)
    requires ValidJob(j) && Good(j, s)
    ensures Good(j, MainStep(j, s)) && NotBehind(MainStep(j, s).pool, s.pool)
  {
    MainKeepsInv(j, s);
    MainKeepsHeld(j, s.pool, s.tables);
  }

  lemma WorkerGains(j: Job, s: State, i: nat)
    requires SlotsOk(j, s.pool) && i < |s.pool.workers| && Running(s.pool.workers[i])
    ensures Ahead(WorkerStep(j, s, i).pool, s.pool)
  {
    OwnPlaceOnly(j, s, i);
    WorkShrinks(s.pool.workers, i, WorkerStep(j, s, i).pool.workers[i]);
  }

  lemma {:induction false} RunIsGood(j: Job, s: State, schedule: seq<Actor>)
    requires ValidJob(j) && Good(j, s)
    ensures Good(j, Run(j, s, schedule)) && NotBehind(Run(j, s, schedule).pool, s.pool)
  {
    if schedule != [] {
      RunIsGood(j, s, schedule[..|schedule| - 1]);
      StepIsGood(j, Run(j, s, schedule[..|schedule| - 1]), schedule[|schedule| - 1]);
    }
  }

  lemma {:induction false} RunSplit(j: Job, s: State, front: seq<Actor>, back: seq<Actor>)
    ensures Run(j, s, front + back) == Run(j, Run(j, s, front), back)
    decreases |front|
  {
    if front == [] {
      assert front + back == back;
    } else {
      var a, rest := front[0], front[1..];
      assert front == [a] + rest && front + back == [a] + (rest + back);
      RunCons(j, s, a, rest);
      RunCons(j, s, a, rest + back);
      RunSplit(j, Step(j, s, a), rest, back);
    }
  }

  lemma RunAround(j: Job, s: State, schedule: seq<Actor>, k: nat)
    requires k < |schedule|
    ensures Run(j, s, schedule) == Run(j, Step(j, Run(j, s, schedule[..k]), schedule[k]), schedule[k + 1..])
  {
    assert schedule == schedule[..k] + ([schedule[k]] + schedule[k + 1..]);
    RunSplit(j, s, schedule[..k], [schedule[k]] + schedule[k + 1..]);
    RunCons(j, Run(j, s, schedule[..k]), schedule[k], schedule[k + 1..]);
  }

  /** A worker without a turn stays where it is. */
  lemma {:induction false} NoTurn(j: Job, s: State, schedule: seq<Actor>, i: nat)
    requires i < |s.pool.workers| && Thread(i) !in schedule
    ensures i < |Run(j, s, schedule).pool.workers| && Run(j, s, schedule).pool.workers[i] == s.pool.workers[i]
  {
    if schedule != [] {
      var a := schedule[|schedule| - 1];
      var t := Run(j, s, schedule[..|schedule| - 1]);
      NoTurn(j, s, schedule[..|schedule| - 1], i);
      assert a != Thread(i);
      if a.Thread? && a.worker < |t.pool.workers| { OwnPlaceOnly(j, t, a.worker); }
    }
  }

  lemma {:induction false} FirstTurn(schedule: seq<Actor>, a: Actor) returns (k: nat)
    requires a in schedule
    ensures k < |schedule| && schedule[k] == a && a !in schedule[..k]
  {
    if schedule[0] == a {
      k := 0;
    } else {
      k := FirstTurn(schedule[1..], a);
      k := k + 1;
      assert schedule[..k] == [schedule[0]] + schedule[1..][..k - 1];
    }
  }

  /** A running worker that gets a turn brings the run ahead, whatever the others do. */
  lemma TurnOfRunning(j: Job, s: State, round: seq<Actor>, i: nat)
    requires ValidJob(j) && Good(j, s) && i < |s.pool.workers| && Running(s.pool.workers[i]) && Thread(i) in round
    ensures Ahead(Run(j, s, round).pool, s.pool)
  {
    var k := FirstTurn(round, Thread(i));
    var t := Run(j, s, round[..k]);
    NoTurn(j, s, round[..k], i);
    RunIsGood(j, s, round[..k]);
    RunAround(j, s, round, k);
    WorkerGains(j, t, i);
    StepIsGood(j, t, Thread(i));
    RunIsGood(j, Step(j, t, Thread(i)), round[k + 1..]);
  }

  ghost predicate Quiet(p: Pool) {
    forall i :: 0 <= i < |p.workers| ==> !Running(p.workers[i])
  }

  /** Another member is dispatched, or the workers are the same and the main thread is not further back. */
  ghost predicate Calm(j: Job, q: Pool, p: Pool) {
    |q.workers| > |p.workers| || (q.workers == p.workers && MainLeft(j, q.main) <= MainLeft(j, p.main))
  }

  lemma QuietMain(j: Job, s: State)
    requires ValidJob(j) && Good(j, s) && Quiet(s.pool) && !s.pool.main.Finished?
    ensures var q := MainStep(j, s).pool;
      |q.workers| > |s.pool.workers| || (q.workers == s.pool.workers && MainLeft(j, q.main) < MainLeft(j, s.pool.main))
  {
    IdleMainAdvances(j, s);
  }

  lemma QuietStep(j: Job, s: State, a: Actor)
    requires ValidJob(j) && Good(j, s) && Quiet(s.pool)
    ensures Calm(j, Step(j, s, a).pool, s.pool)
  {
    if a.Main? && !s.pool.main.Finished? { QuietMain(j, s); }
  }

  /** With no worker running, only the main thread moves, and never back. */
  lemma {:induction false} QuietRun(j: Job, s: State, schedule: seq<Actor>)
    requires ValidJob(j) && Good(j, s) && Quiet(s.pool)
    ensures Calm(j, Run(j, s, schedule).pool, s.pool)
  {
    if schedule != [] {
      var before, a := schedule[..|schedule| - 1], schedule[|schedule| - 1];
      var t := Run(j, s, before);
      QuietRun(j, s, before);
      RunIsGood(j, s, before);
      if |t.pool.workers| > |s.pool.workers| {
        StepIsGood(j, t, a);
      } else {
        QuietStep(j, t, a);
      }
    }
  }

  lemma {:induction false} QuietThreads(j: Job, s: State, schedule: seq<Actor>)
    requires Quiet(s.pool) && Main !in schedule
    ensures Run(j, s, schedule) == s
  {
    if schedule != [] {
      QuietThreads(j, s, schedule[..|schedule| - 1]);
      assert schedule[|schedule| - 1] != Main;
    }
  }

  lemma QuietRound(j: Job, s: State, round: seq<Actor>)
    requires ValidJob(j) && Good(j, s) && Quiet(s.pool) && Main in round && !s.pool.main.Finished?
    ensures Closer(j, Run(j, s, round).pool, s.pool)
  {
    var k := FirstTurn(round, Main);
    QuietThreads(j, s, round[..k]);
    RunAround(j, s, round, k);
    QuietFrom(j, s, round[k + 1..]);
  }

  lemma QuietFrom(j: Job, s: State, rest: seq<Actor>)
    requires ValidJob(j) && Good(j, s) && Quiet(s.pool) && !s.pool.main.Finished?
    ensures Closer(j, Run(j, Step(j, s, Main), rest).pool, s.pool)
  {
    StepIsGood(j, s, Main);
    QuietMain(j, s);
    QuietRest(j, s, Step(j, s, Main), rest);
  }

  /** After the main thread's first step of the round. */
  lemma QuietRest(j: Job, s: State, t: State, rest: seq<Actor>)
    requires ValidJob(j) && Good(j, t) && Quiet(s.pool)
    requires |t.pool.workers| > |s.pool.workers|
      || (t.pool.workers == s.pool.workers && MainLeft(j, t.pool.main) < MainLeft(j, s.pool.main))
    ensures Closer(j, Run(j, t, rest).pool, s.pool)
  {
    if |t.pool.workers| > |s.pool.workers| {
      RunIsGood(j, t, rest);
    } else {
      QuietRun(j, t, rest);
    }
  }

  /** A round in which the main thread and every worker running at its start get a turn. */
  ghost predicate Fair(s: State, round: seq<Actor>) {
    Main in round && forall i :: 0 <= i < |s.pool.workers| && Running(s.pool.workers[i]) ==> Thread(i) in round
  }

  lemma FairRound(j: Job, s: State, round: seq<Actor>)
    requires ValidJob(j) && Good(j, s) && Fair(s, round) && !s.pool.main.Finished?
    ensures Good(j, Run(j, s, round)) && Closer(j, Run(j, s, round).pool, s.pool)
  {
    RunIsGood(j, s, round);
    if i :| 0 <= i < |s.pool.workers| && Running(s.pool.workers[i]) {
      TurnOfRunning(j, s, round, i);
    } else {
      QuietRound(j, s, round);
    }
  }

  /** The state after k rounds of an unending schedule. */
  function AfterRounds(j: Job, rounds: nat -> seq<Actor>, k: nat): State {
    if k == 0 then Start(j) else Run(j, AfterRounds(j, rounds, k - 1), rounds(k - 1))
  }

  /** Every unending schedule that, round after round, gives the main thread and each running worker a turn
      brings the load to its end. */
  lemma FairRunsFinish(j: Job, rounds: nat -> seq<Actor>) returns (n: nat)
    requires ValidJob(j) && forall k: nat :: Fair(AfterRounds(j, rounds, k), rounds(k))
    ensures AfterRounds(j, rounds, n).pool.main.Finished?
  {
    StartIsGood(j);
    n := FinishesFrom(j, rounds, 0);
  }

  lemma {:induction false} FinishesFrom(j: Job, rounds: nat -> seq<Actor>, k: nat) returns (n: nat)
    requires ValidJob(j) && forall k: nat :: Fair(AfterRounds(j, rounds, k), rounds(k))
    requires Good(j, AfterRounds(j, rounds, k))
    ensures AfterRounds(j, rounds, n).pool.main.Finished?
    decreases |j.members| - |AfterRounds(j, rounds, k).pool.workers|, WorkLeft(AfterRounds(j, rounds, k).pool.workers),
      MainLeft(j, AfterRounds(j, rounds, k).pool.main)
  {
    var s := AfterRounds(j, rounds, k);
    if s.pool.main.Finished? {
      n := k;
    } else {
      assert Fair(s, rounds(k));
      FairRound(j, s, rounds(k));
      assert AfterRounds(j, rounds, k + 1) == Run(j, s, rounds(k));
      n := FinishesFrom(j, rounds, k + 1);
    }
  }
}
