/**
 The recorders' shared thread pool: asset writes and flushes queue up first in, first out for a fixed
 number of workers, and a flush occupies its worker while it waits for other tasks of the same pool.
 */
module RecorderPool {
  import opened Sequences

  /** A task of recorder `owner`: one asset write, or the flush submitted by `finalize`. */
  datatype Task = Write(owner: nat) | Flush(owner: nat)

  /** What a worker is doing; a flush has entered, waits for the futures it read, or writes its results. */
  datatype Worker =
    | Idle
    | Writing(task: nat)
    | Entered(task: nat)
    | Waiting(task: nat, awaits: seq<nat>)
    | Flushing(task: nat)

  /** `_pending_io` as task numbers, and `_finalized`. */
  datatype Recorder = Recorder(pending: seq<nat>, finalized: bool)

  /** Tasks in order of submission; those from `next` on are queued. `published`: recording.json written. */
  datatype Pool = Pool(tasks: seq<Task>, next: nat, workers: seq<Worker>, done: set<nat>,
                       recorders: seq<Recorder>, published: seq<nat>)

  datatype Action =
    | Create
    | Save(r: nat)
    | Finalize(r: nat)
    | Advance(w: nat, raises: bool)

  function Start(k: nat): Pool {
    Pool([], 0, seq(k, _ => Idle), {}, [], [])
  }

  predicate CanAdvance(s: Pool, w: nat)
    requires w < |s.workers|
  {
    match s.workers[w]
    case Idle => s.next < |s.tasks|
    case Waiting(t, awaits) => forall a | a in awaits :: a in s.done
    case _ => true
  }

  predicate Enabled(s: Pool, a: Action) {
    match a
    case Create => true
    case Save(r) => r < |s.recorders|
    case Finalize(r) => r < |s.recorders|
    case Advance(w, _) => w < |s.workers| && CanAdvance(s, w) && InRange(s, s.workers[w])
  }

  /** A worker only ever holds submitted tasks of known recorders. */
  predicate InRange(s: Pool, x: Worker) {
    x.Idle? || (x.task < |s.tasks| && s.tasks[x.task].owner < |s.recorders|)
  }

  function Saved(s: Pool, r: nat): Pool
    requires r < |s.recorders|
  {
    var x := s.recorders[r];
    s.(tasks := s.tasks + [Write(r)], recorders := s.recorders[r := x.(pending := x.pending + [|s.tasks|])])
  }

  /** A second `finalize` does nothing. */
  function Finalized(s: Pool, r: nat): Pool
    requires r < |s.recorders|
  {
    var x := s.recorders[r];
    if x.finalized then s
    else s.(tasks := s.tasks + [Flush(r)], recorders := s.recorders[r := x.(finalized := true)])
  }

  /** The next thing worker `w` does. A flush whose file work raises ends without its recording.json. */
  function Advanced(s: Pool, w: nat, raises: bool): Pool
    requires w < |s.workers| && CanAdvance(s, w) && InRange(s, s.workers[w])
  {
    match s.workers[w]
    case Idle =>
      s.(next := s.next + 1,
         workers := s.workers[w := if s.tasks[s.next].Write? then Writing(s.next) else Entered(s.next)])
    case Writing(t) => s.(workers := s.workers[w := Idle], done := s.done + {t})
    case Entered(t) => s.(workers := s.workers[w := Waiting(t, s.recorders[s.tasks[t].owner].pending)])
    case Waiting(t, _) =>
      var r := s.tasks[t].owner;
      s.(workers := s.workers[w := Flushing(t)], recorders := s.recorders[r := s.recorders[r].(pending := [])])
    case Flushing(t) =>
      s.(workers := s.workers[w := Idle], done := s.done + {t},
         published := if raises then s.published else s.published + [s.tasks[t].owner])
  }

  function Step(s: Pool, a: Action): Pool
    requires Enabled(s, a)
  {
    match a
    case Create => s.(recorders := s.recorders + [Recorder([], false)])
    case Save(r) => Saved(s, r)
    case Finalize(r) => Finalized(s, r)
    case Advance(w, raises) => Advanced(s, w, raises)
  }

  /** `t` is reached from `s` by `actions`, each of them possible when taken. */
  ghost predicate Reaches(s: Pool, actions: seq<Action>, t: Pool)
    decreases |actions|
  {
    if actions == [] then s == t
    else Enabled(s, actions[0]) && Reaches(Step(s, actions[0]), actions[1..], t)
  }

  // ---------- invariants ----------

  predicate Holds(s: Pool, w: nat, t: nat)
    requires w < |s.workers|
  {
    !s.workers[w].Idle? && s.workers[w].task == t
  }

  /** A worker holds a started, unfinished task of the right kind. */
  predicate WorkerOk(s: Pool, w: nat)
    requires w < |s.workers|
  {
    var x := s.workers[w];
    !x.Idle? ==> x.task < s.next && x.task < |s.tasks| && x.task !in s.done && s.tasks[x.task].Write? == x.Writing?
  }

  /** Queued, running and finished tasks are told apart. */
  ghost predicate Queue(s: Pool) {
    && s.next <= |s.tasks| && |s.workers| > 0
    && (forall t | t in s.done :: t < s.next)
    && (forall w | 0 <= w < |s.workers| :: WorkerOk(s, w))
    && (forall t: nat | t < s.next && t !in s.done :: exists w | 0 <= w < |s.workers| :: Holds(s, w, t))
    && (forall v, w | 0 <= v < w < |s.workers| :: !s.workers[v].Idle? && !s.workers[w].Idle? ==>
          s.workers[v].task != s.workers[w].task)
  }

  /** A recorder submits at most one flush, when it is finalised. */
  predicate Owners(s: Pool) {
    && (forall t | 0 <= t < |s.tasks| :: s.tasks[t].owner < |s.recorders|)
    && (forall t | 0 <= t < |s.tasks| :: s.tasks[t].Flush? ==> s.recorders[s.tasks[t].owner].finalized)
    && (forall t, u | 0 <= t < u < |s.tasks| :: s.tasks[t].Flush? && s.tasks[u].Flush? ==>
          s.tasks[t].owner != s.tasks[u].owner)
  }

  /** The write has been submitted after its recorder's flush. */
  predicate AfterFlush(tasks: seq<Task>, j: nat)
    requires j < |tasks|
  {
    exists i | 0 <= i < j :: tasks[i] == Flush(tasks[j].owner)
  }

  predicate WritesOf(s: Pool, r: nat, ids: seq<nat>) {
    forall i | 0 <= i < |ids| :: ids[i] < |s.tasks| && s.tasks[ids[i]] == Write(r)
  }

  /** Every write before its recorder's flush is finished or still pending, and nothing else is pending. */
  predicate PendingOk(s: Pool) {
    && (forall r | 0 <= r < |s.recorders| :: WritesOf(s, r, s.recorders[r].pending))
    && (forall j | 0 <= j < |s.tasks| :: s.tasks[j].Write? && !AfterFlush(s.tasks, j) ==>
          j in s.done || (s.tasks[j].owner < |s.recorders| && j in s.recorders[s.tasks[j].owner].pending))
  }

  /** The writes of a flush's recorder submitted before the flush. */
  ghost predicate BeforeFlush(s: Pool, t: nat, j: nat) {
    j < t < |s.tasks| && s.tasks[j] == Write(s.tasks[t].owner)
  }

  ghost predicate FlushOk(s: Pool, x: Worker) {
    match x
    case Waiting(t, awaits) =>
      && t < |s.tasks|
      && WritesOf(s, s.tasks[t].owner, awaits)
      && (forall j: nat | BeforeFlush(s, t, j) :: j in awaits || j in s.done)
    case Flushing(t) => AllBefore(s, t)
    case _ => true
  }

  ghost predicate Flushes(s: Pool) {
    forall w | 0 <= w < |s.workers| :: FlushOk(s, s.workers[w])
  }

  /** A published recording belongs to a finished flush, and everything saved before it is finished. */
  ghost predicate Published(s: Pool) {
    && (forall i | 0 <= i < |s.published| :: PublishedOk(s, s.published[i]))
    && (forall i, j | 0 <= i < j < |s.published| :: s.published[i] != s.published[j])
  }

  ghost predicate AllBefore(s: Pool, t: nat) {
    forall j: nat | BeforeFlush(s, t, j) :: j in s.done
  }

  ghost predicate PublishedOk(s: Pool, r: nat) {
    exists t: nat | t < |s.tasks| :: s.tasks[t] == Flush(r) && t in s.done && AllBefore(s, t)
  }

  ghost predicate Inv(s: Pool) {
    Queue(s) && Owners(s) && PendingOk(s) && Flushes(s) && Published(s)
  }

  // ---------- every step keeps them ----------

  lemma QueueStep(s: Pool, a: Action)
    requires Enabled(s, a) && Queue(s)
    ensures Queue(Step(s, a))
  {
    match a {
      case Create => SubmitQueue(s, Step(s, a));
      case Save(r) => SubmitQueue(s, Step(s, a));
      case Finalize(r) => SubmitQueue(s, Step(s, a));
      case Advance(w, raises) => AdvanceQueue(s, w, raises);
    }
  }

  lemma SubmitQueue(s: Pool, t: Pool)
    requires Queue(s) && s.tasks <= t.tasks && t == s.(tasks := t.tasks, recorders := t.recorders)
    ensures Queue(t)
  {
    forall w | 0 <= w < |t.workers| ensures WorkerOk(t, w) { assert WorkerOk(s, w); }
    forall u: nat | u < t.next && u !in t.done ensures exists w | 0 <= w < |t.workers| :: Holds(t, w, u) {
      var w :| 0 <= w < |s.workers| && Holds(s, w, u);
      assert Holds(t, w, u);
    }
  }

  lemma AdvanceQueue(s: Pool, w: nat, raises: bool)
    requires Enabled(s, Advance(w, raises)) && Queue(s)
    ensures Queue(Advanced(s, w, raises))
  {
    var t := Advanced(s, w, raises);
    assert WorkerOk(s, w);
    forall v | 0 <= v < |t.workers|
      ensures WorkerOk(t, v)
      ensures v != w && !s.workers[v].Idle? && !t.workers[w].Idle? ==> s.workers[v].task != t.workers[w].task
    {
      assert WorkerOk(s, v);
    }
    forall u: nat | u < t.next && u !in t.done ensures exists v | 0 <= v < |t.workers| :: Holds(t, v, u) {
      if u == s.next {
        assert Holds(t, w, u);
      } else {
        var v :| 0 <= v < |s.workers| && Holds(s, v, u);
        assert Holds(t, v, u);
      }
    }
  }

  lemma AfterFlushStays(tasks: seq<Task>, more: seq<Task>, j: nat)
    requires j < |tasks|
    ensures AfterFlush(tasks + more, j) == AfterFlush(tasks, j)
  {
    if AfterFlush(tasks, j) {
      var i :| 0 <= i < j && tasks[i] == Flush(tasks[j].owner);
      assert (tasks + more)[i] == Flush(tasks[j].owner);
    }
  }

  function WithNew(s: Pool, task: Task, r: nat): seq<nat>
    requires r < |s.recorders|
  {
    if task == Write(r) then s.recorders[r].pending + [|s.tasks|] else s.recorders[r].pending
  }

  /** Nothing pending is lost when a task is appended and a pending list grows. */
  lemma AppendPending(s: Pool, t: Pool, task: Task)
    requires PendingOk(s) && t.tasks == s.tasks + [task] && t.done == s.done && |t.recorders| == |s.recorders|
    requires task.owner < |s.recorders|
    requires forall r | 0 <= r < |s.recorders| :: t.recorders[r].pending == WithNew(s, task, r)
    ensures PendingOk(t)
  {
    forall r | 0 <= r < |t.recorders| ensures WritesOf(t, r, t.recorders[r].pending) {
      assert t.recorders[r].pending == WithNew(s, task, r) && WritesOf(s, r, s.recorders[r].pending);
    }
    forall j | 0 <= j < |t.tasks| && t.tasks[j].Write? && !AfterFlush(t.tasks, j)
      ensures j in t.done || (t.tasks[j].owner < |t.recorders| && j in t.recorders[t.tasks[j].owner].pending)
    {
      var r := t.tasks[j].owner;
      if j < |s.tasks| {
        AfterFlushStays(s.tasks, [task], j);
        if j !in s.done {
          var i :| 0 <= i < |s.recorders[r].pending| && s.recorders[r].pending[i] == j;
          assert t.recorders[r].pending[i] == j;
        }
      } else {
        assert t.recorders[r].pending[|s.recorders[r].pending|] == j;
      }
    }
  }

  /** A write of the recorder that is not after the flush is before it. */
  lemma NotAfter(tasks: seq<Task>, f: nat, j: nat)
    requires f < |tasks| && j < |tasks| && tasks[f] == Flush(tasks[j].owner) && tasks[j].Write? && !AfterFlush(tasks, j)
    ensures j < f
  {
  }

  lemma OnlyFlush(s: Pool, f: nat, j: nat)
    requires Owners(s) && BeforeFlush(s, f, j) && s.tasks[f].Flush?
    ensures !AfterFlush(s.tasks, j)
  {
  }

  /** A flush goes on when what it awaits is done; by then every earlier write of its recorder is. */
  lemma AdvancePending(s: Pool, w: nat, raises: bool)
    requires Enabled(s, Advance(w, raises)) && Inv(s)
    ensures PendingOk(Advanced(s, w, raises))
  {
    var t := Advanced(s, w, raises);
    assert WorkerOk(s, w) && FlushOk(s, s.workers[w]);
    assert t.tasks == s.tasks && s.done <= t.done;
    forall j | 0 <= j < |t.tasks| && t.tasks[j].Write? && !AfterFlush(t.tasks, j)
      ensures j in t.done || (t.tasks[j].owner < |t.recorders| && j in t.recorders[t.tasks[j].owner].pending)
    {
      if s.workers[w].Waiting? && s.tasks[j].owner == s.tasks[s.workers[w].task].owner {
        NotAfter(s.tasks, s.workers[w].task, j);
        assert BeforeFlush(s, s.workers[w].task, j);
      }
    }
  }

  lemma PendingStep(s: Pool, a: Action)
    requires Enabled(s, a) && Inv(s)
    ensures PendingOk(Step(s, a))
  {
    match a {
      case Create =>
      case Save(r) => AppendPending(s, Step(s, a), Write(r));
      case Finalize(r) => if !s.recorders[r].finalized { AppendPending(s, Step(s, a), Flush(r)); }
      case Advance(w, raises) => AdvancePending(s, w, raises);
    }
  }

  lemma FlushesStep(s: Pool, a: Action)
    requires Enabled(s, a) && Inv(s)
    ensures Flushes(Step(s, a))
  {
    hide FlushOk;
    var t := Step(s, a);
    forall w | 0 <= w < |t.workers| ensures FlushOk(t, t.workers[w]) {
      assert FlushOk(s, s.workers[w]) && WorkerOk(s, w);
      if a.Advance? && a.w == w {
        AdvanceFlush(s, w, a.raises);
      } else {
        FlushStays(s, t, s.workers[w]);
      }
    }
  }

  lemma FlushStays(s: Pool, t: Pool, x: Worker)
    requires FlushOk(s, x) && s.tasks <= t.tasks && s.done <= t.done && (!x.Idle? ==> x.task < |s.tasks|)
    ensures FlushOk(t, x)
  {
  }

  lemma AdvanceFlush(s: Pool, w: nat, raises: bool)
    requires Enabled(s, Advance(w, raises)) && Inv(s)
    ensures var t := Advanced(s, w, raises); FlushOk(t, t.workers[w])
  {
    hide Queue, Owners, PendingOk, Published;
    assert FlushOk(s, s.workers[w]);
    if s.workers[w].Entered? {
      EnteredWaits(s, w);
    }
  }

  lemma EnteredWaits(s: Pool, w: nat)
    requires Inv(s) && w < |s.workers| && s.workers[w].Entered?
    ensures InRange(s, s.workers[w])
    ensures var t := Advanced(s, w, false); FlushOk(t, t.workers[w])
  {
    var f := s.workers[w].task;
    assert WorkerOk(s, w);
    var t := Advanced(s, w, false);
    assert t.workers[w] == Waiting(f, s.recorders[s.tasks[f].owner].pending);
    forall j: nat | BeforeFlush(t, f, j) ensures j in t.workers[w].awaits || j in t.done {
      assert BeforeFlush(s, f, j);
      OnlyFlush(s, f, j);
    }
  }

  /** The flush that published `r` stays one that did. */
  lemma PublishedStays(s: Pool, t: Pool, r: nat)
    requires PublishedOk(s, r) && s.tasks <= t.tasks && s.done <= t.done
    ensures PublishedOk(t, r)
  {
    var f: nat :| f < |s.tasks| && s.tasks[f] == Flush(r) && f in s.done && AllBefore(s, f);
    forall j: nat | BeforeFlush(t, f, j) ensures j in t.done { assert BeforeFlush(s, f, j); }
    assert t.tasks[f] == Flush(r);
  }

  /** A finishing flush publishes its recorder for the first time. */
  lemma Publishes(s: Pool, w: nat)
    requires Inv(s) && w < |s.workers| && s.workers[w].Flushing? && InRange(s, s.workers[w])
    ensures var r := s.tasks[s.workers[w].task].owner;
      PublishedOk(Advanced(s, w, false), r) && forall i | 0 <= i < |s.published| :: s.published[i] != r
  {
    var f := s.workers[w].task;
    var r := s.tasks[f].owner;
    var t := Advanced(s, w, false);
    assert WorkerOk(s, w) && FlushOk(s, s.workers[w]);
    forall j: nat | BeforeFlush(t, f, j) ensures j in t.done { assert BeforeFlush(s, f, j); }
    assert t.tasks[f] == Flush(r);
    forall i | 0 <= i < |s.published| ensures s.published[i] != r {
      assert PublishedOk(s, s.published[i]);
    }
  }

  lemma PublishedStep(s: Pool, a: Action)
    requires Enabled(s, a) && Inv(s)
    ensures Published(Step(s, a))
  {
    hide PublishedOk;
    var t := Step(s, a);
    assert s.tasks <= t.tasks && s.done <= t.done;
    forall i | 0 <= i < |s.published| ensures PublishedOk(t, s.published[i]) {
      PublishedStays(s, t, s.published[i]);
    }
    if a.Advance? && s.workers[a.w].Flushing? && !a.raises {
      Publishes(s, a.w);
    }
  }

  lemma StepInv(s: Pool, a: Action)
    requires Enabled(s, a) && Inv(s)
    ensures Inv(Step(s, a))
  {
    QueueStep(s, a);
    PendingStep(s, a);
    FlushesStep(s, a);
    PublishedStep(s, a);
  }

  lemma {:induction false} ReachesInv(s: Pool, actions: seq<Action>, t: Pool)
    requires Inv(s) && Reaches(s, actions, t)
    ensures Inv(t)
    decreases |actions|
  {
    hide Inv, Enabled;
    if actions != [] {
      StepInv(s, actions[0]);
      ReachesInv(Step(s, actions[0]), actions[1..], t);
    }
  }

  lemma StartInv(k: nat)
    requires k > 0
    ensures Inv(Start(k))
  {
  }

  // ---------- when the pool blocks ----------

  /** Some task is unfinished and no worker can do anything. */
  predicate Stuck(s: Pool) {
    && (exists t | 0 <= t < |s.tasks| :: t !in s.done)
    && (forall w | 0 <= w < |s.workers| :: !CanAdvance(s, w))
  }

  predicate IsLate(s: Pool, r: nat) {
    exists j | 0 <= j < |s.tasks| :: s.tasks[j] == Write(r) && AfterFlush(s.tasks, j)
  }

  /** Recorders something was saved to after `finalize`. */
  function Late(s: Pool): set<nat> {
    set r: nat | r < |s.recorders| && IsLate(s, r)
  }

  /** A started write is being written, so whoever holds it can go on. */
  lemma StartedWriteAdvances(s: Pool, a: nat)
    requires Inv(s) && a < s.next && s.tasks[a].Write? && a !in s.done
    ensures exists w | 0 <= w < |s.workers| :: CanAdvance(s, w)
  {
    var w :| 0 <= w < |s.workers| && Holds(s, w, a);
    assert WorkerOk(s, w) && CanAdvance(s, w);
  }

  lemma StuckWritesQueued(s: Pool, a: nat)
    requires Inv(s) && Stuck(s) && a < |s.tasks| && s.tasks[a].Write? && a !in s.done
    ensures s.next <= a
  {
    if a < s.next {
      StartedWriteAdvances(s, a);
    }
  }

  /** A blocked worker waits in a flush for a write that is still queued: its recorder is late. */
  lemma WaitingIsLate(s: Pool, w: nat)
    requires Inv(s) && Stuck(s) && w < |s.workers| && s.workers[w].Waiting?
    ensures InRange(s, s.workers[w]) && s.tasks[s.workers[w].task].Flush?
    ensures s.tasks[s.workers[w].task].owner in Late(s) && s.next < |s.tasks|
  {
    assert WorkerOk(s, w) && FlushOk(s, s.workers[w]) && !CanAdvance(s, w);
    var f, awaits := s.workers[w].task, s.workers[w].awaits;
    var r := s.tasks[f].owner;
    var a :| a in awaits && a !in s.done;
    var i :| 0 <= i < |awaits| && awaits[i] == a;
    assert s.tasks[a] == Write(r);
    StuckWritesQueued(s, a);
    assert s.tasks[f] == Flush(s.tasks[a].owner);
    assert AfterFlush(s.tasks, a);
  }

  lemma StuckAllWait(s: Pool)
    requires Inv(s) && Stuck(s)
    ensures forall w | 0 <= w < |s.workers| :: s.workers[w].Waiting?
  {
    forall w | 0 <= w < |s.workers| ensures s.workers[w].Waiting? {
      assert !CanAdvance(s, w);
      if s.workers[w].Idle? {
        var t :| 0 <= t < |s.tasks| && t !in s.done;
        var v :| 0 <= v < |s.workers| && Holds(s, v, t);
        assert !CanAdvance(s, v);
        WaitingIsLate(s, v);
        assert false;
      }
    }
  }

  function OwnerAt(s: Pool, w: nat): nat
    requires w < |s.workers| && !s.workers[w].Idle? && InRange(s, s.workers[w])
  {
    s.tasks[s.workers[w].task].owner
  }

  /** The pool can only block when as many recorders as there are workers are saved to after `finalize`. */
  lemma StuckNeedsLate(s: Pool)
    requires Inv(s) && Stuck(s)
    ensures |Late(s)| >= |s.workers|
  {
    StuckAllWait(s);
    forall w | 0 <= w < |s.workers|
      ensures InRange(s, s.workers[w]) && s.tasks[s.workers[w].task].Flush? && OwnerAt(s, w) in Late(s)
    {
      WaitingIsLate(s, w);
    }
    var k := |s.workers|;
    var owners := seq(k, w requires 0 <= w < k => OwnerAt(s, w));
    forall v, w | 0 <= v < w < k ensures owners[v] != owners[w] { OwnersDiffer(s, v, w); }
    DistinctFit(owners, Late(s));
  }

  lemma OwnersDiffer(s: Pool, v: nat, w: nat)
    requires Queue(s) && Owners(s) && v < w < |s.workers| && !s.workers[v].Idle? && !s.workers[w].Idle?
    requires InRange(s, s.workers[v]) && InRange(s, s.workers[w])
    requires s.tasks[s.workers[v].task].Flush? && s.tasks[s.workers[w].task].Flush?
    ensures OwnerAt(s, v) != OwnerAt(s, w)
  {
    var t, u := s.workers[v].task, s.workers[w].task;
    assert t < u || u < t;
  }

  /** With fewer late recorders than workers, no schedule of any number of sessions ever blocks. */
  lemma NeverStuck(k: nat, actions: seq<Action>, s: Pool)
    requires k > 0 && Reaches(Start(k), actions, s) && |Late(s)| < k
    ensures !Stuck(s)
  {
    hide Inv, Stuck, Late;
    StartInv(k);
    ReachesInv(Start(k), actions, s);
    WorkersKept(Start(k), actions, s);
    if Stuck(s) {
      StuckNeedsLate(s);
    }
  }

  lemma {:induction false} WorkersKept(s: Pool, actions: seq<Action>, t: Pool)
    requires Reaches(s, actions, t)
    ensures |t.workers| == |s.workers|
    decreases |actions|
  {
    if actions != [] {
      WorkersKept(Step(s, actions[0]), actions[1..], t);
    }
  }

  /** A published recording.json comes once, after every save made before `finalize` has been written. */
  lemma PublishedComplete(k: nat, actions: seq<Action>, s: Pool)
    requires k > 0 && Reaches(Start(k), actions, s)
    ensures forall i, j | 0 <= i < j < |s.published| :: s.published[i] != s.published[j]
    ensures forall i, j | 0 <= i < |s.published| && 0 <= j < |s.tasks| ::
      s.tasks[j] == Write(s.published[i]) && !AfterFlush(s.tasks, j) ==> j in s.done
  {
    StartInv(k);
    ReachesInv(Start(k), actions, s);
    forall i, j | 0 <= i < |s.published| && 0 <= j < |s.tasks|
                  && s.tasks[j] == Write(s.published[i]) && !AfterFlush(s.tasks, j)
      ensures j in s.done
    {
      assert PublishedOk(s, s.published[i]);
      var f: nat :| f < |s.tasks| && s.tasks[f] == Flush(s.published[i]) && f in s.done && AllBefore(s, f);
      NotAfter(s.tasks, f, j);
      assert BeforeFlush(s, f, j);
    }
  }

  // ---------- what is published ----------

  /** One of the actions ends the flush `f`, and its file work raises or not as `raises` says. */
  ghost predicate FlushEnds(s: Pool, actions: seq<Action>, f: nat, raises: bool)
    decreases |actions|
  {
    actions != [] && Enabled(s, actions[0]) &&
    (EndsNow(s, actions[0], f, raises) || FlushEnds(Step(s, actions[0]), actions[1..], f, raises))
  }

  predicate EndsNow(s: Pool, a: Action, f: nat, raises: bool)
    requires Enabled(s, a)
  {
    a.Advance? && a.raises == raises && s.workers[a.w] == Flushing(f)
  }

  /** `f` is the flush of recorder `r`, if it has been submitted yet. */
  predicate FlushOf(s: Pool, f: nat, r: nat) {
    f < |s.tasks| ==> s.tasks[f] == Flush(r)
  }

  lemma EndsOnce(s: Pool, a: Action, f: nat, r: nat)
    requires Inv(s) && Enabled(s, a)
    requires f < |Step(s, a).tasks| ==> Step(s, a).tasks[f] == Flush(r)
    ensures var u := Step(s, a);
      var ends := EndsNow(s, a, f, false) || EndsNow(s, a, f, true);
      && (f in u.done <==> f in s.done || ends) && (f in s.done ==> !ends)
      && (r in u.published && FlushKnown(s, r, f) <==>
            (r in s.published || EndsNow(s, a, f, false)) && FlushKnown(s, r, f))
  {
    hide Owners, PendingOk, Flushes, Published;
    if a.Advance? {
      assert WorkerOk(s, a.w);
      if s.workers[a.w].Flushing? && s.workers[a.w].task != f { OtherOwner(s, s.workers[a.w].task, f, r); }
    }
  }

  /** Every flush of `r` that has been submitted is `f`. */
  predicate FlushKnown(s: Pool, r: nat, f: nat) {
    forall g | 0 <= g < |s.tasks| && s.tasks[g] == Flush(r) :: g == f
  }

  lemma OtherOwner(s: Pool, g: nat, f: nat, r: nat)
    requires g < |s.tasks| && g != f
    ensures FlushKnown(s, r, f) ==> s.tasks[g] != Flush(r)
  {
  }

  lemma KnownBefore(s: Pool, t: Pool, f: nat, r: nat)
    requires s.tasks <= t.tasks && Owners(t) && f < |t.tasks| && t.tasks[f] == Flush(r)
    ensures FlushKnown(s, r, f) && FlushOf(s, f, r)
  {
    forall g | 0 <= g < |s.tasks| && s.tasks[g] == Flush(r) ensures g == f {
      assert t.tasks[g] == Flush(r);
    }
  }

  lemma {:induction false} TasksGrow(s: Pool, actions: seq<Action>, t: Pool)
    requires Reaches(s, actions, t)
    ensures s.tasks <= t.tasks
    decreases |actions|
  {
    if actions != [] {
      TasksGrow(Step(s, actions[0]), actions[1..], t);
      assert s.tasks <= Step(s, actions[0]).tasks;
    }
  }

  /** From any state on: what a run adds to the finished flushes and to the published recordings. */
  lemma {:induction false} RunPublishes(s: Pool, actions: seq<Action>, t: Pool, f: nat, r: nat)
    requires Inv(s) && Reaches(s, actions, t) && f < |t.tasks| && t.tasks[f] == Flush(r)
    ensures f in t.done <==> f in s.done || FlushEnds(s, actions, f, false) || FlushEnds(s, actions, f, true)
    ensures f in s.done ==> !FlushEnds(s, actions, f, false) && !FlushEnds(s, actions, f, true)
    ensures !(FlushEnds(s, actions, f, false) && FlushEnds(s, actions, f, true))
    ensures r in t.published <==> r in s.published || FlushEnds(s, actions, f, false)
    decreases |actions|
  {
    hide Inv, Enabled, EndsNow, Step, FlushKnown;
    if actions != [] {
      var a := actions[0];
      var u := Step(s, a);
      StepInv(s, a);
      ReachesInv(s, actions, t);
      TasksGrow(s, actions, t);
      TasksGrow(u, actions[1..], t);
      InvOwners(t);
      KnownBefore(s, t, f, r);
      KnownBefore(u, t, f, r);
      EndsOnce(s, a, f, r);
      RunPublishes(u, actions[1..], t, f, r);
      NotBoth(s, a, f);
    }
  }

  lemma InvOwners(s: Pool)
    requires Inv(s)
    ensures Owners(s)
  {
  }

  lemma NotBoth(s: Pool, a: Action, f: nat)
    requires Enabled(s, a)
    ensures !(EndsNow(s, a, f, false) && EndsNow(s, a, f, true))
  {
  }

  /**
   Over every run: a flush is done exactly when one of the actions has ended it, which happens once, and
   its recording is published exactly when that action did not raise.
   */
  lemma PublishedExactly(k: nat, actions: seq<Action>, s: Pool, f: nat, r: nat)
    requires k > 0 && Reaches(Start(k), actions, s) && f < |s.tasks| && s.tasks[f] == Flush(r)
    ensures f in s.done <==> FlushEnds(Start(k), actions, f, false) || FlushEnds(Start(k), actions, f, true)
    ensures !(FlushEnds(Start(k), actions, f, false) && FlushEnds(Start(k), actions, f, true))
    ensures r in s.published <==> FlushEnds(Start(k), actions, f, false)
  {
    hide Inv;
    StartInv(k);
    RunPublishes(Start(k), actions, s, f, r);
  }

  // ---------- the pool drains ----------

  function Stage(x: Worker): nat {
    match x
    case Idle => 0
    case Writing(_) => 1
    case Entered(_) => 3
    case Waiting(_, _) => 2
    case Flushing(_) => 1
  }

  function Stages(ws: seq<Worker>): nat {
    if ws == [] then 0 else Stages(ws[..|ws| - 1]) + Stage(ws[|ws| - 1])
  }

  lemma {:induction false} StagesUpdate(ws: seq<Worker>, w: nat, x: Worker)
    requires w < |ws|
    ensures Stages(ws[w := x]) + Stage(ws[w]) == Stages(ws) + Stage(x)
  {
    var n := |ws| - 1;
    if w == n {
      assert ws[w := x][..n] == ws[..n];
    } else {
      StagesUpdate(ws[..n], w, x);
      assert ws[w := x][..n] == ws[..n][w := x];
    }
  }

  /** An upper bound of the steps the workers have left. */
  function Work(s: Pool): nat
    requires s.next <= |s.tasks|
  {
    4 * (|s.tasks| - s.next) + Stages(s.workers)
  }

  lemma AdvanceWorks(s: Pool, w: nat, raises: bool)
    requires s.next <= |s.tasks| && Enabled(s, Advance(w, raises))
    ensures Advanced(s, w, raises).next <= |s.tasks| && Work(Advanced(s, w, raises)) < Work(s)
  {
    StagesUpdate(s.workers, w, Advanced(s, w, raises).workers[w]);
  }

  lemma {:induction false} AdvancesBounded(s: Pool, actions: seq<Action>, t: Pool)
    requires s.next <= |s.tasks| && Reaches(s, actions, t) && forall a | a in actions :: a.Advance?
    ensures |actions| <= Work(s) && t.tasks == s.tasks
    decreases |actions|
  {
    hide Work;
    if actions != [] {
      var a := actions[0];
      AdvanceWorks(s, a.w, a.raises);
      AdvancesBounded(Step(s, a), actions[1..], t);
    }
  }

  /**
   Once no session submits anything more, the workers stop after boundedly many steps, whatever order
   they take them in; and with fewer late recorders than workers, they stop because everything is done.
   */
  lemma Drains(k: nat, before: seq<Action>, s: Pool, advances: seq<Action>, t: Pool)
    requires k > 0 && Reaches(Start(k), before, s)
    requires Reaches(s, advances, t) && forall a | a in advances :: a.Advance?
    requires |Late(t)| < k
    ensures s.next <= |s.tasks| && |advances| <= Work(s)
    ensures (forall w | 0 <= w < |t.workers| :: !CanAdvance(t, w)) <==> forall j | 0 <= j < |t.tasks| :: j in t.done
  {
    hide Late, Work;
    StartInv(k);
    ReachesInv(Start(k), before, s);
    ReachesInv(s, advances, t);
    AdvancesBounded(s, advances, t);
    ReachesConcat(Start(k), before, s, advances, t);
    NeverStuck(k, before + advances, t);
    if forall j | 0 <= j < |t.tasks| :: j in t.done {
      forall w | 0 <= w < |t.workers| ensures !CanAdvance(t, w) { DoneIdle(t, w); }
    }
  }

  /** A finalised recorder has submitted its flush. */
  ghost predicate Submitted(s: Pool) {
    forall r | 0 <= r < |s.recorders| && s.recorders[r].finalized :: HasFlush(s, r)
  }

  predicate HasFlush(s: Pool, r: nat) {
    exists f | 0 <= f < |s.tasks| :: s.tasks[f] == Flush(r)
  }

  lemma StepSubmitted(s: Pool, a: Action)
    requires Enabled(s, a) && Submitted(s)
    ensures Submitted(Step(s, a))
  {
    var t := Step(s, a);
    assert s.tasks <= t.tasks;
    forall r | 0 <= r < |t.recorders| && t.recorders[r].finalized ensures HasFlush(t, r) {
      if r < |s.recorders| && s.recorders[r].finalized {
        assert HasFlush(s, r);
        var f :| 0 <= f < |s.tasks| && s.tasks[f] == Flush(r);
        assert t.tasks[f] == Flush(r);
      } else {
        assert t.tasks[|s.tasks|] == Flush(r);
      }
    }
  }

  lemma {:induction false} ReachesSubmitted(s: Pool, actions: seq<Action>, t: Pool)
    requires Submitted(s) && Reaches(s, actions, t)
    ensures Submitted(t)
    decreases |actions|
  {
    hide Submitted, Enabled;
    if actions != [] {
      StepSubmitted(s, actions[0]);
      ReachesSubmitted(Step(s, actions[0]), actions[1..], t);
    }
  }

  /** No flush's file work raises. */
  predicate NoneRaises(actions: seq<Action>) {
    forall i | 0 <= i < |actions| && actions[i].Advance? :: !actions[i].raises
  }

  lemma {:induction false} NoneEndsRaising(s: Pool, actions: seq<Action>, f: nat)
    requires NoneRaises(actions)
    ensures !FlushEnds(s, actions, f, true)
    decreases |actions|
  {
    if actions != [] && Enabled(s, actions[0]) {
      NoneEndsRaising(Step(s, actions[0]), actions[1..], f);
    }
  }

  /** How often a recorder occurs among the published ones. */
  function Times(published: seq<nat>, r: nat): nat {
    if published == [] then 0
    else Times(published[..|published| - 1], r) + if published[|published| - 1] == r then 1 else 0
  }

  lemma {:induction false} DistinctTimes(published: seq<nat>, r: nat)
    requires forall i, j | 0 <= i < j < |published| :: published[i] != published[j]
    ensures Times(published, r) == if r in published then 1 else 0
  {
    if published != [] {
      var front := published[..|published| - 1];
      DistinctTimes(front, r);
      assert published == front + [published[|published| - 1]];
      assert published[|published| - 1] !in front;
    }
  }

  /**
   When the workers have stopped, with fewer late recorders than workers and no flush that raised, the
   recording of every finalised recorder has been published, once, and nothing else has.
   */
  lemma DrainedPublishes(k: nat, actions: seq<Action>, s: Pool, r: nat)
    requires k > 0 && Reaches(Start(k), actions, s) && |Late(s)| < k && NoneRaises(actions)
    requires forall w | 0 <= w < |s.workers| :: !CanAdvance(s, w)
    ensures Times(s.published, r) == if r < |s.recorders| && s.recorders[r].finalized then 1 else 0
  {
    hide Late, Inv, FlushEnds, NoneRaises;
    StartInv(k);
    ReachesInv(Start(k), actions, s);
    ReachesSubmitted(Start(k), actions, s);
    NeverStuck(k, actions, s);
    PublishedComplete(k, actions, s);
    DistinctTimes(s.published, r);
    if r < |s.recorders| && s.recorders[r].finalized {
      assert HasFlush(s, r);
      var f :| 0 <= f < |s.tasks| && s.tasks[f] == Flush(r);
      PublishedExactly(k, actions, s, f, r);
      NoneEndsRaising(Start(k), actions, f);
    } else if r in s.published {
      OnlyFinalized(s, r);
      assert false;
    }
  }

  lemma OnlyFinalized(s: Pool, r: nat)
    requires Inv(s) && r in s.published
    ensures r < |s.recorders| && s.recorders[r].finalized
  {
    var i :| 0 <= i < |s.published| && s.published[i] == r;
    assert PublishedOk(s, s.published[i]);
  }

  lemma DoneIdle(t: Pool, w: nat)
    requires Inv(t) && w < |t.workers| && forall j | 0 <= j < |t.tasks| :: j in t.done
    ensures !CanAdvance(t, w)
  {
    assert WorkerOk(t, w);
    assert t.next < |t.tasks| ==> t.next in t.done;
  }

  lemma {:induction false} ReachesConcat(s: Pool, a: seq<Action>, t: Pool, b: seq<Action>, u: Pool)
    requires Reaches(s, a, t) && Reaches(t, b, u)
    ensures Reaches(s, a + b, u)
    decreases |a|
  {
    if a == [] {
      assert a + b == b;
    } else {
      assert (a + b)[1..] == a[1..] + b;
      ReachesConcat(Step(s, a[0]), a[1..], t, b, u);
    }
  }

  // ---------- as many late recorders as workers, or more, do block it ----------

  /** After `c` creations, `f` finalisations, `v` late saves and `n` flushes begun. */
  function Blocked(k: nat, c: nat, f: nat, v: nat, n: nat): Pool
    requires n <= k && v <= f <= c
  {
    Pool(seq(f, i requires 0 <= i < f => Flush(i)) + seq(v, i requires 0 <= i < v => Write(i)), n,
         seq(k, w requires 0 <= w < k => if w < n then Waiting(w, [f + w]) else Idle), {},
         seq(c, i requires 0 <= i < c => Recorder(if i < v then [f + i] else [], i < f)), [])
  }

  lemma ReachesMore(s: Pool, actions: seq<Action>, t: Pool, a: Action)
    requires Reaches(s, actions, t) && Enabled(t, a)
    ensures Reaches(s, actions + [a], Step(t, a))
  {
    assert Reaches(Step(t, a), [], Step(t, a));
    assert [a][1..] == [];
    assert Reaches(t, [a], Step(t, a));
    ReachesConcat(s, actions, t, [a], Step(t, a));
  }

  lemma BlockedCreate(k: nat, c: nat)
    ensures Step(Blocked(k, c, 0, 0, 0), Create) == Blocked(k, c + 1, 0, 0, 0)
  {
  }

  lemma BlockedFinalize(k: nat, m: nat, f: nat)
    requires f < m
    ensures Enabled(Blocked(k, m, f, 0, 0), Finalize(f))
    ensures Step(Blocked(k, m, f, 0, 0), Finalize(f)) == Blocked(k, m, f + 1, 0, 0)
  {
    var s, t := Step(Blocked(k, m, f, 0, 0), Finalize(f)), Blocked(k, m, f + 1, 0, 0);
    assert s.tasks == t.tasks;
    assert s.recorders == t.recorders;
  }

  lemma BlockedSave(k: nat, m: nat, v: nat)
    requires v < m
    ensures Enabled(Blocked(k, m, m, v, 0), Save(v))
    ensures Step(Blocked(k, m, m, v, 0), Save(v)) == Blocked(k, m, m, v + 1, 0)
  {
    var s, t := Step(Blocked(k, m, m, v, 0), Save(v)), Blocked(k, m, m, v + 1, 0);
    assert s.tasks == t.tasks;
    assert s.recorders[v].pending == [m + v] == t.recorders[v].pending;
    assert s.recorders == t.recorders;
  }

  lemma BlockedBegin(k: nat, m: nat, n: nat)
    requires n < k <= m
    ensures var s := Blocked(k, m, m, m, n);
      && Enabled(s, Advance(n, false)) && Enabled(Step(s, Advance(n, false)), Advance(n, false))
      && Step(Step(s, Advance(n, false)), Advance(n, false)) == Blocked(k, m, m, m, n + 1)
  {
    var s := Blocked(k, m, m, m, n);
    var u, t := Step(Step(s, Advance(n, false)), Advance(n, false)), Blocked(k, m, m, m, n + 1);
    assert u.workers == t.workers;
  }

  /**
   For every number of workers: as many sessions or more, each finalised and then saved to once, can
   leave every worker waiting for a write that no worker is left to do.
   */
  lemma LateSavesBlock(k: nat, m: nat) returns (actions: seq<Action>, s: Pool)
    requires 0 < k <= m
    ensures Reaches(Start(k), actions, s) && Stuck(s) && |Late(s)| == m
  {
    actions, s := [], Start(k);
    assert s == Blocked(k, 0, 0, 0, 0);
    var i := 0;
    while i < m
      invariant i <= m && s == Blocked(k, i, 0, 0, 0) && Reaches(Start(k), actions, s)
    {
      BlockedCreate(k, i);
      ReachesMore(Start(k), actions, s, Create);
      actions, s, i := actions + [Create], Blocked(k, i + 1, 0, 0, 0), i + 1;
    }
    actions, s := FinalizeAll(k, m, actions);
    actions, s := SaveAll(k, m, actions);
    actions, s := BeginAll(k, m, actions);
    BlockedIsStuck(k, m);
  }

  lemma FinalizeAll(k: nat, m: nat, before: seq<Action>) returns (actions: seq<Action>, s: Pool)
    requires Reaches(Start(k), before, Blocked(k, m, 0, 0, 0))
    ensures s == Blocked(k, m, m, 0, 0) && Reaches(Start(k), actions, s)
  {
    actions, s := before, Blocked(k, m, 0, 0, 0);
    var i := 0;
    while i < m
      invariant i <= m && s == Blocked(k, m, i, 0, 0) && Reaches(Start(k), actions, s)
    {
      BlockedFinalize(k, m, i);
      ReachesMore(Start(k), actions, s, Finalize(i));
      actions, s, i := actions + [Finalize(i)], Blocked(k, m, i + 1, 0, 0), i + 1;
    }
  }

  lemma SaveAll(k: nat, m: nat, before: seq<Action>) returns (actions: seq<Action>, s: Pool)
    requires Reaches(Start(k), before, Blocked(k, m, m, 0, 0))
    ensures s == Blocked(k, m, m, m, 0) && Reaches(Start(k), actions, s)
  {
    actions, s := before, Blocked(k, m, m, 0, 0);
    var i := 0;
    while i < m
      invariant i <= m && s == Blocked(k, m, m, i, 0) && Reaches(Start(k), actions, s)
    {
      BlockedSave(k, m, i);
      ReachesMore(Start(k), actions, s, Save(i));
      actions, s, i := actions + [Save(i)], Blocked(k, m, m, i + 1, 0), i + 1;
    }
  }

  lemma BeginAll(k: nat, m: nat, before: seq<Action>) returns (actions: seq<Action>, s: Pool)
    requires k <= m && Reaches(Start(k), before, Blocked(k, m, m, m, 0))
    ensures s == Blocked(k, m, m, m, k) && Reaches(Start(k), actions, s)
  {
    actions, s := before, Blocked(k, m, m, m, 0);
    var i := 0;
    while i < k
      invariant i <= k && s == Blocked(k, m, m, m, i) && Reaches(Start(k), actions, s)
    {
      var a := Advance(i, false);
      BlockedBegin(k, m, i);
      ReachesMore(Start(k), actions, s, a);
      ReachesMore(Start(k), actions + [a], Step(s, a), a);
      actions, s, i := actions + [a] + [a], Blocked(k, m, m, m, i + 1), i + 1;
    }
  }

  lemma BlockedIsStuck(k: nat, m: nat)
    requires 0 < k <= m
    ensures var s := Blocked(k, m, m, m, k); Stuck(s) && |Late(s)| == m
  {
    var s := Blocked(k, m, m, m, k);
    forall w | 0 <= w < k ensures !CanAdvance(s, w) {
      assert s.workers[w] == Waiting(w, [m + w]) && (m + w) in [m + w];
    }
    assert 0 !in s.done && 0 < |s.tasks|;
    forall r: nat | r < m ensures IsLate(s, r) {
      assert s.tasks[r] == Flush(r) && s.tasks[m + r] == Write(r);
      assert AfterFlush(s.tasks, m + r);
    }
    BelowSize(m);
    assert Late(s) == Below(m);
  }

  /** `k` workers can be blocked with `n` late recorders. */
  ghost predicate CanBlock(k: nat, n: nat) {
    exists actions, s :: BlockedWith(k, n, actions, s)
  }

  ghost predicate BlockedWith(k: nat, n: nat, actions: seq<Action>, s: Pool) {
    Reaches(Start(k), actions, s) && Stuck(s) && |Late(s)| == n
  }

  /** A pool can be blocked with some number of late recorders exactly when that is no less than its workers. */
  lemma BlocksExactly(k: nat, n: nat)
    requires k > 0
    ensures CanBlock(k, n) <==> n >= k
  {
    hide Stuck, Late, Reaches, Start;
    if n >= k {
      var actions, s := LateSavesBlock(k, n);
      assert BlockedWith(k, n, actions, s);
    } else {
      forall actions, s | BlockedWith(k, n, actions, s) ensures false {
        NeverStuck(k, actions, s);
      }
    }
  }

  // ---------- the objects ----------

  /** `_io_pool`: what has been submitted to it. */
  class IoPool {
    var tasks: seq<Task>

    constructor ()
      ensures tasks == []
    {
      tasks := [];
    }

    method Submit(task: Task) returns (future: nat)
      modifies this
      ensures tasks == old(tasks) + [task] && future == |old(tasks)|
    {
      future := |tasks|;
      tasks := tasks + [task];
    }
  }

  /** `SessionRecorder`: the fields of the asynchronous writes. */
  class SessionRecorder {
    const ioPool: IoPool
    const index: nat
    var pendingIo: seq<nat>
    var finalized: bool

    constructor (ioPool: IoPool, index: nat, ghost s: Pool)
      requires s.tasks == ioPool.tasks && index == |s.recorders|
      ensures this.ioPool == ioPool && Mirrors(Step(s, Create))
    {
      this.ioPool, this.index := ioPool, index;
      pendingIo, finalized := [], false;
    }

    /** The object is recorder `index` of the pool state `s`. */
    ghost predicate Mirrors(s: Pool)
      reads this, ioPool
    {
      index < |s.recorders| && ioPool.tasks == s.tasks && s.recorders[index] == Recorder(pendingIo, finalized)
    }

    /** Every `save_*` method submits one write and remembers its future. */
    method SaveAsset(ghost s: Pool)
      requires Mirrors(s)
      modifies this`pendingIo, ioPool
      ensures Mirrors(Step(s, Save(index)))
      ensures ioPool.tasks == old(ioPool.tasks) + [Write(index)] && pendingIo == old(pendingIo) + [|old(ioPool.tasks)|]
    {
      var future := ioPool.Submit(Write(index));
      pendingIo := pendingIo + [future];
    }

    /** `finalize` */
    method Finalize(ghost s: Pool)
      requires Mirrors(s)
      modifies this`finalized, ioPool
      ensures Mirrors(Step(s, Action.Finalize(index)))
      ensures finalized && ioPool.tasks == old(ioPool.tasks) + if old(finalized) then [] else [Flush(index)]
    {
      if finalized { return; }
      finalized := true;
      var future := ioPool.Submit(Flush(index));
    }

    /** The end of `_wait_pending_io`, when all futures read are done. */
    method ClearPendingIo(ghost s: Pool, ghost w: nat)
      requires Mirrors(s) && Enabled(s, Advance(w, false))
      requires s.workers[w].Waiting? && s.tasks[s.workers[w].task].owner == index
      modifies this`pendingIo
      ensures Mirrors(Step(s, Advance(w, false))) && pendingIo == []
    {
      pendingIo := [];
    }
  }
}
