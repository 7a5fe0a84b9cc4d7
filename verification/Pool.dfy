// The build pool: submitters, waiters, workers and shutdown calls, each with
// its own program counter, over two atomics, a bounded queue and one token.

module Pool {

  /** Where a goroutine stands. `wait` is a submission made by submitWait. The
      steps of trySubmit are Load, Count, Recheck, Enqueue and Undo; submitWait
      adds Enter, Check, Parked, Mark and Pass; a worker is Idle, has
      Dequeued a task, is Running it or has run it (Ran); shutdown is Closing,
      Signalling, Draining, then Drained or Expired, then Ended. */
  datatype Pc =
    | Load(wait: bool) | Count(wait: bool) | Recheck(wait: bool) | Enqueue(wait: bool) | Undo(wait: bool)
    | Enter | Check | Parked | Mark | Pass
    | Left(accepted: bool)
    | Idle | Dequeued(task: nat) | Running(task: nat) | Ran(task: nat) | Exited
    | Closing | Signalling | Draining | Drained | Expired | Ended

  /** The pool and every goroutine on it. A task is named by its submitter's
      index; `accepted` and `finished` only record what happened. */
  datatype State = State(
    capacity: nat,
    highWater: nat,
    queue: seq<nat>,
    pending: int,
    closed: bool,
    done: bool,
    cancelled: bool,
    token: bool,
    procs: seq<Pc>,
    accepted: set<nat>,
    finished: set<nat>)

  predicate Pressured(s: State) {
    |s.queue| >= s.highWater
  }

  /** What one step does to the pool besides moving its goroutine on. */
  datatype Act = Nothing | Increment | Decrement | Push | Pop | Signal | Take | Finish(
    task: nat) | Close | SetDone | Cancel

  /** trySubmit returned false: submitWait waits on. */
  function Refused(wait: bool): Pc {
    if wait then Parked else Left(false)
  }

  /** The next step of a goroutine at `pc`. Where Go's select or an ended
      context leaves a choice, the choices are the disjuncts. */
  ghost predicate May(s: State, pc: Pc, act: Act, pc': Pc) {
    match pc
    case Load(w) => act == Nothing && pc' == if s.closed then Refused(w) else Count(w)
    case Count(w) => act == Increment && pc' == Recheck(w)
    case Recheck(w) => act == Nothing && pc' == if s.closed then Undo(w) else Enqueue(w)
    case Enqueue(w) =>
      if |s.queue| < s.capacity then act == Push && pc' == (if w then Mark else Left(true))
      else act == Nothing && pc' == Undo(w)
    case Undo(w) => act == Decrement && pc' == Refused(w)
    case Enter => act == Nothing && pc' == if s.closed then Left(false) else Check
    case Check => act == Nothing && pc' == if Pressured(s) then Parked else Load(true)
    case Parked => (s.token && act == Take && pc' == Enter) || (act == Nothing && pc' == Left(false))
    case Mark => act == Nothing && pc' == if Pressured(s) then Left(true) else Pass
    case Pass => act == Signal && pc' == Left(true)
    case Left(_) => false
    case Idle =>
      (s.queue != [] && act == Pop && pc' == Dequeued(s.queue[0])) || (s.cancelled && act == Nothing && pc' == Exited)
    case Dequeued(t) => act == Signal && pc' == Running(t)
    case Running(t) => act == Finish(t) && pc' == Ran(t)
    case Ran(t) => act == Decrement && pc' == Idle
    case Exited => false
    case Closing => act == Close && pc' == if s.closed then Draining else Signalling
    case Signalling => act == SetDone && pc' == Draining
    case Draining =>
      act == Nothing && ((s.pending == 0 && pc' == Drained) || (s.pending != 0 && pc' == Draining) || pc' == Expired)
    case Drained => act == Cancel && pc' == Ended
    case Expired => act == Cancel && pc' == Ended
    case Ended => false
  }

  /** The state after goroutine i's step. */
  function After(s: State, i: nat, act: Act, pc': Pc): State
    requires i < |s.procs| && (act == Pop ==> s.queue != [])
  {
    var m := s.(procs := s.procs[i := pc']);
    match act
    case Nothing => m
    case Increment => m.(pending := s.pending + 1)
    case Decrement => m.(pending := s.pending - 1)
    case Push => m.(queue := s.queue + [i], accepted := s.accepted + {i})
    case Pop => m.(queue := s.queue[1..])
    case Signal => m.(token := true)
    case Take => m.(token := false)
    case Finish(t) => m.(finished := s.finished + {t})
    case Close => m.(closed := true)
    case SetDone => m.(done := true)
    case Cancel => m.(cancelled := true)
  }

  ghost predicate Stepped(s: State, s': State, i: nat, act: Act, pc': Pc) {
    i < |s.procs| && May(s, s.procs[i], act, pc') && (act == Pop ==> s.queue != []) && s' == After(s, i, act, pc')
  }

  lemma Opened(s: State, s': State, i: nat, act: Act, pc': Pc)
    requires Stepped(s, s', i, act, pc')
    ensures
      i < |s.procs| && May(s, s.procs[i], act, pc') && (act == Pop ==> s.queue != []) && s' == After(s, i, act, pc')
    ensures s'.procs == s.procs[i := pc']
  {
  }

  /** One step of goroutine i. */
  ghost predicate Step(s: State, s': State, i: nat) {
    exists act: Act, pc': Pc :: Stepped(s, s', i, act, pc')
  }

  /** A new call of trySubmit, submitWait or shutdown. */
  ghost predicate Call(s: State, s': State) {
    exists pc :: pc in {Load(false), Enter, Closing} && s' == s.(procs := s.procs + [pc])
  }

  ghost predicate Next(s: State, s': State) {
    Call(s, s') || exists i: nat :: Step(s, s', i)
  }

  /** A fresh pool: a fixed set of workers, and 1 <= highWater <= capacity. */
  ghost predicate Init(s: State) {
    && 1 <= s.highWater <= s.capacity
    && s.queue == [] && s.pending == 0 && !s.closed && !s.done && !s.cancelled && !s.token
    && s.accepted == {} && s.finished == {}
    && forall i :: 0 <= i < |s.procs| ==> s.procs[i] == Idle
  }

  ghost predicate Run(run: seq<State>) {
    |run| > 0 && Init(run[0]) && forall k :: 0 <= k < |run| - 1 ==> Next(run[k], run[k + 1])
  }

  // --------------------------------------------------------------- the count

  /** Whether a goroutine accounts for one of `pending`: a submitter between
      its increment and its enqueue or undo, or a worker with a task. */
  predicate Holds(pc: Pc) {
    pc.Recheck? || pc.Enqueue? || pc.Undo? || pc.Dequeued? || pc.Running? || pc.Ran?
  }

  function Holders(procs: seq<Pc>): nat {
    if procs == [] then 0
    else Holders(procs[..|procs| - 1]) + if Holds(procs[|procs| - 1]) then 1 else 0
  }

  lemma {:induction false} HoldersUpdate(procs: seq<Pc>, i: nat, pc: Pc)
    requires i < |procs|
    ensures
      Holders(procs[i := pc]) == Holders(procs) - (if Holds(procs[i]) then 1 else 0) + (if Holds(pc) then 1 else 0)
  {
    var n := |procs| - 1;
    if i < n {
      HoldersUpdate(procs[..n], i, pc);
      assert procs[i := pc][..n] == procs[..n][i := pc];
    } else {
      assert procs[i := pc][..n] == procs[..n];
    }
  }

  lemma HoldersAppend(procs: seq<Pc>, pc: Pc)
    ensures Holders(procs + [pc]) == Holders(procs) + if Holds(pc) then 1 else 0
  {
    assert (procs + [pc])[..|procs|] == procs;
  }

  lemma {:induction false} HoldersZero(procs: seq<Pc>)
    ensures Holders(procs) == 0 <==> forall i :: 0 <= i < |procs| ==> !Holds(procs[i])
  {
    if procs != [] {
      var n := |procs| - 1;
      HoldersZero(procs[..n]);
      assert forall i :: 0 <= i < n ==> procs[i] == procs[..n][i];
    }
  }

  /** pending is exactly queued plus running plus submitters between their
      increment and their enqueue or undo. */
  ghost predicate Counted(s: State) {
    s.pending == |s.queue| + Holders(s.procs)
  }

  ghost predicate HeldBy(s: State, t: nat) {
    exists i :: 0 <= i < |s.procs| && (s.procs[i] == Dequeued(t) || s.procs[i] == Running(t))
  }

  /** An accepted task is queued, held by a worker, or finished. */
  ghost predicate Tracked(s: State) {
    forall t {:trigger t in s.accepted} :: t in s.accepted ==> t in s.queue || t in s.finished || HeldBy(s, t)
  }

  /** Every step moves the count as it moves pending and the queue. */
  lemma Balanced(s: State, pc: Pc, act: Act, pc': Pc)
    requires May(s, pc, act, pc')
    ensures act == Increment ==> !Holds(pc) && Holds(pc')
    ensures act == Decrement ==> Holds(pc) && !Holds(pc')
    ensures act == Push ==> Holds(pc) && !Holds(pc')
    ensures act == Pop ==> !Holds(pc) && Holds(pc')
    ensures act !in {Increment, Decrement, Push, Pop} ==> (Holds(pc) <==> Holds(pc'))
  {
  }

  lemma StepCounted(s: State, s': State, i: nat, act: Act, pc': Pc)
    requires Counted(s) && Stepped(s, s', i, act, pc')
    ensures Counted(s')
  {
    Balanced(s, s.procs[i], act, pc');
    HoldersUpdate(s.procs, i, pc');
    hide May, Holds;
  }

  lemma StepTracked(s: State, s': State, i: nat, act: Act, pc': Pc)
    requires Tracked(s) && Stepped(s, s', i, act, pc')
    ensures Tracked(s')
  {
    hide May;
    forall t | t in s'.accepted ensures t in s'.queue || t in s'.finished || HeldBy(s', t) {
      StepTracksTask(s, s', i, act, pc', t);
    }
  }

  /** A worker keeps its task until it has run it. */
  lemma HandsOver(s: State, pc: Pc, act: Act, pc': Pc, t: nat)
    requires May(s, pc, act, pc')
    ensures act == Pop ==> s.queue != [] && pc' == Dequeued(s.queue[0])
    ensures pc == Dequeued(t) ==> pc' == Running(t)
    ensures pc == Running(t) ==> act == Finish(t)
  {
  }

  lemma StepTracksTask(s: State, s': State, i: nat, act: Act, pc': Pc, t: nat)
    requires Stepped(s, s', i, act, pc') && t in s'.accepted
    requires t in s.accepted ==> t in s.queue || t in s.finished || HeldBy(s, t)
    ensures t in s'.queue || t in s'.finished || HeldBy(s', t)
  {
    hide May, Stepped;
    Opened(s, s', i, act, pc');
    HandsOver(s, s.procs[i], act, pc', t);
    assert s'.procs[i] == pc';
    if act == Push && t == i {
      assert s'.queue[|s.queue|] == i;
    } else if t in s.queue {
      if act == Pop { assert s.queue == [s.queue[0]] + s.queue[1..]; }
    } else if t !in s.finished {
      var k :| 0 <= k < |s.procs| && (s.procs[k] == Dequeued(t) || s.procs[k] == Running(t));
      assert k != i ==> s'.procs[k] == s.procs[k];
    }
  }

  // ------------------------------------------------------------- the wakeup

  /** About to signal, or to re-check the mark and pass the token on. */
  predicate Responsible(pc: Pc) {
    || pc.Dequeued? || pc.Enter? || pc.Check? || pc.Mark? || pc.Pass?
    || pc in {Load(true), Count(true), Recheck(true), Enqueue(true)}
  }

  /** Waiting for a token, or on its way back to wait for one. */
  predicate Waiting(pc: Pc) {
    pc.Parked? || pc == Undo(true)
  }

  ghost predicate Awaken(s: State) {
    s.token || exists i :: 0 <= i < |s.procs| && Responsible(s.procs[i])
  }

  /** No waiter sleeps through a free slot. */
  ghost predicate Woken(s: State) {
    (exists i :: 0 <= i < |s.procs| && Waiting(s.procs[i])) && !Pressured(s) && !s.closed ==> Awaken(s)
  }

  /** A goroutine stops being responsible only by signalling, with the pool
      closed or with the queue at the mark, and starts to wait only so. */
  lemma WakerMoves(s: State, pc: Pc, act: Act, pc': Pc)
    requires May(s, pc, act, pc') && 1 <= s.highWater <= s.capacity
    ensures Responsible(pc) && !Responsible(pc') ==>
      act == Signal || s.closed || (Pressured(s) && act == Nothing) || act == Close
    ensures Waiting(pc') ==> Waiting(pc) || (s.closed && act == Nothing) || (Pressured(s) && act == Nothing)
    ensures act == Take || act == Pop ==> Responsible(pc')
    ensures act == Push ==> Responsible(pc') || !Responsible(pc)
  {
  }

  lemma StepWoken(s: State, s': State, i: nat, act: Act, pc': Pc)
    requires Woken(s) && Stepped(s, s', i, act, pc') && 1 <= s.highWater <= s.capacity
    ensures Woken(s')
  {
    hide May, Responsible, Waiting, Stepped;
    Opened(s, s', i, act, pc');
    WakerMoves(s, s.procs[i], act, pc');
    if !Pressured(s') && !s'.closed && exists j :: 0 <= j < |s'.procs| && Waiting(s'.procs[j]) {
      assert s'.procs[i] == pc';
      if !Responsible(pc') && !s'.token {
        var j :| 0 <= j < |s'.procs| && Waiting(s'.procs[j]);
        assert j != i ==> s'.procs[j] == s.procs[j];
        assert Waiting(s.procs[j]) && Awaken(s);
        var k :| 0 <= k < |s.procs| && Responsible(s.procs[k]);
        assert k != i;
        assert s'.procs[k] == s.procs[k];
      }
    }
  }

  // ------------------------------------------------- answers and the shutdown

  /** A submission whose task the queue took. */
  predicate Took(pc: Pc) {
    pc.Mark? || pc.Pass? || pc == Left(true)
  }

  /** The accepted tasks are those of the submissions that return true. */
  ghost predicate Told(s: State) {
    forall i {:trigger i in s.accepted} {:trigger s.procs[i]} ::
      i in s.accepted <==> 0 <= i < |s.procs| && Took(s.procs[i])
  }

  /** The pool's context is cancelled by a shutdown that has stopped waiting,
      and a worker leaves only then. */
  ghost predicate Served(s: State) {
    && (s.cancelled <==> exists i :: 0 <= i < |s.procs| && s.procs[i] == Ended)
    && forall i :: 0 <= i < |s.procs| && s.procs[i] == Exited ==> s.cancelled
  }

  /** A closed pool has told its waiters, or is about to. */
  ghost predicate Announced(s: State) {
    && (s.closed ==> s.done || exists i :: 0 <= i < |s.procs| && s.procs[i] == Signalling)
    && (s.done ==> s.closed) && forall i :: 0 <= i < |s.procs| && s.procs[i] == Signalling ==> s.closed
  }

  lemma AnswerMoves(s: State, pc: Pc, act: Act, pc': Pc)
    requires May(s, pc, act, pc')
    ensures act == Push ==> Took(pc')
    ensures act != Push ==> (Took(pc) <==> Took(pc'))
    ensures (pc' == Ended <==> act == Cancel) && pc != Ended && (pc' == Exited ==> s.cancelled)
    ensures pc' == Signalling ==> act == Close
    ensures act == SetDone <==> pc == Signalling
    ensures act == Close ==> s.closed || pc' == Signalling
  {
  }

  lemma StepAnswers(s: State, s': State, i: nat, act: Act, pc': Pc)
    requires Told(s) && Served(s) && Announced(s) && Stepped(s, s', i, act, pc')
    ensures Told(s') && Served(s') && Announced(s')
  {
    hide May, Stepped, Took;
    Opened(s, s', i, act, pc');
    AnswerMoves(s, s.procs[i], act, pc');
    assert s'.procs[i] == pc' && forall j :: 0 <= j < |s.procs| && j != i ==> s'.procs[j] == s.procs[j];
    if j :| 0 <= j < |s.procs| && s.procs[j] == Ended { assert s'.procs[j] == Ended; }
    if j :| 0 <= j < |s.procs| && s.procs[j] == Signalling { assert j != i ==> s'.procs[j] == Signalling; }
    if s.closed && !s.done && act != SetDone {
      var j :| 0 <= j < |s.procs| && s.procs[j] == Signalling;
      assert s'.procs[j] == Signalling;
    }
  }

  lemma CallAnswers(s: State, s': State)
    requires Told(s) && Served(s) && Announced(s) && Call(s, s')
    ensures Told(s') && Served(s') && Announced(s')
  {
    var pc :| pc in {Load(false), Enter, Closing} && s' == s.(procs := s.procs + [pc]);
    assert forall j :: 0 <= j < |s.procs| ==> s'.procs[j] == s.procs[j];
    assert s'.procs[|s.procs|] == pc;
    if j :| 0 <= j < |s.procs| && s.procs[j] == Ended { assert s'.procs[j] == Ended; }
    if j :| 0 <= j < |s.procs| && s.procs[j] == Signalling { assert s'.procs[j] == Signalling; }
  }

  lemma {:induction false} RunAnswers(run: seq<State>, k: nat)
    requires Run(run) && k < |run|
    ensures Told(run[k]) && Served(run[k]) && Announced(run[k])
  {
    if k > 0 {
      RunAnswers(run, k - 1);
      var s, s' := run[k - 1], run[k];
      hide Told, Served, Announced, Stepped;
      assert Next(s, s');
      if Call(s, s') {
        CallAnswers(s, s');
      } else {
        var i: nat, act: Act, pc': Pc :| Stepped(s, s', i, act, pc');
        StepAnswers(s, s', i, act, pc');
      }
    }
  }

  /** In every reachable state a submission that has returned was accepted
      exactly if it returned true. */
  lemma SubmitTells(run: seq<State>, k: nat, i: nat)
    requires Run(run) && k < |run| && i < |run[k].procs| && run[k].procs[i].Left?
    ensures run[k].procs[i].accepted <==> i in run[k].accepted
  {
    RunAnswers(run, k);
  }

  /** In every reachable state a worker has left only if some shutdown has
      stopped waiting, and a closed pool's waiters have been told or a shutdown
      is about to tell them. */
  lemma WorkersStay(run: seq<State>, k: nat)
    requires Run(run) && k < |run|
    ensures
      (exists i :: 0 <= i < |run[k].procs| && run[k].procs[i] == Exited) ==>
        exists i :: 0 <= i < |run[k].procs| && run[k].procs[i] == Ended
    ensures (exists i :: 0 <= i < |run[k].procs| && run[k].procs[i] == Ended) ==> run[k].cancelled
    ensures
      run[k].closed ==> run[k].done || exists i :: 0 <= i < |run[k].procs| && run[k].procs[i] == Signalling
  {
    RunAnswers(run, k);
  }

  /** A token wakes one waiter. */
  lemma TokenTaken(s: State, s': State, i: nat, pc': Pc)
    requires Stepped(s, s', i, Take, pc')
    ensures s.token && forall pc :: !May(s', Parked, Take, pc)
  {
  }

  // ------------------------------------------------------------ over all runs

  ghost predicate Inv(s: State) {
    1 <= s.highWater <= s.capacity && Counted(s) && Tracked(s) && Woken(s)
  }

  lemma InitInv(s: State)
    requires Init(s)
    ensures Inv(s)
  {
    HoldersZero(s.procs);
  }

  lemma CallInv(s: State, s': State)
    requires Inv(s) && Call(s, s')
    ensures Inv(s')
  {
    var pc :| pc in {Load(false), Enter, Closing} && s' == s.(procs := s.procs + [pc]);
    HoldersAppend(s.procs, pc);
    forall t | t in s'.accepted ensures t in s'.queue || t in s'.finished || HeldBy(s', t) {
      if t !in s.queue && t !in s.finished {
        var k :| 0 <= k < |s.procs| && (s.procs[k] == Dequeued(t) || s.procs[k] == Running(t));
        assert s'.procs[k] == s.procs[k];
      }
    }
    CallWoken(s, s', pc);
  }

  lemma CallWoken(s: State, s': State, pc: Pc)
    requires Woken(s) && s' == s.(procs := s.procs + [pc]) && !Waiting(pc)
    ensures Woken(s')
  {
    if !Pressured(s') && !s'.closed && exists j :: 0 <= j < |s'.procs| && Waiting(s'.procs[j]) {
      var j :| 0 <= j < |s'.procs| && Waiting(s'.procs[j]);
      assert j < |s.procs| && Waiting(s.procs[j]);
      assert Awaken(s);
      if !s.token {
        var k :| 0 <= k < |s.procs| && Responsible(s.procs[k]);
        assert s'.procs[k] == s.procs[k];
      }
    }
  }

  lemma NextInv(s: State, s': State)
    requires Inv(s) && Next(s, s')
    ensures Inv(s')
  {
    hide Counted, Tracked, Woken, May, Stepped;
    if Call(s, s') {
      CallInv(s, s');
    } else {
      var i: nat, act: Act, pc': Pc :| Stepped(s, s', i, act, pc');
      Opened(s, s', i, act, pc');
      StepCounted(s, s', i, act, pc');
      StepTracked(s, s', i, act, pc');
      StepWoken(s, s', i, act, pc');
    }
  }

  lemma {:induction false} RunInv(run: seq<State>, k: nat)
    requires Run(run) && k < |run|
    ensures Inv(run[k])
  {
    if k == 0 {
      InitInv(run[0]);
    } else {
      RunInv(run, k - 1);
      NextInv(run[k - 1], run[k]);
    }
  }

  /** In every reachable state of any number of goroutines, a waiter below the
      high-water mark of an open pool has a token, or someone about to signal
      or to re-check and pass the token on. */
  lemma NoLostWakeup(run: seq<State>, k: nat, i: nat)
    requires Run(run) && k < |run| && i < |run[k].procs|
    requires run[k].procs[i] == Parked && |run[k].queue| < run[k].highWater && !run[k].closed
    ensures run[k].token || exists j :: 0 <= j < |run[k].procs| && Responsible(run[k].procs[j])
  {
    RunInv(run, k);
    assert Waiting(run[k].procs[i]);
    assert Awaken(run[k]);
  }

  /** Nothing can be accepted any more: closed, and no submitter is past its
      recheck. */
  ghost predicate Sealed(s: State) {
    && s.closed
    && s.queue == []
    && forall i :: 0 <= i < |s.procs| ==> !s.procs[i].Enqueue? && !s.procs[i].Dequeued? && !s.procs[i].Running?
  }

  lemma SealedMoves(s: State, pc: Pc, act: Act, pc': Pc)
    requires May(s, pc, act, pc') && s.closed && s.queue == [] && !pc.Enqueue? && !pc.Dequeued? && !pc.Running?
    ensures act != Push && act != Pop && !pc'.Enqueue? && !pc'.Dequeued? && !pc'.Running?
  {
  }

  lemma SealedStays(s: State, s': State)
    requires Sealed(s) && Next(s, s')
    ensures Sealed(s') && s'.accepted == s.accepted
  {
    hide May, Stepped;
    if !Call(s, s') {
      var i: nat, act: Act, pc': Pc :| Stepped(s, s', i, act, pc');
      Opened(s, s', i, act, pc');
      SealedMoves(s, s.procs[i], act, pc');
      forall j | 0 <= j < |s'.procs| ensures !s'.procs[j].Enqueue? && !s'.procs[j].Dequeued? && !s'.procs[j].Running? {
        assert s'.procs[j] == if j == i then pc' else s.procs[j];
      }
    }
  }

  lemma {:induction false} SealedOn(run: seq<State>, k: nat, m: nat)
    requires Run(run) && k <= m < |run| && Sealed(run[k])
    ensures Sealed(run[m]) && run[m].accepted == run[k].accepted
    decreases m - k
  {
    if k < m {
      SealedStays(run[k], run[k + 1]);
      SealedOn(run, k + 1, m);
    }
  }

  /** Once a shutdown has set closed and then reads pending = 0, every accepted
      task has run, and no submit is accepted in any later state. */
  lemma Drain(run: seq<State>, k: nat, m: nat)
    requires Run(run) && k <= m < |run|
    requires run[k].closed && run[k].pending == 0
    ensures run[k].accepted <= run[k].finished && run[k].queue == []
    ensures run[m].accepted == run[k].accepted && run[m].queue == []
  {
    var s := run[k];
    RunInv(run, k);
    HoldersZero(s.procs);
    forall t | t in s.accepted ensures t in s.finished {
      assert t in s.queue || t in s.finished || HeldBy(s, t);
      if HeldBy(s, t) {
        var i :| 0 <= i < |s.procs| && (s.procs[i] == Dequeued(t) || s.procs[i] == Running(t));
        assert false;
      }
    }
    assert Sealed(s);
    SealedOn(run, k, m);
  }

  /** A shutdown about to return as drained, not expired, has drained: when it
      read pending = 0 every accepted task had run, and none is accepted after. */
  lemma ShutdownDrains(run: seq<State>, k: nat, m: nat, i: nat)
    requires Run(run) && k + 1 <= m < |run| && i < |run[k].procs| && i < |run[k + 1].procs|
    requires run[k].procs[i] == Draining && run[k + 1].procs[i] == Drained
    ensures run[m].accepted == run[k].accepted && run[k].accepted <= run[k].finished && run[m].queue == []
  {
    hide May, Stepped;
    DrainingClosed(run, k, i);
    var s, s' := run[k], run[k + 1];
    assert Next(s, s');
    if Call(s, s') {
      CallKeeps(s, s', i);
      assert false;
    }
    var j: nat, act: Act, pc': Pc :| Stepped(s, s', j, act, pc');
    Opened(s, s', j, act, pc');
    DrainedReads(s, act);
    Drain(run, k, m);
  }

  lemma CallKeeps(s: State, s': State, i: nat)
    requires Call(s, s') && i < |s.procs|
    ensures i < |s'.procs| && s'.procs[i] == s.procs[i]
  {
  }

  lemma DrainedReads(s: State, act: Act)
    requires May(s, Draining, act, Drained)
    ensures s.pending == 0
  {
  }

  predicate Closed(pc: Pc) {
    pc in {Signalling, Draining, Drained, Expired, Ended}
  }

  lemma ClosedMoves(s: State, pc: Pc, act: Act, pc': Pc)
    requires May(s, pc, act, pc') && Closed(pc') && !Closed(pc)
    ensures act == Close
  {
  }

  lemma {:induction false} DrainingClosed(run: seq<State>, k: nat, i: nat)
    requires Run(run) && k < |run| && i < |run[k].procs| && Closed(run[k].procs[i])
    ensures run[k].closed
  {
    hide May, Stepped;
    if k > 0 {
      var s, s' := run[k - 1], run[k];
      assert Next(s, s');
      if Call(s, s') {
        assert i < |s.procs| && s.procs[i] == s'.procs[i];
        DrainingClosed(run, k - 1, i);
      } else {
        var j: nat, act: Act, pc': Pc :| Stepped(s, s', j, act, pc');
        Opened(s, s', j, act, pc');
        assert s'.procs[i] == if i == j then pc' else s.procs[i];
        if Closed(s.procs[i]) {
          DrainingClosed(run, k - 1, i);
        } else {
          ClosedMoves(s, s.procs[j], act, pc');
        }
      }
    }
  }

  /** A submit never blocks an accepted task out of the drain: at every state
      pending counts the queued tasks, the running ones and the submitters
      between their increment and their enqueue or undo. */
  lemma PendingCounts(run: seq<State>, k: nat)
    requires Run(run) && k < |run|
    ensures run[k].pending == |run[k].queue| + Holders(run[k].procs)
  {
    RunInv(run, k);
  }
}
