/**
 * Handing work to a worker thread: the mutex, the condition variable and the three shared
 * fields as interleaved steps.  A step is what a thread does while it holds the mutex, or the
 * notification sent after releasing it.
 */
module HandOff {
  import opened Options

  type Job = nat

  /** The thread in idle_loop. */
  datatype Worker = Top | Asleep | Woken | Running(job: Job) | Exited

  /** What a caller is after: posting a job, or waiting until none is left. */
  datatype Want = Post(job: Job) | Finish

  /** A calling thread: ready to take the mutex, asleep on the condition variable, about to notify, or joining. */
  datatype Client = Idle | Ready(want: Want) | Sleeping(want: Want) | Notifying | Joining

  /** The shared fields, the threads, and what has been posted and run so far. */
  datatype State = State(
    searching: bool,
    exit: bool,
    jobFunc: Option<Job>,
    worker: Worker,
    clients: seq<Client>,
    posted: seq<Job>,
    executed: seq<Job>)

  /** Whom a notification wakes: the scheduler chooses among the sleepers. */
  datatype Wake = Nobody | TheWorker | TheClient(i: nat)

  datatype Step =
    | WorkerTop(wake: Wake)
    | WorkerCheck
    | WorkerFinish
    | ClientCheck(i: nat)
    | ClientNotify(i: nat, wake: Wake)
    | ClientJoin(i: nat)
    | Call(i: nat, want: Want)
    | Shutdown(i: nat, job: Job)
    | Spurious(wake: Wake)

  predicate Asleep?(s: State, w: Wake) {
    match w
    case Nobody => false
    case TheWorker => s.worker == Asleep
    case TheClient(i) => i < |s.clients| && s.clients[i].Sleeping?
  }

  predicate NobodyAsleep(s: State) { s.worker != Asleep && forall i | 0 <= i < |s.clients| :: !s.clients[i].Sleeping? }

  /** `notify_one`: one sleeper wakes, if there is one. */
  predicate MayWake(s: State, w: Wake) { if w == Nobody then NobodyAsleep(s) else Asleep?(s, w) }

  function Woke(s: State, w: Wake): State {
    match w
    case Nobody => s
    case TheWorker => s.(worker := Woken)
    case TheClient(i) => if i < |s.clients|
        && s.clients[i].Sleeping? then s.(clients := s.clients[i := Ready(s.clients[i].want)]) else s
  }

  function SetClient(s: State, i: nat, c: Client): State
    requires i < |s.clients|
  {
    s.(clients := s.clients[i := c])
  }

  /** May the step be taken? */
  predicate Enabled(s: State, step: Step) {
    match step
    case WorkerTop(w) => s.worker == Top && MayWake(s, w)
    case WorkerCheck => s.worker == Woken
    case WorkerFinish => s.worker.Running?
    case ClientCheck(i) => i < |s.clients| && s.clients[i].Ready?
    case ClientNotify(i, w) => i < |s.clients| && s.clients[i] == Notifying && MayWake(s, w)
    case ClientJoin(i) => i < |s.clients| && s.clients[i] == Joining && s.worker == Exited
    case Call(i, _) => i < |s.clients| && s.clients[i] == Idle && !s.exit
    case Shutdown(i, _) => i < |s.clients| && !s.searching && !s.exit && forall k | 0 <= k < |s.clients| ::
        s.clients[k] == Idle
    case Spurious(w) => w != Nobody && Asleep?(s, w)
  }

  /** What the step does. */
  function Apply(s: State, step: Step): State
    requires Enabled(s, step)
  {
    match step
    // searching = false, notify_one, and the wait finds searching false
    case WorkerTop(w) => Woke(s.(searching := false), w).(worker := Asleep)
    // the wait's predicate; then the exit test, then taking the job
    case WorkerCheck =>
      if !s.searching then s.(worker := Asleep)
      else if s.exit then s.(worker := Exited)
      else if s.jobFunc.Some? then s.(worker := Running(s.jobFunc.value), jobFunc := None)
      else s.(worker := Top)
    case WorkerFinish => s.(worker := Top, executed := s.executed + [s.worker.job])
    // the wait's predicate; then posting, or returning
    case ClientCheck(i) =>
      if s.searching then SetClient(s, i, Sleeping(s.clients[i].want))
      else if s.clients[i].want.Post? then
        SetClient(s, i, Notifying).(jobFunc := Some(s.clients[i].want.job), searching := true,
                                    posted := if s.exit then s.posted else s.posted + [s.clients[i].want.job])
      else SetClient(s, i, Idle)
    case ClientNotify(i, w) => SetClient(Woke(s, w), i, if s.exit then Joining else Idle)
    case ClientJoin(i) => SetClient(s, i, Idle)
    case Call(i, want) => SetClient(s, i, Ready(want))
    // the destructor: exit is set, then the last job is posted
    case Shutdown(i, job) => SetClient(s, i, Ready(Post(job))).(exit := true)
    case Spurious(w) => Woke(s, w)
  }

  /** The thread has been launched, searching set beforehand. */
  predicate Initial(s: State) {
    && s.searching && !s.exit && s.jobFunc == None && s.worker == Top && s.posted == [] && s.executed == []
    && forall i | 0 <= i < |s.clients| :: s.clients[i] == Idle
  }

  /** A run: every step was enabled and led from one state to the next. */
  ghost predicate Run(states: seq<State>, steps: seq<Step>) {
    && |states| == |steps| + 1 && Initial(states[0])
    && forall k | 0 <= k < |steps| :: Enabled(states[k], steps[k]) && states[k + 1] == Apply(states[k], steps[k])
  }

  // ----- Safety, for any number of callers -----

  function InHand(s: State): seq<Job> {
    (if s.worker.Running? then [s.worker.job] else []) + (if s.jobFunc.Some? && !s.exit then [s.jobFunc.value] else [])
  }

  ghost predicate Inv(s: State) {
    && (s.worker == Top || s.worker.Running? ==> s.searching && s.jobFunc == None && !s.exit)
    && (!s.searching ==> s.jobFunc == None && (s.worker == Asleep || s.worker == Woken))
    && (s.searching && (s.worker == Asleep || s.worker == Woken) ==> s.jobFunc.Some?)
    && (s.worker == Exited ==> s.exit)
    && s.posted == s.executed + InHand(s)
  }

  lemma InitialInv(s: State)
    requires Initial(s)
    ensures Inv(s)
  {}

  lemma StepInv(s: State, step: Step)
    requires Inv(s) && Enabled(s, step)
    ensures Inv(Apply(s, step))
  {
    var t := Apply(s, step);
    match step {
      case WorkerCheck => assert s.posted == t.executed + InHand(t);
      case WorkerFinish => assert s.executed + InHand(s) == t.executed + InHand(t);
      case ClientCheck(i) => assert t.posted == t.executed + InHand(t);
      case Shutdown(i, job) => assert InHand(s) == [] && InHand(t) == [];
      case _ =>
    }
  }

  lemma {:induction false} RunInv(states: seq<State>, steps: seq<Step>, k: nat)
    requires Run(states, steps) && k < |states|
    ensures Inv(states[k])
  {
    if k == 0 {
      InitialInv(states[0]);
    } else {
      RunInv(states, steps, k - 1);
      StepInv(states[k - 1], steps[k - 1]);
    }
  }

  /**
   * Every function posted before shutdown runs once, in order: at any moment what has run,
   * what is running and what waits to run are together what was posted.
   */
  lemma ExactlyOnce(states: seq<State>, steps: seq<Step>, k: nat)
    requires Run(states, steps) && k < |states|
    ensures states[k].posted == states[k].executed + InHand(states[k]) && |InHand(states[k])| <= 1
  {
    RunInv(states, steps, k);
  }

  /**
   * Jobs never overlap: a running job goes on until it ends and is counted, the next one is the job
   * that was posted, and no pending job is overwritten.
   */
  lemma NeverOverlap(states: seq<State>, steps: seq<Step>, k: nat)
    requires Run(states, steps) && k < |steps|
    ensures states[k].worker.Running? ==>
              || states[k + 1].worker == states[k].worker
              || (states[k + 1].worker == Top && states[k + 1].executed == states[k].executed + [states[k].worker.job])
    ensures states[k + 1].worker.Running? && !states[k].worker.Running? ==>
              states[k].jobFunc == Some(states[k + 1].worker.job) && states[k + 1].jobFunc == None
    ensures states[k].jobFunc.Some? ==>
              states[k + 1].jobFunc == states[k].jobFunc || states[k + 1].worker == Running(states[k].jobFunc.value)
  {
    RunInv(states, steps, k);
  }

  /** `wait_for_search_finished` returns only when no job is pending or running. */
  lemma WaitMeansDone(states: seq<State>, steps: seq<Step>, k: nat, i: nat)
    requires Run(states, steps) && k < |steps| && i < |states[k].clients| == |states[k + 1].clients|
    requires states[k].clients[i] == Ready(Finish) && states[k + 1].clients[i] == Idle
    ensures states[k].executed == states[k].posted && !states[k].worker.Running? && states[k].jobFunc == None
  {
    RunInv(states, steps, k);
    assert states[k].executed + [] == states[k].executed;
  }

  // ----- No lost wakeup, with one caller -----

  /**
   * The worker sleeps on a posted job only until the poster's notification; the caller sleeps only
   * while the worker is up.
   */
  ghost predicate OneInv(s: State) {
    && Inv(s) && |s.clients| == 1
    && (s.searching && s.worker == Asleep ==> s.clients[0] == Notifying)
    && (s.clients[0].Sleeping? ==> s.searching && s.worker != Asleep && s.worker != Exited)
    && (s.clients[0] == Joining ==> s.exit && s.searching && s.worker != Asleep)
    && (s.exit ==> s.clients[0] != Ready(Finish) && s.clients[0] != Sleeping(Finish))
    && (s.exit && s.clients[0].Ready? ==> !s.searching)
    && (s.exit && !s.clients[0].Ready? ==> s.searching)
    && (s.exit && s.worker == Exited ==> s.clients[0] == Notifying || s.clients[0] == Joining || s.clients[0] == Idle)
    && (s.exit && s.clients[0] == Idle ==> s.worker == Exited)
    && (s.exit ==> !s.clients[0].Sleeping?)
  }

  lemma OneInitial(s: State)
    requires Initial(s) && |s.clients| == 1
    ensures OneInv(s)
  {}

  lemma OneStep(s: State, step: Step)
    requires OneInv(s) && Enabled(s, step)
    ensures OneInv(Apply(s, step))
  {
    StepInv(s, step);
  }

  /** Steps the protocol itself takes, no new call and no wakeup out of nowhere. */
  predicate Internal(step: Step) { !step.Call? && !step.Shutdown? && !step.Spurious? }

  function WorkerRank(s: State): nat {
    match s.worker
    case Running(_) => 3
    case Top => 2
    case Exited => 0
    case w => (if s.jobFunc.Some? && s.searching then 5 else 0) + (if w == Woken then 1 else 0)
  }

  function ClientRank(c: Client): nat {
    match c
    case Idle => 0
    case Ready(w) => if w.Post? then 10 else 2
    case Sleeping(w) => if w.Post? then 9 else 1
    case Notifying => 3
    case Joining => 1
  }

  /** How much is left to do. */
  function Rank(s: State): nat
    requires |s.clients| == 1
  {
    WorkerRank(s) + ClientRank(s.clients[0])
  }

  /** Every internal step brings the call nearer its end. */
  lemma RankDrops(s: State, step: Step)
    requires OneInv(s) && Enabled(s, step) && Internal(step)
    ensures |Apply(s, step).clients| == 1 && Rank(Apply(s, step)) < Rank(s)
  {}

  /** While something is left to do, some thread can do it: nobody waits for a wakeup that was lost. */
  lemma NeverStuck(s: State) returns (step: Step)
    requires OneInv(s) && Rank(s) > 0
    ensures Enabled(s, step) && Internal(step)
  {
    var i: nat := 0;
    match s.worker {
      case Top => step := WorkerTop(if s.clients[0].Sleeping? then TheClient(i) else Nobody);
      case Woken => step := WorkerCheck;
      case Running(_) => step := WorkerFinish;
      case _ =>
        match s.clients[0] {
          case Ready(_) => step := ClientCheck(i);
          case Notifying => step := ClientNotify(i, if s.worker == Asleep then TheWorker else Nobody);
          case _ => step := ClientJoin(i);
        }
    }
  }

  /** When nothing is left to do, every call has returned and every posted job has run. */
  lemma RankZero(s: State)
    requires OneInv(s) && Rank(s) == 0
    ensures s.jobFunc == None || s.exit
    ensures s.executed == s.posted && s.clients[0] == Idle
  {
    assert s.executed + [] == s.executed;
  }

  /** So from every state, the protocol left to itself finishes all calls and all jobs. */
  lemma {:induction false} Finishes(s: State) returns (steps: seq<Step>, states: seq<State>)
    requires OneInv(s)
    ensures |states| == |steps| + 1 && states[0] == s && |steps| <= Rank(s)
    ensures forall k | 0 <= k < |steps| ::
        Enabled(states[k], steps[k]) && Internal(steps[k]) && states[k + 1] == Apply(states[k], steps[k])
    ensures states[|steps|].clients == [Idle] && states[|steps|].executed == states[|steps|].posted
    decreases Rank(s)
  {
    if Rank(s) == 0 {
      RankZero(s);
      assert s.clients == [Idle];
      steps, states := [], [s];
    } else {
      var step := NeverStuck(s);
      RankDrops(s, step);
      OneStep(s, step);
      var rest, after := Finishes(Apply(s, step));
      steps, states := [step] + rest, [s] + after;
    }
  }

  lemma ExtendRun(states: seq<State>, steps: seq<Step>, step: Step)
    requires Run(states, steps) && Enabled(states[|steps|], step)
    ensures Run(states + [Apply(states[|steps|], step)], steps + [step])
  {}

  /** One more step of a run ending in a known state. */
  lemma Then(states: seq<State>, steps: seq<Step>, s: State, step: Step)
      returns (states': seq<State>, steps': seq<Step>)
    requires Run(states, steps) && |states| == |steps| + 1 && states[|steps|] == s && Enabled(s, step)
    ensures Run(states', steps') && |states'| == |steps'| + 1 && states'[|steps'|] == Apply(s, step)
  {
    ExtendRun(states, steps, step);
    states', steps' := states + [Apply(s, step)], steps + [step];
  }

  // ----- When wakeups are lost -----

  /** Something is left to do, and no thread can do it. */
  ghost predicate Stalled(s: State) {
    && (s.posted != s.executed || exists i: nat | i < |s.clients| :: s.clients[i] != Idle)
    && forall step :: Enabled(s, step) ==> !Internal(step)
  }

  /** Some run with n callers stalls. */
  ghost predicate CanStall(n: nat) { exists states, steps :: StallingRun(states, steps, n) }

  ghost predicate StallingRun(states: seq<State>, steps: seq<Step>, n: nat) {
    Run(states, steps) && |states[|steps|].clients| == n && Stalled(states[|steps|])
  }

  /** The state at which two callers are stuck: a job is posted, and everybody sleeps or has nothing to do. */
  function Stuck(): State { State(true, false, Some(2), Asleep, [Idle, Sleeping(Finish)], [1, 2], [1]) }

  /**
   * With two callers a wakeup can be lost: the poster's notification reaches the other
   * caller instead of the worker, and the job then waits with everybody asleep.
   */
  lemma TwoCallersStall() returns (states: seq<State>, steps: seq<Step>)
    ensures Run(states, steps) && states[|steps|] == Stuck()
  {
    var s := State(true, false, None, Top, [Idle, Idle], [], []);
    states, steps := [s], [];
    assert Run(states, steps);
    states, steps, s := FirstHalf(states, steps, s);
    hide Run;
    // the first caller wants to post job 2, the second to wait; both fall asleep; then job 1 ends
    states, steps := Then(states, steps, s, WorkerFinish);
    s := State(true, false, None, Top, [Sleeping(Post(2)), Sleeping(Finish)], [1], [1]);
    states, steps := Then(states, steps, s, WorkerTop(TheClient(0)));
    s := State(false, false, None, Asleep, [Ready(Post(2)), Sleeping(Finish)], [1], [1]);
    states, steps := Then(states, steps, s, ClientCheck(0));
    s := State(true, false, Some(2), Asleep, [Notifying, Sleeping(Finish)], [1, 2], [1]);
    states, steps := Then(states, steps, s, ClientNotify(0, TheClient(1)));
    s := State(true, false, Some(2), Asleep, [Idle, Ready(Finish)], [1, 2], [1]);
    states, steps := Then(states, steps, s, ClientCheck(1));
  }

  /** The same state with n more callers that have nothing to do. */
  function Padded(s: State, n: nat): State { s.(clients := s.clients + seq(n, _ => Idle)) }

  /** Callers with nothing to do are in nobody's way. */
  lemma PadStep(s: State, step: Step, n: nat)
    requires Enabled(s, step)
    ensures Enabled(Padded(s, n), step) && Apply(Padded(s, n), step) == Padded(Apply(s, step), n)
  {
    PadEnabled(s, step, n);
    hide NobodyAsleep, Asleep?, MayWake, Woke, SetClient;
    forall w { PadWoke(s, w, n); }
    match step {
      case WorkerTop(w) => PadWoke(s.(searching := false), w, n);
      case ClientCheck(i) => forall c { PadSet(s, n, i, c); }
      case ClientNotify(i, w) => PadSet(Woke(s, w), n, i, if s.exit then Joining else Idle);
      case ClientJoin(i) => PadSet(s, n, i, Idle);
      case Call(i, want) => PadSet(s, n, i, Ready(want));
      case Shutdown(i, job) => PadSet(s, n, i, Ready(Post(job)));
      case _ =>
    }
  }

  lemma PadWoke(s: State, w: Wake, n: nat)
    ensures Asleep?(s, w) || w == Nobody ==> Woke(Padded(s, n), w) == Padded(Woke(s, w), n)
    ensures |Woke(s, w).clients| == |s.clients|
  {
    if w.TheClient? && w.i < |s.clients| {
      assert Padded(s, n).clients[w.i] == s.clients[w.i];
      assert Woke(Padded(s, n), w).clients == Padded(Woke(s, w), n).clients;
    }
  }

  lemma PadSet(s: State, n: nat, i: nat, c: Client)
    requires i < |s.clients|
    ensures SetClient(Padded(s, n), i, c) == Padded(SetClient(s, i, c), n)
    ensures Padded(s, n).clients[i] == s.clients[i] && |SetClient(s, i, c).clients| == |s.clients|
  {
    assert SetClient(Padded(s, n), i, c).clients == Padded(SetClient(s, i, c), n).clients;
  }

  lemma PadEnabled(s: State, step: Step, n: nat)
    requires Enabled(s, step)
    ensures Enabled(Padded(s, n), step)
  {
    assert forall i | 0 <= i < |s.clients| :: Padded(s, n).clients[i] == s.clients[i];
  }

  lemma {:induction false} PadRun(states: seq<State>, steps: seq<Step>, n: nat)
    requires Run(states, steps)
    ensures Run(seq(|states|, k requires 0 <= k < |states| => Padded(states[k], n)), steps)
  {
    forall k | 0 <= k < |steps|
      ensures Enabled(Padded(states[k], n), steps[k])
          && Padded(states[k + 1], n) == Apply(Padded(states[k], n), steps[k])
    {
      PadStep(states[k], steps[k], n);
    }
  }

  /** However many callers there are beyond one, a wakeup can be lost. */
  lemma ManyCallersCanStall(n: nat) returns (states: seq<State>, steps: seq<Step>)
    requires n >= 2
    ensures Run(states, steps)
    ensures var s := states[|steps|];
            |s.clients| == n && s.posted != s.executed && forall step :: Enabled(s, step) ==> !Internal(step)
  {
    var short;
    short, steps := TwoCallersStall();
    states := seq(|short|, k requires 0 <= k < |short| => Padded(short[k], n - 2));
    PadRun(short, steps, n - 2);
    hide Run;
    assert states[|steps|] == Padded(Stuck(), n - 2);
  }

  // ----- One caller at a time -----

  /** At most one caller is in the middle of a call. */
  ghost predicate OneBusy(s: State) {
    exists i: nat | i < |s.clients| :: Alone(s, i)
  }

  /** No caller but the i-th is in the middle of a call. */
  predicate Alone(s: State, i: nat)
    requires i < |s.clients|
  {
    forall j | 0 <= j < |s.clients| && j != i :: s.clients[j] == Idle
  }

  /** The state as the i-th caller and the worker see it. */
  function Only(s: State, i: nat): State
    requires i < |s.clients|
  {
    s.(clients := [s.clients[i]])
  }

  /** The others being idle, the worker and caller i keep what one caller keeps. */
  ghost predicate BusyInv(s: State) {
    exists i: nat | i < |s.clients| :: Alone(s, i) && OneInv(Only(s, i))
  }

  function OnlyWake(w: Wake): Wake { if w.TheClient? then TheClient(0) else w }

  /** A step of the whole as a step of the worker with one caller. */
  function OnlyStep(step: Step): Step {
    match step
    case WorkerTop(w) => WorkerTop(OnlyWake(w))
    case ClientCheck(_) => ClientCheck(0)
    case ClientNotify(_, w) => ClientNotify(0, OnlyWake(w))
    case ClientJoin(_) => ClientJoin(0)
    case Call(_, want) => Call(0, want)
    case Shutdown(_, job) => Shutdown(0, job)
    case Spurious(w) => Spurious(OnlyWake(w))
    case _ => step
  }

  /** The caller a step belongs to, or i. */
  function Actor(step: Step, i: nat): nat {
    match step
    case ClientCheck(j) => j
    case ClientNotify(j, _) => j
    case ClientJoin(j) => j
    case Call(j, _) => j
    case Shutdown(j, _) => j
    case _ => i
  }

  lemma OnlyApplies(s: State, step: Step, i: nat)
    requires i < |s.clients| && Alone(s, i) && Enabled(s, step) && Actor(step, i) == i
    ensures Enabled(Only(s, i), OnlyStep(step)) && |Apply(s, step).clients| == |s.clients|
    ensures Only(Apply(s, step), i) == Apply(Only(s, i), OnlyStep(step)) && Alone(Apply(s, step), i)
  {
    hide Alone, MayWake, Asleep?, Woke, SetClient;
    assert step.Shutdown? ==> Only(s, i).clients[0] == Idle;
    match step {
      case WorkerTop(w) =>
        var t := s.(searching := false);
        SameClients(s, t, i, w);
        SameClients(Only(s, i), Only(t, i), 0, OnlyWake(w));
        OnlyWakes(t, w, i);
        SameClients(Woke(t, w), Apply(s, step), i, w);
      case ClientCheck(_) =>
        var want := s.clients[i].want;
        var c := if s.searching then Sleeping(want) else if want.Post? then Notifying else Idle;
        OnlySets(s, i, c);
        SameClients(SetClient(s, i, c), Apply(s, step), i, Nobody);
      case ClientNotify(_, w) =>
        OnlyWakes(s, w, i);
        OnlySets(Woke(s, w), i, if s.exit then Joining else Idle);
      case ClientJoin(_) => OnlySets(s, i, Idle);
      case Call(_, want) => OnlySets(s, i, Ready(want));
      case Shutdown(_, job) =>
        OnlySets(s, i, Ready(Post(job)));
        SameClients(SetClient(s, i, Ready(Post(job))), Apply(s, step), i, Nobody);
      case Spurious(w) => OnlyWakes(s, w, i);
      case _ => SameClients(s, Apply(s, step), i, Nobody);
    }
  }

  lemma SameClients(s: State, t: State, i: nat, w: Wake)
    requires i < |s.clients| && s.clients == t.clients
    ensures Alone(s, i) == Alone(t, i) && (s.worker == t.worker ==> MayWake(s, w) == MayWake(t, w))
  {}

  lemma OnlyWakes(s: State, w: Wake, i: nat)
    requires i < |s.clients| && Alone(s, i)
    ensures MayWake(s, w) ==> MayWake(Only(s, i), OnlyWake(w))
    ensures Asleep?(s, w) ==> Asleep?(Only(s, i), OnlyWake(w))
    ensures |Woke(s, w).clients| == |s.clients|
    ensures MayWake(s, w) || Asleep?(s, w) ==>
              Only(Woke(s, w), i) == Woke(Only(s, i), OnlyWake(w)) && Alone(Woke(s, w), i)
  {}

  lemma OnlySets(s: State, i: nat, c: Client)
    requires i < |s.clients| && Alone(s, i)
    ensures Only(SetClient(s, i, c), i) == SetClient(Only(s, i), 0, c) && Alone(SetClient(s, i, c), i)
    ensures |SetClient(s, i, c).clients| == |s.clients|
  {}

  lemma BusyStep(s: State, step: Step)
    requires BusyInv(s) && Enabled(s, step) && OneBusy(Apply(s, step))
    ensures BusyInv(Apply(s, step))
  {
    var i: nat :| i < |s.clients| && Alone(s, i) && OneInv(Only(s, i));
    var j := Actor(step, i);
    if j != i { HandsOver(s, step, i, j); }
    OnlyApplies(s, step, j);
    OneStep(Only(s, j), OnlyStep(step));
  }

  /** Another caller can only take over when the last one is done. */
  lemma HandsOver(s: State, step: Step, i: nat, j: nat)
    requires i < |s.clients| && Alone(s, i) && OneInv(Only(s, i)) && Enabled(s, step) && OneBusy(Apply(s, step))
    requires j == Actor(step, i) && j != i
    ensures j < |s.clients| && Alone(s, j) && OneInv(Only(s, j))
  {
    assert s.clients[j] == Idle;
    var t := Apply(s, step);
    assert t.clients[i] == s.clients[i] && t.clients[j] != Idle;
    assert s.clients[i] == Idle;
    assert Only(s, j) == Only(s, i);
  }

  lemma {:induction false} BusyRun(states: seq<State>, steps: seq<Step>, k: nat)
    requires Run(states, steps) && k < |states| && forall j | 0 <= j < |states| :: OneBusy(states[j])
    ensures BusyInv(states[k])
  {
    if k == 0 {
      assert Alone(states[0], 0);
      OneInitial(Only(states[0], 0));
    } else {
      BusyRun(states, steps, k - 1);
      assert OneBusy(states[k]) && states[k] == Apply(states[k - 1], steps[k - 1]);
      hide BusyInv, OneBusy, Apply, Enabled;
      BusyStep(states[k - 1], steps[k - 1]);
    }
  }

  /** While callers take turns, however many they are, no wakeup is lost: the run never stalls. */
  lemma TakingTurnsNeverStalls(states: seq<State>, steps: seq<Step>, k: nat)
    requires Run(states, steps) && k < |states| && forall j | 0 <= j < |states| :: OneBusy(states[j])
    ensures !Stalled(states[k])
  {
    BusyRun(states, steps, k);
    var s := states[k];
    var i: nat :| i < |s.clients| && Alone(s, i) && OneInv(Only(s, i));
    if Rank(Only(s, i)) == 0 {
      RankZero(Only(s, i));
    } else {
      var step := NeverStuck(Only(s, i));
      var lifted := Lifted(step, i);
      LiftedIsEnabled(s, step, i);
      assert Enabled(s, lifted) && Internal(lifted);
    }
  }

  function LiftedWake(w: Wake, i: nat): Wake { if w.TheClient? then TheClient(i) else w }

  /** A step with one caller as a step of the whole. */
  function Lifted(step: Step, i: nat): Step {
    match step
    case WorkerTop(w) => WorkerTop(LiftedWake(w, i))
    case ClientCheck(_) => ClientCheck(i)
    case ClientNotify(_, w) => ClientNotify(i, LiftedWake(w, i))
    case ClientJoin(_) => ClientJoin(i)
    case _ => step
  }

  lemma LiftedIsEnabled(s: State, step: Step, i: nat)
    requires i < |s.clients| && Alone(s, i) && Internal(step) && Enabled(Only(s, i), step)
    ensures Enabled(s, Lifted(step, i)) && Internal(Lifted(step, i))
  {
    assert Only(s, i).clients[0] == s.clients[i];
  }

  /** How much the callers from the k-th on have left to do. */
  function CallersRank(clients: seq<Client>, k: nat): nat
    requires k <= |clients|
    decreases |clients| - k
  {
    if k == |clients| then 0 else ClientRank(clients[k]) + CallersRank(clients, k + 1)
  }

  /** How much is left to do, over all callers. */
  function RankAll(s: State): nat { WorkerRank(s) + CallersRank(s.clients, 0) }

  /** Callers outside a call have nothing left to do. */
  lemma {:induction false} IdleRank(clients: seq<Client>, i: nat, k: nat)
    requires i < |clients| && k <= |clients| && forall j | 0 <= j < |clients| && j != i :: clients[j] == Idle
    ensures CallersRank(clients, k) == if k <= i then ClientRank(clients[i]) else 0
    decreases |clients| - k
  {
    if k < |clients| { IdleRank(clients, i, k + 1); }
  }

  lemma AloneRank(s: State, i: nat)
    requires i < |s.clients| && Alone(s, i)
    ensures RankAll(s) == Rank(Only(s, i))
  {
    IdleRank(s.clients, i, 0);
  }

  /** A step of the protocol itself is one of the worker or of the caller inside a call. */
  lemma InternalActor(s: State, step: Step, i: nat)
    requires i < |s.clients| && Alone(s, i) && Enabled(s, step) && Internal(step)
    ensures Actor(step, i) == i && Internal(OnlyStep(step))
  {}

  /** With any number of callers taking turns, every step of the protocol brings all calls nearer their end. */
  lemma TurnRankDrops(s: State, step: Step)
    requires BusyInv(s) && Enabled(s, step) && Internal(step)
    ensures BusyInv(Apply(s, step)) && RankAll(Apply(s, step)) < RankAll(s)
  {
    var i: nat :| i < |s.clients| && Alone(s, i) && OneInv(Only(s, i));
    hide OneInv, Enabled, Apply, Rank, RankAll, Internal, Alone;
    InternalActor(s, step, i);
    OnlyApplies(s, step, i);
    OneStep(Only(s, i), OnlyStep(step));
    RankDrops(Only(s, i), OnlyStep(step));
    AloneRank(s, i);
    AloneRank(Apply(s, step), i);
  }

  /** While a call or a job is unfinished, some thread can go on. */
  lemma TurnNeverStuck(s: State) returns (step: Step)
    requires BusyInv(s) && RankAll(s) > 0
    ensures Enabled(s, step) && Internal(step)
  {
    var i: nat :| i < |s.clients| && Alone(s, i) && OneInv(Only(s, i));
    AloneRank(s, i);
    hide OneInv, Enabled, Rank, RankAll, Internal, Alone;
    var one := NeverStuck(Only(s, i));
    LiftedIsEnabled(s, one, i);
    step := Lifted(one, i);
  }

  lemma TurnRankZero(s: State)
    requires BusyInv(s) && RankAll(s) == 0
    ensures s.executed == s.posted && forall k | 0 <= k < |s.clients| :: s.clients[k] == Idle
  {
    var i: nat :| i < |s.clients| && Alone(s, i) && OneInv(Only(s, i));
    AloneRank(s, i);
    RankZero(Only(s, i));
    hide OneInv, Rank, RankAll;
  }

  /** So callers taking turns are always served: left to itself the protocol finishes all calls and all jobs. */
  lemma {:induction false} TurnFinishes(s: State) returns (steps: seq<Step>, states: seq<State>)
    requires BusyInv(s)
    ensures |states| == |steps| + 1 && states[0] == s && |steps| <= RankAll(s)
    ensures forall k | 0 <= k < |steps| ::
        Enabled(states[k], steps[k]) && Internal(steps[k]) && states[k + 1] == Apply(states[k], steps[k])
    ensures states[|steps|].executed == states[|steps|].posted
    ensures forall k | 0 <= k < |states[|steps|].clients| :: states[|steps|].clients[k] == Idle
    decreases RankAll(s)
  {
    hide BusyInv, RankAll, Enabled, Apply, Internal;
    if RankAll(s) == 0 {
      TurnRankZero(s);
      steps, states := [], [s];
    } else {
      var step := TurnNeverStuck(s);
      TurnRankDrops(s, step);
      var rest, after := TurnFinishes(Apply(s, step));
      steps, states := [step] + rest, [s] + after;
    }
  }

  /** With no callers nothing is ever posted. */
  lemma {:induction false} NoCallers(states: seq<State>, steps: seq<Step>, k: nat)
    requires Run(states, steps) && k < |states| && states[0].clients == []
    ensures states[k].clients == [] && states[k].posted == []
  {
    if k > 0 { NoCallers(states, steps, k - 1); }
  }

  lemma {:induction false} SameCallers(states: seq<State>, steps: seq<Step>, k: nat)
    requires Run(states, steps) && k < |states|
    ensures |states[k].clients| == |states[0].clients|
  {
    if k > 0 { SameCallers(states, steps, k - 1); }
  }

  /** A run can stall exactly when there are two callers or more. */
  lemma StallsExactly(n: nat)
    ensures CanStall(n) <==> n >= 2
  {
    if n >= 2 {
      var states, steps := ManyCallersCanStall(n);
      assert StallingRun(states, steps, n);
    } else {
      forall states: seq<State>, steps: seq<Step> ensures !StallingRun(states, steps, n) {
        if Run(states, steps) && |states[|steps|].clients| == n { FewNeverStall(states, steps); }
      }
    }
  }

  lemma FewNeverStall(states: seq<State>, steps: seq<Step>)
    requires Run(states, steps) && |states[|steps|].clients| <= 1
    ensures !Stalled(states[|steps|])
  {
    SameCallers(states, steps, |steps|);
    if |states[0].clients| == 0 {
      NoCallers(states, steps, |steps|);
      ExactlyOnce(states, steps, |steps|);
    } else {
      forall j | 0 <= j < |states| ensures OneBusy(states[j]) {
        SameCallers(states, steps, j);
        assert Alone(states[j], 0);
      }
      TakingTurnsNeverStalls(states, steps, |steps|);
    }
  }

  lemma FirstHalf(states0: seq<State>, steps0: seq<Step>, s0: State)
      returns (states: seq<State>, steps: seq<Step>, s: State)
    requires Run(states0, steps0) && |states0| == |steps0| + 1
        && states0[|steps0|] == s0 == State(true, false, None, Top, [Idle, Idle], [], [])
    ensures Run(states, steps) && |states| == |steps| + 1 && states[|steps|] == s
    ensures s == State(true, false, None, Running(1), [Sleeping(Post(2)), Sleeping(Finish)], [1], [])
  {
    hide Run;
    states, steps := Then(states0, steps0, s0, WorkerTop(Nobody));
    s := State(false, false, None, Asleep, [Idle, Idle], [], []);
    states, steps := Then(states, steps, s, Call(0, Post(1)));
    s := State(false, false, None, Asleep, [Ready(Post(1)), Idle], [], []);
    states, steps := Then(states, steps, s, ClientCheck(0));
    s := State(true, false, Some(1), Asleep, [Notifying, Idle], [1], []);
    states, steps := Then(states, steps, s, ClientNotify(0, TheWorker));
    s := State(true, false, Some(1), Woken, [Idle, Idle], [1], []);
    states, steps := Then(states, steps, s, WorkerCheck);
    s := State(true, false, None, Running(1), [Idle, Idle], [1], []);
    states, steps := Then(states, steps, s, Call(0, Post(2)));
    s := State(true, false, None, Running(1), [Ready(Post(2)), Idle], [1], []);
    states, steps := Then(states, steps, s, ClientCheck(0));
    s := State(true, false, None, Running(1), [Sleeping(Post(2)), Idle], [1], []);
    states, steps := Then(states, steps, s, Call(1, Finish));
    s := State(true, false, None, Running(1), [Sleeping(Post(2)), Ready(Finish)], [1], []);
    states, steps := Then(states, steps, s, ClientCheck(1));
    s := State(true, false, None, Running(1), [Sleeping(Post(2)), Sleeping(Finish)], [1], []);
  }
}
