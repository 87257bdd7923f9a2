/**
 The executor on top of the reactor: tasks, wakers, the run queue, the waiting slab and the
 executor loop, as one state machine whose acts interleave in any order.
 */
module World {
  import opened Wrappers
  import opened Reactor
  import opened Kernel
  import opened Spec
  import opened Simulation
  import opened Events

  /**
   The executor's code. Tasks are named by numbers; `keys[t]` is the atomic in task t's
   `Arc<TaskId>`, which the task shares with all of its wakers.
   */
  datatype Exec = Exec(runQ: seq<nat>, waiting: map<nat, nat>, keys: map<nat, nat>)

  /** Outside the executor loop, at the head of the loop, or inside the poll of a task. */
  datatype Phase = Idle | Top | Polling(task: nat)

  /**
   What happened so far: tasks spawned and finished, number of polls and of completions reaped;
   `due` are the tasks queued since the last `react` began and `polled` those polled since then.
   `awaiting` are the handles whose latest poll during the current task poll was pending, and
   `blocked[t]` is the operation that task t was waiting for when it last suspended.
   */
  datatype Hist = Hist(spawned: set<nat>, finished: set<nat>, polls: nat, reaped: nat,
                       due: set<nat>, polled: seq<nat>, awaiting: set<nat>, blocked: map<nat, nat>)

  datatype World = World(code: Code, kern: KState, spec: SState, link: Link, exec: Exec, phase: Phase, hist: Hist)

  const Start := World(NoCode, Boot, Empty, NoLink, Exec([], map[], map[]), Idle,
                       Hist({}, {}, 0, 0, {}, [], {}, map[]))

  /** `Io` is any act on the reactor but those of `react` itself, by a task, the kernel or another thread. */
  datatype Act = Io(a: RAct) | Spawn(task: nat) | Enter | Iterate | Suspend(key: nat, h: nat) | Finish

  // ---------------------------------------------------------------- the code

  /** `TaskId::wake`. */
  function Wake(e: Exec, t: nat): Exec {
    if t in e.keys && e.keys[t] in e.waiting then
      e.(runQ := e.runQ + [e.waiting[e.keys[t]]], waiting := e.waiting - {e.keys[t]})
    else e
  }

  ghost function IoStep(w: World, a: RAct): (r: Outcome<(World, Obs)>)
    requires Sensible(w.spec)
    ensures r.Returned? ==> Sensible(r.value.0.spec)
  {
    match CodeStep(w.code, w.kern, a)
    case Panicked => Panicked
    case Returned((code, obs)) =>
      var submits := CodeSubmits(w.code, a);
      Returned((w.(code := code, kern := KernelStep(w.kern, a, submits), spec := SpecStep(w.spec, w.kern, a).0,
                   link := LinkStep(w.link, w.kern, a, submits)), obs))
  }

  /** The handles whose latest poll was pending, after one more act. */
  ghost function Awaiting(awaiting: set<nat>, a: RAct, obs: Obs): set<nat> {
    match a
    case PollIo(h, _, _, _, _) => if obs == Polled(Pending) then awaiting + {h} else awaiting - {h}
    case DropIo(h, _) => awaiting - {h}
    case _ => awaiting
  }

  ghost function Moved(e: Exec, t: nat): set<nat> {
    if t in e.keys && e.keys[t] in e.waiting then {e.waiting[e.keys[t]]} else {}
  }

  /** One completion: `next` on the iterator, then `wake` on the waker. */
  ghost function ReapWake(w: World): (r: Outcome<World>)
    requires Sensible(w.spec)
    ensures r.Returned? ==> Sensible(r.value.spec)
  {
    match IoStep(w, Reap)
    case Panicked => Panicked
    case Returned((w', obs)) =>
      if !obs.Woke? then Panicked
      else
        Returned(w'.(exec := Wake(w.exec, obs.obj),
                     hist := w.hist.(reaped := w.hist.reaped + 1, due := w.hist.due + Moved(w.exec, obs.obj))))
  }

  ghost function ReapAll(w: World): (r: Outcome<World>)
    requires Sensible(w.spec)
    ensures r.Returned? ==> Sensible(r.value.spec)
    decreases |w.kern.cq|
  {
    if w.kern.cq == [] then Returned(w)
    else match ReapWake(w)
      case Panicked => Panicked
      case Returned(w') => if w'.kern.cq == w.kern.cq[1..] then ReapAll(w') else Panicked
  }

  /** `Reactor::react`: every completion that is there when `submit_and_wait` returns. */
  ghost function React(w: World): (r: Outcome<World>)
    requires Sensible(w.spec)
    ensures r.Returned? ==> Sensible(r.value.spec)
  {
    ReapAll(w.(code := w.code.(ring := w.code.ring.(queued := 0)), hist := w.hist.(due := {}, polled := [])))
  }

  /** The head of an iteration: react if the run queue is empty, then pop a task and start to poll it. */
  ghost function PopTask(w: World): Outcome<World> {
    if w.exec.runQ == [] then Panicked
    else
      var n := |w.exec.runQ| - 1;
      var t := w.exec.runQ[n];
      Returned(w.(exec := w.exec.(runQ := w.exec.runQ[..n]), phase := Polling(t),
                  hist := w.hist.(polls := w.hist.polls + 1, polled := w.hist.polled + [t], awaiting := {})))
  }

  /** The test at the end of an iteration. */
  ghost function LoopEnd(e: Exec): Phase {
    if e.runQ == [] && e.waiting == map[] then Idle else Top
  }

  ghost function Step(w: World, act: Act): (r: Outcome<World>)
    requires Sensible(w.spec)
    ensures r.Returned? ==> Sensible(r.value.spec)
  {
    match act
    case Io(a) =>
      (match IoStep(w, a)
       case Panicked => Panicked
       case Returned((w', obs)) => Returned(w'.(hist := w.hist.(awaiting := Awaiting(w.hist.awaiting, a, obs)))))
    case Spawn(t) =>
      Returned(w.(exec := w.exec.(runQ := w.exec.runQ + [t], keys := w.exec.keys[t := 0]),
                  hist := w.hist.(spawned := w.hist.spawned + {t}, due := w.hist.due + {t})))
    case Enter => Returned(w.(phase := Top))
    case Iterate =>
      if w.exec.runQ != [] then PopTask(w)
      else (match React(w)
            case Panicked => Panicked
            case Returned(w') => PopTask(w'))
    case Suspend(key, h) =>
      if !w.phase.Polling? || h !in w.spec.handles || !w.spec.handles[h].Owns? then Returned(w)
      else
        var t := w.phase.task;
        var e := w.exec.(waiting := w.exec.waiting[key := t], keys := w.exec.keys[t := key]);
        Returned(w.(exec := e, phase := LoopEnd(e),
                    hist := w.hist.(blocked := w.hist.blocked[t := w.spec.handles[h].op])))
    case Finish =>
      if !w.phase.Polling? then Returned(w)
      else Returned(w.(phase := LoopEnd(w.exec), hist := w.hist.(finished := w.hist.finished + {w.phase.task})))
  }

  /**
   The acts that can come next. A task polls only handles that it submitted itself or that are
   not submitted; a poll of a task ends pending only if some handle that it still has answered
   pending; `react` returns only with a completion.
   */
  ghost predicate CanAct(w: World, act: Act) {
    match act
    case Io(a) =>
      && !a.Flush? && !a.Reap? && Enabled(w.code, w.kern, a)
      && (a.PollIo? ==>
            && w.phase == Polling(a.obj)
            && (a.h in w.spec.handles && w.spec.handles[a.h].Owns? && w.spec.handles[a.h].op < |w.spec.ops| ==>
                  w.spec.ops[w.spec.handles[a.h].op].obj == a.obj))
      && (a.NewIo? || a.DropIo? || a.OpenEvent? ==> !w.phase.Top?)
    case Spawn(t) => t !in w.hist.spawned && !w.phase.Top?
    case Enter => w.phase.Idle?
    case Iterate => w.phase.Top? && (w.exec.runQ == [] ==> w.kern.cq != [])
    case Suspend(key, h) => w.phase.Polling? && key !in w.exec.waiting && h in w.hist.awaiting
    case Finish => w.phase.Polling?
  }

  // ---------------------------------------------------------------- the invariant

  /** Task t sits in the waiting slab, at the key in its `TaskId`. */
  ghost predicate IsWaiting(e: Exec, t: nat) {
    t in e.keys && e.keys[t] in e.waiting && e.waiting[e.keys[t]] == t
  }

  ghost predicate NoDup(s: seq<nat>) {
    forall i, j | 0 <= i < j < |s| :: s[i] != s[j]
  }

  /** Every spawned task is in exactly one place. */
  ghost predicate ExecOk(e: Exec, phase: Phase, spawned: set<nat>, finished: set<nat>) {
    && e.keys.Keys == spawned && finished <= spawned && NoDup(e.runQ)
    && (forall t | t in e.runQ :: t in spawned && t !in finished && !IsWaiting(e, t) && phase != Polling(t))
    && (forall k | k in e.waiting ::
          && e.waiting[k] in spawned && e.waiting[k] !in finished
          && e.keys[e.waiting[k]] == k && phase != Polling(e.waiting[k]))
    && (phase.Polling? ==> phase.task in spawned && phase.task !in finished)
    && (forall t | t in spawned :: t in e.runQ || IsWaiting(e, t) || t in finished || phase == Polling(t))
  }

  ghost predicate WakersOk(ops: seq<SpecOp>, spawned: set<nat>) {
    forall o | 0 <= o < |ops| :: ops[o].obj in spawned
  }

  /** Operation o is open and will wake task t. */
  ghost predicate WillWake(ops: seq<SpecOp>, o: nat, t: nat) {
    o < |ops| && !ops[o].closed && ops[o].obj == t
  }

  ghost predicate BlockedOk(e: Exec, ops: seq<SpecOp>, blocked: map<nat, nat>) {
    forall k | k in e.waiting :: e.waiting[k] in blocked && WillWake(ops, blocked[e.waiting[k]], e.waiting[k])
  }

  ghost predicate AwaitingOk(s: SState, phase: Phase, awaiting: set<nat>) {
    phase.Polling? ==>
      forall h | h in awaiting :: h in s.handles && s.handles[h].Owns? && WillWake(s.ops, s.handles[h].op, phase.task)
  }

  ghost predicate RoundOk(e: Exec, hist: Hist) {
    && hist.polls + |e.runQ| <= |hist.spawned| + hist.reaped
    && NoDup(hist.polled) && (forall t | t in hist.polled :: t in hist.spawned)
    && (forall t :: t in hist.due <==> t in hist.polled || t in e.runQ)
    && (forall t | t in e.runQ :: t !in hist.polled)
  }

  ghost predicate Inv(w: World) {
    && Sim(w.code, w.kern, w.spec, w.link)
    && FdsOk(w.kern)
    && ExecOk(w.exec, w.phase, w.hist.spawned, w.hist.finished)
    && WakersOk(w.spec.ops, w.hist.spawned)
    && BlockedOk(w.exec, w.spec.ops, w.hist.blocked)
    && AwaitingOk(w.spec, w.phase, w.hist.awaiting)
    && RoundOk(w.exec, w.hist)
  }
}
