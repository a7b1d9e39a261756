/** The filesystem transport's worker pool: one shared work queue, one private queue per
    registration, and at most one task of a registration in flight. */
module SerialQueue {

  type Registration = nat
  type TaskId = nat
  type Worker = nat

  datatype Task = Task(registration: Registration, id: TaskId)

  /** The tasks of one registration, in order. */
  function TasksOf(r: Registration, tasks: seq<Task>): seq<TaskId> {
    if tasks == [] then []
    else (if tasks[0].registration == r then [tasks[0].id] else []) + TasksOf(r, tasks[1..])
  }

  lemma {:induction false} TasksOfConcat(r: Registration, a: seq<Task>, b: seq<Task>)
    ensures TasksOf(r, a + b) == TasksOf(r, a) + TasksOf(r, b)
  {
    if a == [] {
      assert a + b == b;
    } else {
      assert (a + b)[0] == a[0] && (a + b)[1..] == a[1..] + b;
      TasksOfConcat(r, a[1..], b);
    }
  }

  /** The pool's state, with its history: what was `submitted` and `finished`, the one task
      `flying` of each busy registration, and the worker that `carries` it, if one does. */
  datatype Pool = Pool(work: seq<Task>, busy: set<Registration>, queues: map<Registration, seq<TaskId>>,
                       running: map<Worker, Task>, submitted: seq<Task>, finished: seq<Task>,
                       flying: map<Registration, TaskId>, carrier: map<Registration, Worker>)

  function Queue(p: Pool, r: Registration): seq<TaskId> {
    if r in p.queues then p.queues[r] else []
  }

  function InFlight(p: Pool, r: Registration): seq<TaskId> {
    if r in p.flying then [p.flying[r]] else []
  }

  /** A busy registration's task is in the shared queue once, or with one worker. */
  ghost predicate Placed(p: Pool, r: Registration) {
    && (r in p.carrier ==>
          r in p.flying && p.carrier[r] in p.running && p.running[p.carrier[r]] == Task(r, p.flying[r]))
    && TasksOf(r, p.work) == (if r in p.flying && r !in p.carrier then [p.flying[r]] else [])
  }

  ghost predicate Ordered(p: Pool, r: Registration) {
    && (Queue(p, r) != [] ==> r in p.flying)
    && TasksOf(r, p.submitted) == TasksOf(r, p.finished) + (InFlight(p, r) + Queue(p, r))
  }

  ghost predicate Sound(p: Pool) {
    && p.flying.Keys == p.busy
    && (forall w :: w in p.running ==>
          p.running[w].registration in p.carrier && p.carrier[p.running[w].registration] == w)
    && (forall r :: Placed(p, r)) && (forall r :: Ordered(p, r))
  }

  const IDLE := Pool([], {}, map[], map[], [], [], map[], map[])

  function Submitted(p: Pool, r: Registration, id: TaskId): Pool {
    if r in p.busy then p.(queues := p.queues[r := Queue(p, r) + [id]], submitted := p.submitted + [Task(r, id)])
    else p.(work := p.work + [Task(r, id)], busy := p.busy + {r}, submitted := p.submitted + [Task(r, id)],
            flying := p.flying[r := id])
  }

  function Taken(p: Pool, w: Worker): Pool
    requires p.work != []
  {
    p.(work := p.work[1..], running := p.running[w := p.work[0]], carrier := p.carrier[p.work[0].registration := w])
  }

  function Finished(p: Pool, w: Worker): Pool
    requires w in p.running
  {
    var task := p.running[w];
    var r := task.registration;
    var q := p.(running := p.running - {w}, finished := p.finished + [task], carrier := p.carrier - {r});
    if Queue(p, r) == [] then q.(busy := p.busy - {r}, flying := p.flying - {r})
    else q.(work := p.work + [Task(r, Queue(p, r)[0])], queues := p.queues[r := Queue(p, r)[1..]],
            flying := p.flying[r := Queue(p, r)[0]])
  }

  lemma TasksOfSnoc(r: Registration, tasks: seq<Task>, t: Task)
    ensures TasksOf(r, tasks + [t]) == TasksOf(r, tasks) + (if t.registration == r then [t.id] else [])
  {
    TasksOfConcat(r, tasks, [t]);
  }

  lemma SubmitKeeps(p: Pool, r: Registration, id: TaskId, x: Registration)
    requires p.flying.Keys == p.busy && Placed(p, x) && Ordered(p, x)
    ensures Placed(Submitted(p, r, id), x) && Ordered(Submitted(p, r, id), x)
  {
    TasksOfSnoc(x, p.work, Task(r, id));
    TasksOfSnoc(x, p.submitted, Task(r, id));
    if x == r {
      FlightGrows(TasksOf(x, p.finished), InFlight(p, x), Queue(p, x), id);
    }
  }

  lemma FlightGrows(before: seq<TaskId>, flying: seq<TaskId>, queue: seq<TaskId>, id: TaskId)
    ensures (before + (flying + queue)) + [id] == before + (flying + (queue + [id]))
  {
  }

  lemma SubmitIsSound(p: Pool, r: Registration, id: TaskId)
    requires Sound(p)
    ensures Sound(Submitted(p, r, id))
  {
    var q := Submitted(p, r, id);
    forall x ensures Placed(q, x) && Ordered(q, x) {
      SubmitKeeps(p, r, id, x);
    }
  }

  lemma TakeIsSound(p: Pool, w: Worker)
    requires Sound(p) && p.work != [] && w !in p.running
    ensures Sound(Taken(p, w))
  {
    var q := Taken(p, w);
    assert Placed(p, p.work[0].registration);
    forall x ensures Placed(q, x) {
      assert Placed(p, x);
    }
    forall x ensures Ordered(q, x) {
      assert Ordered(p, x);
    }
  }

  lemma FinishIsSound(p: Pool, w: Worker)
    requires Sound(p) && w in p.running
    ensures Sound(Finished(p, w))
  {
    var q, task := Finished(p, w), p.running[w];
    var r := task.registration;
    assert Placed(p, r);
    forall x ensures Placed(q, x) {
      assert Placed(p, x);
      if Queue(p, r) != [] {
        TasksOfSnoc(x, p.work, Task(r, Queue(p, r)[0]));
      }
    }
    forall x ensures Ordered(q, x) {
      assert Ordered(p, x);
      TasksOfSnoc(x, p.finished, task);
    }
  }

  // ----- every interleaving -----

  datatype Event = Submit(registration: Registration, id: TaskId) | Take(worker: Worker) | Finish(worker: Worker)

  predicate Enabled(p: Pool, e: Event) {
    match e
    case Submit(_, _) => true
    case Take(w) => w !in p.running && p.work != []
    case Finish(w) => w in p.running
  }

  function After(p: Pool, e: Event): Pool
    requires Enabled(p, e)
  {
    match e
    case Submit(r, id) => Submitted(p, r, id)
    case Take(w) => Taken(p, w)
    case Finish(w) => Finished(p, w)
  }

  ghost predicate Possible(p: Pool, events: seq<Event>)
    decreases |events|
  {
    events == [] || (Enabled(p, events[0]) && Possible(After(p, events[0]), events[1..]))
  }

  function Outcome(p: Pool, events: seq<Event>): Pool
    requires Possible(p, events)
    decreases |events|
  {
    if events == [] then p else Outcome(After(p, events[0]), events[1..])
  }

  lemma {:induction false} EveryRunIsSound(p: Pool, events: seq<Event>)
    requires Sound(p) && Possible(p, events)
    ensures Sound(Outcome(p, events))
    decreases |events|
  {
    if events != [] {
      match events[0] {
        case Submit(r, id) => SubmitIsSound(p, r, id);
        case Take(w) => TakeIsSound(p, w);
        case Finish(w) => FinishIsSound(p, w);
      }
      EveryRunIsSound(After(p, events[0]), events[1..]);
    }
  }

  /** Whatever the number of workers and however they interleave: a registration has at most one
      task waiting or running, and what has finished of it is, in order, a prefix of what was
      submitted, with the rest in flight and parked; nothing is lost, doubled or overtaken. */
  lemma TasksRunInSubmissionOrder(events: seq<Event>, r: Registration)
    requires Possible(IDLE, events)
    ensures var p := Outcome(IDLE, events);
            && (r !in p.busy ==>
                  && TasksOf(r, p.work) == [] && Queue(p, r) == []
                  && forall w :: w in p.running ==> p.running[w].registration != r)
            && |TasksOf(r, p.work)| <= 1
            && (forall v, w ::
                  v in p.running && w in p.running && p.running[v].registration == p.running[w].registration ==> v == w)
            && (forall w :: w in p.running && p.running[w].registration == r ==> TasksOf(r, p.work) == [])
            && TasksOf(r, p.finished) <= TasksOf(r, p.submitted)
            && TasksOf(r, p.submitted) == TasksOf(r, p.finished) + (InFlight(p, r) + Queue(p, r))
  {
    forall x ensures Placed(IDLE, x) && Ordered(IDLE, x) {
    }
    EveryRunIsSound(IDLE, events);
    var p := Outcome(IDLE, events);
    assert Ordered(p, r) && Placed(p, r);
  }

  class Service {
    var work: seq<Task>
    var busy: set<Registration>
    var queues: map<Registration, seq<TaskId>>
    var running: map<Worker, Task>
    ghost var submitted: seq<Task>
    ghost var finished: seq<Task>
    ghost var flying: map<Registration, TaskId>
    ghost var carrier: map<Registration, Worker>

    ghost function View(): Pool reads this {
      Pool(work, busy, queues, running, submitted, finished, flying, carrier)
    }

    constructor ()
      ensures View() == IDLE && Sound(View())
    {
      work, busy, queues, running := [], {}, map[], map[];
      submitted, finished, flying, carrier := [], [], map[], map[];
    }

    /** Hands the task to the pool, or parks it behind the registration's task in flight. */
    method Submit(r: Registration, id: TaskId)
      requires Sound(View())
      modifies this
      ensures View() == Submitted(old(View()), r, id) && Sound(View())
    {
      SubmitIsSound(View(), r, id);
      submitted := submitted + [Task(r, id)];
      if r in busy {
        queues := queues[r := (if r in queues then queues[r] else []) + [id]];
      } else {
        busy := busy + {r};
        work := work + [Task(r, id)];
        flying := flying[r := id];
      }
    }

    /** A free worker takes the oldest task of the shared queue. */
    method Take(w: Worker)
      requires Sound(View()) && w !in running && work != []
      modifies this
      ensures View() == Taken(old(View()), w) && Sound(View())
    {
      TakeIsSound(View(), w);
      var task := work[0];
      work := work[1..];
      running := running[w := task];
      carrier := carrier[task.registration := w];
    }

    /** A worker finishes; the registration's next task, if any, goes to the shared queue. */
    method Finish(w: Worker)
      requires Sound(View()) && w in running
      modifies this
      ensures View() == Finished(old(View()), w) && Sound(View())
    {
      FinishIsSound(View(), w);
      var task := running[w];
      var r := task.registration;
      running := running - {w};
      finished := finished + [task];
      carrier := carrier - {r};
      if r in queues && queues[r] != [] {
        var next := queues[r][0];
        queues := queues[r := queues[r][1..]];
        work := work + [Task(r, next)];
        flying := flying[r := next];
      } else {
        busy := busy - {r};
        flying := flying - {r};
      }
    }
  }
}
