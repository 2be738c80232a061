/** Concrete calls as runs of the lifecycle machine: a tracker follows the process whose steps the calls of one request
    handler or one worker attempt are. */
module Tracking {
  import opened Common
  import opened Kubeconfig
  import opened Store
  import opened Lifecycle
  import opened LifecycleSafety
  import opened LifecycleCoupling
  import opened LifecycleReports

  /** Successive steps of one process. */
  ghost function Steps(cipher: Option<Aead>, w: World, t: nat, cs: seq<Choice>): World {
    if cs == [] then w else Next(cipher, Steps(cipher, w, t, cs[..|cs| - 1]), Step(t, cs[|cs| - 1]))
  }

  lemma OneMoreStep(cipher: Option<Aead>, w: World, t: nat, cs: seq<Choice>, c: Choice)
    ensures Steps(cipher, w, t, cs + [c]) == Next(cipher, Steps(cipher, w, t, cs), Step(t, c))
    ensures Steps(cipher, w, t, []) == w
  {
    assert (cs + [c])[..|cs|] == cs;
  }

  /** A request or an attempt and its steps, begun in a reachable state, end in a reachable state. */
  lemma {:induction false} CallsAreRuns(cipher: Option<Aead>, es: seq<Event>, start: Event, t: nat, cs: seq<Choice>)
      returns (es': seq<Event>)
    ensures Run(cipher, es') == Steps(cipher, Next(cipher, Run(cipher, es), start), t, cs)
  {
    hide Next;
    if cs == [] {
      es' := es + [start];
      assert es'[..|es|] == es;
    } else {
      var before := CallsAreRuns(cipher, es, start, t, cs[..|cs| - 1]);
      es' := before + [Step(t, cs[|cs| - 1])];
      assert es'[..|before|] == before;
    }
  }

  /** The worker's queue client: what it holds, by task ID. */
  class Client {
    var held: map<TaskId, Payload>

    constructor ()
      ensures held == map[]
    {
      held := map[];
    }

    /** Refused while a task with this ID is held. */
    method Enqueue(p: Payload, fault: Fault) returns (ok: bool)
      modifies this
      ensures ok == (fault.Answered? && TaskIdOf(p) !in old(held))
      ensures held == if fault.Refused? || TaskIdOf(p) in old(held) then old(held) else old(held)[TaskIdOf(p) := p]
    {
      if TaskIdOf(p) in held {
        return false;
      }
      if !fault.Refused? {
        held := held[TaskIdOf(p) := p];
      }
      ok := fault.Answered?;
    }

    /** An attempt that returns no error removes its task. */
    method Done(id: TaskId)
      modifies this
      ensures held == old(held) - {id}
    {
      held := held - {id};
    }
  }

  lemma FreshIds(used: set<Id>, reserved: set<Id>) returns (row: Id, job: Id)
    ensures row != job && row !in used && job !in used && row !in reserved && job !in reserved
  {
    row := Above(used + reserved);
    job := row + 1;
    assert forall x :: x in used || x in reserved ==> x in used + reserved && x < row;
  }

  lemma {:induction false} Above(s: set<Id>) returns (n: Id)
    ensures forall x :: x in s ==> x < n
    decreases s
  {
    if s == {} {
      n := 0;
    } else {
      var x :| x in s;
      n := Above(s - {x});
      if n <= x {
        n := x + 1;
      }
      assert forall y :: y in s && y != x ==> y in s - {x};
    }
  }

  ghost function ChoiceOf(fault: Fault, region: string, row: Id, job: Id): Choice {
    Choice(fault, false, Outputs([], [], ""), row, "", region, 0, row, job)
  }

  /** What every reachable state keeps. */
  ghost predicate Sound(cipher: Option<Aead>, w: World) {
    Unique(w) && AllCoupled(cipher, w) && Reports(cipher, w)
  }

  lemma EventKeepsSound(cipher: Option<Aead>, w: World, e: Event)
    requires Sound(cipher, w)
    ensures Sound(cipher, Next(cipher, w, e))
  {
    hide Unique, AllCoupled, Reports, Next;
    EventKeepsUnique(cipher, w, e);
    EventKeepsCoupled(cipher, w, e);
    EventKeepsReports(cipher, w, e);
  }

  lemma InitIsSound(cipher: Option<Aead>)
    ensures Sound(cipher, Lifecycle.INIT)
  {
    hide Unique, AllCoupled, Reports, Next;
    assert Run(cipher, []) == Lifecycle.INIT;
    UniqueHolds(cipher, []);
    CoupledHolds(cipher, []);
    ReportsHold(cipher, []);
  }

  lemma StepTaken(cipher: Option<Aead>, w: World, t: nat, c: Choice)
    requires Sound(cipher, w) && t in w.procs && c.row !in w.used && c.job !in w.used && c.row != c.job
    ensures var w', next := Next(cipher, w, Step(t, c)), After(w.db, w.procs[t], c, CallOk(cipher, w.db, w.procs[t], c));
            && Sound(cipher, w')
            && w'.db == DbAfter(cipher, w.db, w.procs[t], c) && w'.queue == QueueAfter(w.queue, w.procs[t], c)
            && w'.used == w.used + {c.row, c.job}
            && (if next.Some? then t in w'.procs && w'.procs[t] == next.value else t !in w'.procs)
  {
    EventKeepsSound(cipher, w, Step(t, c));
    hide Sound, DbAfter, CallOk, QueueAfter, After, WritesAfter, IssuedAfter, RunsAfter;
  }

  /** What the environment decides in a step of an attempt, which draws no UUIDs. */
  ghost function AttemptChoice(fault: Fault, works: bool, outputs: Outputs, message: string, now: int): Choice {
    Choice(fault, works, outputs, 0, message, "", now, 0, 1)
  }

  /** The UUIDs that every step of the machine draws do not matter to an attempt. */
  lemma UuidsDoNotMatter(cipher: Option<Aead>, db: Db, queue: map<TaskId, Payload>, p: Proc, c: Choice, row: Id, job: Id)
    requires p.Attempt?
    ensures var c' := c.(row := row, job := job);
            && DbAfter(cipher, db, p, c') == DbAfter(cipher, db, p, c) && QueueAfter(queue, p, c') == QueueAfter(queue, p, c)
            && CallOk(cipher, db, p, c') == CallOk(cipher, db, p, c)
            && forall ok :: After(db, p, c', ok) == After(db, p, c, ok)
  {
    hide Called, Violates, KubeconfigOf, ServiceUrl, FailCalls;
  }

  class Tracker {
    const store: PostgresStore
    const client: Client
    ghost const cipher: Option<Aead>
    /** The machine's state, other processes included; they stand still during a call. */
    ghost var machine: World
    /** Where the current call began, and its steps since. */
    ghost var origin: World
    ghost var trace: seq<Choice>
    /** UUIDs that the call has drawn and not used. */
    ghost var drawn: set<Id>

    constructor (store: PostgresStore, client: Client, ghost cipher: Option<Aead>)
      requires store.Contents() == EMPTY && client.held == map[]
      ensures this.store == store && this.client == client && machine == Lifecycle.INIT && Tracks()
    {
      this.store, this.client, this.cipher, this.machine := store, client, cipher, Lifecycle.INIT;
      this.origin, this.trace, this.drawn := Lifecycle.INIT, [], {};
      InitIsSound(cipher);
    }

    ghost predicate Tracks()
      reads this, store, client
    {
      Sound(cipher, machine) && machine.db == store.Contents() && machine.queue == client.held
    }

    ghost predicate Follows(t: nat)
      reads this, store, client
    {
      Tracks() && machine == Steps(cipher, origin, t, trace) && machine.used !! drawn
    }

    /** The machine's process `t` stands at `p`, or has ended. */
    ghost predicate At(t: nat, p: Option<Proc>)
      reads this, store, client
    {
      Follows(t) && if p.Some? then t in machine.procs && machine.procs[t] == p.value else t !in machine.procs
    }

    /** The choice of the next step: how its call ends, and the UUIDs the call uses, if any. */
    ghost method ChoiceFor(fault: Fault, region: string, row: Option<Id>, job: Option<Id>) returns (c: Choice)
      requires machine.used !! drawn
      requires (row.Some? ==> row.value in drawn) && (job.Some? ==> job.value in drawn) && (row.Some? ==> row != job)
      ensures c == ChoiceOf(fault, region, c.row, c.job)
      ensures c.row == (if row.Some? then row.value else c.row) && c.job == (if job.Some? then job.value else c.job)
      ensures c.row !in machine.used && c.job !in machine.used && c.row != c.job
      ensures (row.None? ==> c.row !in drawn) && (job.None? ==> c.job !in drawn)
    {
      var r, j := FreshIds(machine.used, drawn);
      c := ChoiceOf(fault, region, if row.Some? then row.value else r, if job.Some? then job.value else j);
    }

    /** The process takes the step that the concrete call has just taken. */
    ghost method Take(t: nat, c: Choice, before: Proc, next: Option<Proc>)
      requires Sound(cipher, machine) && machine == Steps(cipher, origin, t, trace) && machine.used !! drawn
      requires t in machine.procs && machine.procs[t] == before
      requires c.row !in machine.used && c.job !in machine.used && c.row != c.job
      requires store.Contents() == DbAfter(cipher, machine.db, before, c)
      requires client.held == QueueAfter(machine.queue, before, c)
      requires next == After(machine.db, before, c, CallOk(cipher, machine.db, before, c))
      modifies this`machine, this`trace, this`drawn
      ensures At(t, next) && drawn == old(drawn) - {c.row, c.job}
    {
      hide Sound, DbAfter, CallOk, QueueAfter, After, Steps, Next;
      StepTaken(cipher, machine, t, c);
      OneMoreStep(cipher, origin, t, trace, c);
      machine, trace, drawn := Next(cipher, machine, Step(t, c)), trace + [c], drawn - {c.row, c.job};
    }

    /** A request begins: a new process of the machine, with the UUIDs it will draw. */
    ghost method Begin(t: nat, start: Proc, ids: set<Id>)
      requires Tracks() && t !in machine.procs && machine.used !! ids
      requires start.FindOrg? || start.FindForDestroy? || start.FindForDeploy? || start.FindForDelete?
      modifies this`machine, this`origin, this`trace, this`drawn
      ensures At(t, Some(start)) && drawn == ids && origin == Next(cipher, old(machine), Request(t, start))
    {
      hide Sound, Steps;
      EventKeepsSound(cipher, machine, Request(t, start));
      origin := Next(cipher, machine, Request(t, start));
      machine, trace, drawn := origin, [], ids;
      OneMoreStep(cipher, origin, t, [], ChoiceOf(Answered, "", 0, 0));
    }

    /** An attempt of a held task begins. */
    ghost method PickUp(t: nat, id: TaskId)
      requires Tracks() && t !in machine.procs && id in client.held
      modifies this`machine, this`origin, this`trace, this`drawn
      ensures At(t, Some(Attempt(client.held[id], FirstCalls(client.held[id]), FirstStage(client.held[id]))))
      ensures drawn == {} && origin == Next(cipher, old(machine), Event.PickUp(t, id))
    {
      hide Sound, Steps, FirstCalls, FirstStage;
      EventKeepsSound(cipher, machine, Event.PickUp(t, id));
      origin := Next(cipher, machine, Event.PickUp(t, id));
      machine, trace, drawn := origin, [], {};
      OneMoreStep(cipher, origin, t, [], ChoiceOf(Answered, "", 0, 0));
    }

    /** The machine's process `t` stands at `p`, whatever has happened to the tables since. */
    ghost predicate Before(t: nat, p: Proc)
      reads this
    {
      && Sound(cipher, machine) && machine == Steps(cipher, origin, t, trace) && machine.used !! drawn
      && t in machine.procs && machine.procs[t] == p
    }

    /** An attempt has taken a step: a call, an external call, or its end. */
    ghost method Passed(t: nat, before: Proc, c: Choice, next: Option<Proc>)
      requires before.Attempt? && Before(t, before)
      requires store.Contents() == DbAfter(cipher, machine.db, before, c)
      requires client.held == QueueAfter(machine.queue, before, c)
      requires next == After(machine.db, before, c, CallOk(cipher, machine.db, before, c))
      modifies this`machine, this`trace, this`drawn
      ensures At(t, next)
    {
      hide Sound, DbAfter, CallOk, QueueAfter, After, Steps, Next;
      var row, job := FreshIds(machine.used, drawn);
      UuidsDoNotMatter(cipher, machine.db, machine.queue, before, c, row, job);
      Take(t, c.(row := row, job := job), before, next);
    }

    /** A store call whose result the attempt ignores has been made. */
    ghost method Made(t: nat, p: Payload, calls: seq<Statement>, stage: Stage, fault: Fault, now: int)
      requires calls != [] && Before(t, Attempt(p, calls, stage))
      requires store.Contents() == Called(machine.db, calls[0], fault, now) && client.held == machine.queue
      modifies this`machine, this`trace, this`drawn
      ensures At(t, Some(Attempt(p, calls[1..], stage)))
    {
      hide Before, Called, Violates, AfterHandler;
      Passed(t, Attempt(p, calls, stage), AttemptChoice(fault, false, Outputs([], [], ""), "", now),
             Some(Attempt(p, calls[1..], stage)));
    }

    /** The attempt is over; asynq removes its task when it reports no error. */
    ghost method Ended(t: nat, p: Payload, ok: bool)
      requires Before(t, Attempt(p, [], End(ok))) && store.Contents() == machine.db
      requires client.held == if ok then machine.queue - {TaskIdOf(p)} else machine.queue
      modifies this`machine, this`trace, this`drawn
      ensures At(t, None)
    {
      hide Before, TaskIdOf, AfterHandler;
      Passed(t, Attempt(p, [], End(ok)), AttemptChoice(Answered, false, Outputs([], [], ""), "", 0), None);
    }
  }
}
