/**
 The connection pool the listeners share: an active semaphore with a FIFO wait queue, a queue
 semaphore, and the connection tasks holding their permits (src/proxy.rs, `accept_connection`).
 */
module ConnectionPool {
  import opened Types

  /** Connections are numbered in the order they are accepted, over all ports. */
  type Id = nat

  /**
   Spawned: queued, not polled yet, holds a queue slot.  Waiting: also registered with the active
   semaphore.  Handed: holds a permit as well, but has not run to drop its slot.  Active: holds only
   its permit.
   */
  datatype Stage = Spawned | Waiting | Handed | Active

  datatype Task = Task(owner: nat, stage: Stage)

  datatype Pool = Pool(free: nat, waiters: seq<Id>, queueFree: nat, tasks: map<Id, Task>)

  predicate HasPermit(t: Task) { t.stage.Handed? || t.stage.Active? }

  predicate HasSlot(t: Task) { !t.stage.Active? }

  function PermitHolders(tasks: map<Id, Task>): set<Id> {
    set c | c in tasks && HasPermit(tasks[c])
  }

  function SlotHolders(tasks: map<Id, Task>): set<Id> {
    set c | c in tasks && HasSlot(tasks[c])
  }

  // ---- Operations ----

  /** A free permit was there: the connection starts active. */
  function Admit(p: Pool, c: Id, owner: nat): Pool
    requires p.free > 0
  {
    p.(free := p.free - 1, tasks := p.tasks[c := Task(owner, Active)])
  }

  /** A queue slot was there: the connection is spawned to wait. */
  function Enqueue(p: Pool, c: Id, owner: nat): Pool
    requires p.queueFree > 0
  {
    p.(queueFree := p.queueFree - 1, tasks := p.tasks[c := Task(owner, Spawned)])
  }

  function SetStage(tasks: map<Id, Task>, c: Id, stage: Stage): map<Id, Task> {
    if c in tasks then tasks[c := tasks[c].(stage := stage)] else tasks
  }

  /** First poll of a queued task: take a free permit, or join the wait queue. */
  function Poll(p: Pool, c: Id): Pool {
    if p.free > 0 then p.(free := p.free - 1, tasks := SetStage(p.tasks, c, Handed))
    else p.(waiters := p.waiters + [c], tasks := SetStage(p.tasks, c, Waiting))
  }

  /** A task that was handed a permit runs, and drops its queue slot. */
  function Resume(p: Pool, c: Id): Pool {
    p.(queueFree := p.queueFree + 1, tasks := SetStage(p.tasks, c, Active))
  }

  /** A returned permit goes to the longest waiter, if there is one. */
  function Release(p: Pool): Pool {
    if p.waiters == [] then p.(free := p.free + 1)
    else p.(waiters := p.waiters[1..], tasks := SetStage(p.tasks, p.waiters[0], Handed))
  }

  function Without(s: seq<Id>, c: Id): seq<Id> {
    if s == [] then [] else if s[0] == c then s[1..] else [s[0]] + Without(s[1..], c)
  }

  /** A connection is dropped, in whatever stage, by ending or by being aborted. */
  function Drop(p: Pool, c: Id): Pool
    requires c in p.tasks
  {
    var rest := p.(tasks := p.tasks - {c});
    match p.tasks[c].stage
    case Spawned => rest.(queueFree := p.queueFree + 1)
    case Waiting => rest.(queueFree := p.queueFree + 1, waiters := Without(p.waiters, c))
    case Handed => Release(rest.(queueFree := p.queueFree + 1))
    case Active => Release(rest)
  }

  // ---- Conservation ----

  ghost predicate QueueInv(p: Pool) {
    && Distinct(p.waiters)
    && (forall c :: c in p.waiters <==> c in p.tasks && p.tasks[c].stage.Waiting?)
    && (p.waiters != [] ==> p.free == 0)
  }

  /** Every permit and every slot is free or held by exactly one live task. */
  ghost predicate Conserved(p: Pool, maxConnections: nat, maxQueue: nat) {
    && p.free + |PermitHolders(p.tasks)| == maxConnections
    && p.queueFree + |SlotHolders(p.tasks)| == maxQueue
  }

  ghost predicate PoolInv(p: Pool, maxConnections: nat, maxQueue: nat) {
    QueueInv(p) && Conserved(p, maxConnections, maxQueue)
  }

  lemma PermitsAfterUpdate(tasks: map<Id, Task>, c: Id, t: Task)
    ensures |PermitHolders(tasks[c := t])| + (if c in tasks && HasPermit(tasks[c]) then 1 else 0)
            == |PermitHolders(tasks)| + (if HasPermit(t) then 1 else 0)
  {
    var p, after := PermitHolders(tasks), PermitHolders(tasks[c := t]);
    assert c in p <==> c in tasks && HasPermit(tasks[c]);
    if HasPermit(t) { assert after == p + {c}; } else { assert after == p - {c}; }
  }

  lemma SlotsAfterUpdate(tasks: map<Id, Task>, c: Id, t: Task)
    ensures |SlotHolders(tasks[c := t])| + (if c in tasks && HasSlot(tasks[c]) then 1 else 0)
            == |SlotHolders(tasks)| + (if HasSlot(t) then 1 else 0)
  {
    var s, after := SlotHolders(tasks), SlotHolders(tasks[c := t]);
    assert c in s <==> c in tasks && HasSlot(tasks[c]);
    if HasSlot(t) { assert after == s + {c}; } else { assert after == s - {c}; }
  }

  /** How the holder counts move when a task's entry changes. */
  lemma HoldersAfterUpdate(tasks: map<Id, Task>, c: Id, t: Task)
    ensures |PermitHolders(tasks[c := t])| + (if c in tasks && HasPermit(tasks[c]) then 1 else 0)
            == |PermitHolders(tasks)| + (if HasPermit(t) then 1 else 0)
    ensures |SlotHolders(tasks[c := t])| + (if c in tasks && HasSlot(tasks[c]) then 1 else 0)
            == |SlotHolders(tasks)| + (if HasSlot(t) then 1 else 0)
  {
    PermitsAfterUpdate(tasks, c, t);
    SlotsAfterUpdate(tasks, c, t);
  }

  lemma HoldersAfterRemoval(tasks: map<Id, Task>, c: Id)
    requires c in tasks
    ensures |PermitHolders(tasks - {c})| + (if HasPermit(tasks[c]) then 1 else 0) == |PermitHolders(tasks)|
    ensures |SlotHolders(tasks - {c})| + (if HasSlot(tasks[c]) then 1 else 0) == |SlotHolders(tasks)|
  {
    var p, s := PermitHolders(tasks), SlotHolders(tasks);
    assert PermitHolders(tasks - {c}) == p - {c};
    assert SlotHolders(tasks - {c}) == s - {c};
    assert c in p <==> HasPermit(tasks[c]);
    assert c in s <==> HasSlot(tasks[c]);
  }

  /** Live tasks never exceed the pool and the queue together. */
  lemma LiveBound(p: Pool, maxConnections: nat, maxQueue: nat)
    requires Conserved(p, maxConnections, maxQueue)
    ensures |p.tasks.Keys| <= maxConnections + maxQueue
  {
    var a, b := PermitHolders(p.tasks), SlotHolders(p.tasks);
    assert p.tasks.Keys == a + b;
    assert |a + b| + |a * b| == |a| + |b|;
  }

  lemma AdmitKeeps(p: Pool, c: Id, owner: nat, mc: nat, mq: nat)
    requires PoolInv(p, mc, mq) && p.free > 0 && c !in p.tasks
    ensures PoolInv(Admit(p, c, owner), mc, mq)
  {
    HoldersAfterUpdate(p.tasks, c, Task(owner, Active));
  }

  lemma EnqueueKeeps(p: Pool, c: Id, owner: nat, mc: nat, mq: nat)
    requires PoolInv(p, mc, mq) && p.queueFree > 0 && c !in p.tasks
    ensures PoolInv(Enqueue(p, c, owner), mc, mq)
  {
    HoldersAfterUpdate(p.tasks, c, Task(owner, Spawned));
  }

  lemma PollKeeps(p: Pool, c: Id, mc: nat, mq: nat)
    requires PoolInv(p, mc, mq) && c in p.tasks && p.tasks[c].stage.Spawned?
    ensures PoolInv(Poll(p, c), mc, mq)
  {
    HoldersAfterUpdate(p.tasks, c, p.tasks[c].(stage := Handed));
    HoldersAfterUpdate(p.tasks, c, p.tasks[c].(stage := Waiting));
  }

  lemma ResumeKeeps(p: Pool, c: Id, mc: nat, mq: nat)
    requires PoolInv(p, mc, mq) && c in p.tasks && p.tasks[c].stage.Handed?
    ensures PoolInv(Resume(p, c), mc, mq)
  {
    HoldersAfterUpdate(p.tasks, c, p.tasks[c].(stage := Active));
  }

  /** Returning one permit that no live task holds any more. */
  lemma ReleaseKeeps(p: Pool, mc: nat, mq: nat)
    requires QueueInv(p)
    requires p.free + |PermitHolders(p.tasks)| + 1 == mc && p.queueFree + |SlotHolders(p.tasks)| == mq
    ensures PoolInv(Release(p), mc, mq)
  {
    if p.waiters != [] {
      var next := p.waiters[0];
      assert next in p.waiters;
      HoldersAfterUpdate(p.tasks, next, p.tasks[next].(stage := Handed));
      assert forall c :: c in p.waiters[1..] <==> c in p.waiters && c != next;
    }
  }

  lemma {:induction false} WithoutRemoves(s: seq<Id>, c: Id)
    requires Distinct(s)
    ensures Distinct(Without(s, c)) && forall x :: x in Without(s, c) <==> x in s && x != c
  {
    if s != [] {
      WithoutRemoves(s[1..], c);
      assert forall x :: x in s <==> x == s[0] || x in s[1..];
      if s[0] == c {
        assert c !in s[1..];
      } else {
        assert s[0] !in s[1..];
      }
    }
  }

  /** Dropping a task in any stage gives back exactly what it held. */
  lemma DropKeeps(p: Pool, c: Id, mc: nat, mq: nat)
    requires PoolInv(p, mc, mq) && c in p.tasks
    ensures PoolInv(Drop(p, c), mc, mq)
  {
    HoldersAfterRemoval(p.tasks, c);
    WithoutRemoves(p.waiters, c);
    var rest := p.(tasks := p.tasks - {c});
    match p.tasks[c].stage
    case Spawned =>
    case Waiting =>
    case Handed => ReleaseKeeps(rest.(queueFree := p.queueFree + 1), mc, mq);
    case Active => ReleaseKeeps(rest, mc, mq);
  }

  /** A permit given back while tasks wait, by an end or an abort, is the longest waiter's at once. */
  lemma PermitGoesToNextWaiter(p: Pool, c: Id, mc: nat, mq: nat)
    requires PoolInv(p, mc, mq) && c in p.tasks && HasPermit(p.tasks[c]) && p.waiters != []
    ensures var after := Drop(p, c);
      && PermitHolders(after.tasks) == PermitHolders(p.tasks) - {c} + {p.waiters[0]}
      && after.waiters == p.waiters[1..] && after.free == 0
  {
    var next := p.waiters[0];
    assert next in p.waiters;
    assert next != c;
  }

  lemma WaiterIsTask(p: Pool)
    requires QueueInv(p)
    ensures p.waiters != [] ==> p.waiters[0] in p.tasks
  {
    assert p.waiters != [] ==> p.waiters[0] in p.waiters;
  }

  /** With no task left both semaphores are back at their initial counts. */
  lemma EmptyIsRestored(p: Pool, mc: nat, mq: nat)
    requires PoolInv(p, mc, mq) && p.tasks == map[]
    ensures p.free == mc && p.queueFree == mq && p.waiters == []
  {
    WaiterIsTask(p);
    assert PermitHolders(p.tasks) == {} && SlotHolders(p.tasks) == {};
  }

  // ---- Order ----

  /** Who registered before c, which is registered. */
  function AheadOf(waiters: seq<Id>, c: Id): set<Id> {
    if waiters == [] || waiters[0] == c then {} else {waiters[0]} + AheadOf(waiters[1..], c)
  }
}
