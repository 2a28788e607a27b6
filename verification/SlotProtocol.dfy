/**
  * The lifecycle of client sessions: any number of threads, a slot table and a producer pool behind
  * two separate locks. Each step is one locked section.
  */
module SlotProtocol {
  import opened Wrappers
  import opened Clients

  /** A ring's producer, named by the ring it feeds. */
  type Producer = nat

  /** Where a session's thread is. `Running(i, None)` is the branch that finds no producer. */
  datatype Phase =
    | Handshaking
    | Allocated(slot: nat)
    | Running(slot: nat, producer: Option<Producer>)
    | Returned(slot: nat)
    | Finished

  datatype Sessions = Sessions(taken: seq<bool>, pool: seq<Option<Producer>>, threads: map<nat, Phase>)

  datatype Step =
    | Spawn(t: nat)
    | Allocate(t: nat)
    | Take(t: nat)
    | Return(t: nat)
    | Free(t: nat)

  function Start(): Sessions {
    Sessions(seq(MAX_CLIENTS, _ => false), seq(MAX_CLIENTS, i => Some(i)), map[])
  }

  function FirstUntaken(taken: seq<bool>): (idx: nat)
    ensures idx <= |taken|
    ensures idx < |taken| ==> !taken[idx]
  {
    if taken == [] || !taken[0] then 0 else 1 + FirstUntaken(taken[1..])
  }

  predicate At(s: Sessions, t: nat, slots: nat) {
    t in s.threads && (s.threads[t].Allocated? || s.threads[t].Running? || s.threads[t].Returned? ==>
      s.threads[t].slot < slots)
  }

  predicate Enabled(s: Sessions, step: Step) {
    && |s.taken| == |s.pool| == MAX_CLIENTS
    && match step
       case Spawn(t) => t !in s.threads
       case Allocate(t) => t in s.threads && s.threads[t].Handshaking?
       case Take(t) => At(s, t, MAX_CLIENTS) && s.threads[t].Allocated?
       case Return(t) => At(s, t, MAX_CLIENTS) && s.threads[t].Running?
       case Free(t) => At(s, t, MAX_CLIENTS) && s.threads[t].Returned?
  }

  function Next(s: Sessions, step: Step): Sessions
    requires Enabled(s, step)
  {
    match step
    case Spawn(t) => s.(threads := s.threads[t := Handshaking])
    case Allocate(t) =>
      var idx := FirstUntaken(s.taken);
      if idx < MAX_CLIENTS then s.(taken := s.taken[idx := true], threads := s.threads[t := Allocated(idx)])
      else s.(threads := s.threads[t := Finished])
    case Take(t) =>
      var i := s.threads[t].slot;
      s.(pool := s.pool[i := None], threads := s.threads[t := Running(i, s.pool[i])])
    case Return(t) =>
      var i := s.threads[t].slot;
      s.(pool := if s.threads[t].producer.Some? then s.pool[i := s.threads[t].producer] else s.pool,
         threads := s.threads[t := Returned(i)])
    case Free(t) => s.(taken := s.taken[s.threads[t].slot := false], threads := s.threads[t := Finished])
  }

  predicate IsRun(steps: seq<Step>)
    decreases |steps|, 2
  {
    steps == [] ||
    (IsRun(steps[..|steps| - 1]) && Enabled(After(steps[..|steps| - 1]), steps[|steps| - 1]))
  }

  function After(steps: seq<Step>): Sessions
    requires IsRun(steps)
    decreases |steps|, 3
  {
    if steps == [] then Start() else Next(After(steps[..|steps| - 1]), steps[|steps| - 1])
  }

  /** The thread is between its allocation and its release of slot i. */
  predicate Owns(s: Sessions, t: nat, i: nat) {
    && t in s.threads
    && (s.threads[t].Allocated? || s.threads[t].Running? || s.threads[t].Returned?)
    && s.threads[t].slot == i
  }

  predicate Holds(s: Sessions, t: nat, p: Producer) {
    t in s.threads && s.threads[t].Running? && s.threads[t].producer == Some(p)
  }

  ghost predicate Safe(s: Sessions) {
    && |s.taken| == |s.pool| == MAX_CLIENTS
    // A taken slot has an owner, an owned slot is taken, and no slot has two owners.
    && (forall i | 0 <= i < MAX_CLIENTS && s.taken[i] :: exists t :: Owns(s, t, i))
    && (forall t, i: nat | Owns(s, t, i) :: i < MAX_CLIENTS && s.taken[i])
    && (forall t, u, i | Owns(s, t, i) && Owns(s, u, i) :: t == u)
    // A slot's own producer is in the pool, or its running owner holds it.
    && (forall i | 0 <= i < MAX_CLIENTS && !s.taken[i] :: s.pool[i] == Some(i))
    && (forall t, i: nat | Owns(s, t, i) && !s.threads[t].Running? :: s.pool[i] == Some(i))
    && (forall t, i: nat | Owns(s, t, i) && s.threads[t].Running? ::
          s.pool[i] == None && s.threads[t].producer == Some(i))
  }

  lemma OwnersAfter(s: Sessions, step: Step, u: nat, i: nat)
    requires Enabled(s, step) && !step.Spawn? && u != step.t
    ensures Owns(Next(s, step), u, i) <==> Owns(s, u, i)
    ensures Owns(s, u, i) ==> Next(s, step).threads[u] == s.threads[u]
  {
  }

  lemma AllocateSafe(s: Sessions, t: nat)
    requires Safe(s) && Enabled(s, Allocate(t))
    ensures Safe(Next(s, Allocate(t)))
  {
    var n := Next(s, Allocate(t));
    var idx := FirstUntaken(s.taken);
    forall u, i | u != t ensures Owns(n, u, i) <==> Owns(s, u, i) { OwnersAfter(s, Allocate(t), u, i); }
    forall i | 0 <= i < MAX_CLIENTS && n.taken[i] ensures exists u :: Owns(n, u, i) {
      if s.taken[i] {
        var u :| Owns(s, u, i);
        assert Owns(n, u, i);
      } else {
        assert Owns(n, t, i);
      }
    }
  }

  lemma PoolStepSafe(s: Sessions, step: Step)
    requires Safe(s) && Enabled(s, step) && (step.Take? || step.Return?)
    ensures Safe(Next(s, step))
  {
    var n, t := Next(s, step), step.t;
    var j := s.threads[t].slot;
    assert Owns(s, t, j);
    forall u, i ensures Owns(n, u, i) <==> Owns(s, u, i) { if u != t { OwnersAfter(s, step, u, i); } }
  }

  lemma FreeSafe(s: Sessions, t: nat)
    requires Safe(s) && Enabled(s, Free(t))
    ensures Safe(Next(s, Free(t)))
  {
    var n := Next(s, Free(t));
    assert Owns(s, t, s.threads[t].slot);
    forall u, i | u != t ensures Owns(n, u, i) <==> Owns(s, u, i) { OwnersAfter(s, Free(t), u, i); }
    forall i | 0 <= i < MAX_CLIENTS && n.taken[i] ensures exists u :: Owns(n, u, i) {
      var u :| Owns(s, u, i);
      assert Owns(n, u, i);
    }
  }

  lemma SpawnSafe(s: Sessions, t: nat)
    requires Safe(s) && Enabled(s, Spawn(t))
    ensures Safe(Next(s, Spawn(t)))
  {
    var n := Next(s, Spawn(t));
    forall u, i ensures Owns(n, u, i) <==> Owns(s, u, i) {}
  }

  /** Every state any number of sessions can reach, in any interleaving, is safe. */
  lemma {:induction false} RunSafe(steps: seq<Step>)
    requires IsRun(steps)
    ensures Safe(After(steps))
    decreases |steps|
  {
    if steps == [] {
    } else {
      RunSafe(steps[..|steps| - 1]);
      var s, step := After(steps[..|steps| - 1]), steps[|steps| - 1];
      match step
      case Spawn(t) => SpawnSafe(s, t);
      case Allocate(t) => AllocateSafe(s, t);
      case Take(_) => PoolStepSafe(s, step);
      case Return(_) => PoolStepSafe(s, step);
      case Free(t) => FreeSafe(s, t);
    }
  }

  /** The missing-producer branch is unreachable, and no two sessions ever feed the same ring. */
  lemma ProducersUnique(steps: seq<Step>)
    requires IsRun(steps)
    ensures var s := After(steps);
      && (forall t | t in s.threads && s.threads[t].Running? :: s.threads[t].producer == Some(s.threads[t].slot))
      && (forall t, u, p | Holds(s, t, p) && Holds(s, u, p) :: t == u)
  {
    var s := After(steps);
    RunSafe(steps);
    forall t | t in s.threads && s.threads[t].Running? ensures s.threads[t].producer == Some(s.threads[t].slot) {
      assert Owns(s, t, s.threads[t].slot);
    }
    forall t, u, p | Holds(s, t, p) && Holds(s, u, p) ensures t == u {
      assert Owns(s, t, s.threads[t].slot) && Owns(s, u, s.threads[u].slot);
      assert Owns(s, t, p) && Owns(s, u, p);
    }
  }

  // ── The same steps on the real table and pool ──────────────────────────────

  function Taken(slots: Slots): seq<bool> {
    seq(|slots|, i requires 0 <= i < |slots| => slots[i].Some?)
  }

  lemma {:induction false} FirstFreeIsFirstUntaken(slots: Slots)
    ensures FirstUntaken(Taken(slots)) == FirstFree(slots)
  {
    if slots != [] && slots[0].Some? {
      assert Taken(slots)[1..] == Taken(slots[1..]);
      FirstFreeIsFirstUntaken(slots[1..]);
    }
  }

  /** The table's allocate and free are the protocol's, slot for slot. */
  lemma TableSteps(slots: Slots, idx: nat)
    ensures FirstUntaken(Taken(slots)) < |slots| ==>
      Taken(Interfered(slots, Connect)) == Taken(slots)[FirstUntaken(Taken(slots)) := true]
    ensures FirstUntaken(Taken(slots)) == |slots| ==> Interfered(slots, Connect) == slots
    ensures idx < |slots| ==> Taken(Interfered(slots, Disconnect(idx))) == Taken(slots)[idx := false]
  {
    FirstFreeIsFirstUntaken(slots);
  }

  // ── The guard that orders the release ──────────────────────────────────────

  /** The pool and the table between two locked sections. */
  datatype Shared = Shared(pool: seq<Option<Producer>>, slots: Slots)

  /** A section of another session: under the pool's lock, or under the table's. */
  datatype Other = PoolSection(slot: nat, content: Option<Producer>) | TableSection(ev: ClientEvent)

  function Stepped(s: Shared, o: Other): (r: Shared)
    ensures |r.pool| == |s.pool| && |r.slots| == |s.slots|
  {
    match o
    case PoolSection(slot, content) => if slot < |s.pool| then s.(pool := s.pool[slot := content]) else s
    case TableSection(ev) => s.(slots := Interfered(s.slots, ev))
  }

  /** The states other sessions leave behind, one after the other. */
  function Traced(s: Shared, others: seq<Other>): (trace: seq<Shared>)
    ensures |trace| == |others|
    decreases |others|
  {
    if others == [] then [] else [Stepped(s, others[0])] + Traced(Stepped(s, others[0]), others[1..])
  }

  function Latest(s: Shared, trace: seq<Shared>): Shared {
    if trace == [] then s else trace[|trace| - 1]
  }

  function WithReturned(s: Shared, slot: nat, producer: Option<Producer>): Shared
    requires slot < |s.pool|
  {
    if producer.Some? then s.(pool := s.pool[slot := producer]) else s
  }

  function WithFreed(s: Shared, slot: nat): Shared {
    s.(slots := Interfered(s.slots, Disconnect(slot)))
  }

  /** Every state a disconnecting session leaves, with the others' in between. */
  function DropTrace(s: Shared, slot: nat, producer: Option<Producer>, others: seq<Other>): seq<Shared>
    requires slot < |s.pool|
  {
    var returned := WithReturned(s, slot, producer);
    var between := Traced(returned, others);
    [returned] + between + [WithFreed(Latest(returned, between), slot)]
  }

  lemma TracedNext(s: Shared, others: seq<Other>, n: nat)
    requires n < |others|
    ensures Traced(s, others[n..]) == [Stepped(s, others[n])] + Traced(Stepped(s, others[n]), others[n + 1..])
  {
    assert others[n..][1..] == others[n + 1..];
  }

  /** The pool and the table, and every state they have been left in by a locked section. */
  class SharedState {
    const pool: array<Option<Producer>>
    const clients: ClientTable
    ghost var trace: seq<Shared>

    constructor (pool: array<Option<Producer>>, clients: ClientTable)
      ensures this.pool == pool && this.clients == clients && trace == []
    {
      this.pool, this.clients, trace := pool, clients, [];
    }

    ghost function Value(): Shared
      reads pool, clients.slots
    {
      Shared(pool[..], clients.slots[..])
    }

    /** A section under the pool's lock. */
    method Put(slot: nat, content: Option<Producer>)
      modifies this`trace, pool
      ensures Value() == Stepped(old(Value()), PoolSection(slot, content))
      ensures trace == old(trace) + [Value()]
    {
      if slot < pool.Length {
        pool[slot] := content;
      }
      trace := trace + [Value()];
    }

    method Return(slot: nat, producer: Option<Producer>)
      requires slot < pool.Length
      modifies this`trace, pool
      ensures Value() == WithReturned(old(Value()), slot, producer)
      ensures trace == old(trace) + [Value()]
    {
      if producer.Some? {
        pool[slot] := producer;
      }
      trace := trace + [Value()];
    }

    /** A section under the table's lock. */
    method Change(ev: ClientEvent)
      modifies this`trace, clients.slots
      ensures Value() == Stepped(old(Value()), TableSection(ev))
      ensures trace == old(trace) + [Value()]
    {
      match ev {
        case Connect => var _ := clients.Allocate();
        case Disconnect(idx) => clients.Free(idx);
      }
      trace := trace + [Value()];
    }

    /** Other sessions' sections, in any order. */
    method Interfere(others: seq<Other>)
      modifies this`trace, pool, clients.slots
      ensures trace == old(trace) + Traced(old(Value()), others)
      ensures Value() == Latest(old(Value()), Traced(old(Value()), others))
    {
      ghost var start, before := Value(), trace;
      ghost var done: seq<Shared> := [];
      for n := 0 to |others|
        invariant trace == before + done && |done| == n && Value() == Latest(start, done)
        invariant done + Traced(Value(), others[n..]) == Traced(start, others)
      {
        TracedNext(Value(), others, n);
        match others[n] {
          case PoolSection(slot, content) => Put(slot, content);
          case TableSection(ev) => Change(ev);
        }
        done := done + [Value()];
      }
    }
  }

  /** The RAII guard of one session, over the shared table and pool. */
  class SlotGuard {
    const slot: nat
    var producer: Option<Producer>
    const shared: SharedState

    /** The second locked section of a session's start, right after its slot was allocated. */
    constructor (slot: nat, shared: SharedState)
      requires slot < shared.pool.Length
      modifies shared`trace, shared.pool
      ensures this.slot == slot && this.shared == shared
      ensures producer == old(shared.pool[slot])
      ensures shared.trace == old(shared.trace) + [shared.Value()]
      ensures shared.Value() == old(shared.Value()).(pool := old(shared.pool[..])[slot := None])
    {
      this.slot := slot;
      this.shared := shared;
      producer := shared.pool[slot];
      new;
      shared.Put(slot, None);
    }

    /** The release, `others` being the sections that other sessions get in between the two of this one. */
    method Drop(others: seq<Other>)
      requires slot < shared.pool.Length
      modifies this`producer, shared`trace, shared.pool, shared.clients.slots
      ensures producer == None
      ensures shared.trace == old(shared.trace) + DropTrace(old(shared.Value()), slot, old(producer), others)
      ensures shared.Value() == shared.trace[|shared.trace| - 1]
    {
      shared.Return(slot, producer);
      producer := None;
      shared.Interfere(others);
      shared.Change(Disconnect(slot));
    }
  }

  /** Other sessions do not touch a slot that is taken by this one. */
  predicate KeepOff(others: seq<Other>, slot: nat) {
    forall n | 0 <= n < |others| ::
      others[n] != TableSection(Disconnect(slot)) && !(others[n].PoolSection? && others[n].slot == slot)
  }

  /** In this state the slot may be given away only together with its producer. */
  predicate Covered(s: Shared, slot: nat, producer: Producer) {
    slot < |s.pool| && slot < |s.slots| && (s.slots[slot].None? ==> s.pool[slot] == Some(producer))
  }

  lemma OthersCover(s: Shared, o: Other, slot: nat, producer: Producer)
    requires KeepOff([o], slot) && slot < |s.pool| && slot < |s.slots|
    requires s.slots[slot].Some? && s.pool[slot] == Some(producer)
    ensures Stepped(s, o).slots[slot].Some? && Stepped(s, o).pool[slot] == Some(producer)
  {
    assert [o][0] == o;
  }

  lemma {:induction false} TracedCover(s: Shared, others: seq<Other>, slot: nat, producer: Producer)
    requires KeepOff(others, slot) && slot < |s.pool| && slot < |s.slots|
    requires s.slots[slot].Some? && s.pool[slot] == Some(producer)
    ensures forall n | 0 <= n < |others| ::
      && slot < |Traced(s, others)[n].slots| && slot < |Traced(s, others)[n].pool|
      && Traced(s, others)[n].slots[slot].Some? && Traced(s, others)[n].pool[slot] == Some(producer)
    decreases |others|
  {
    if others == [] {
    } else {
      OthersCover(s, others[0], slot, producer);
      TracedCover(Stepped(s, others[0]), others[1..], slot, producer);
    }
  }

  /**
    * In every state a release leaves behind, its own sections' and the others', a free slot has its
    * producer in the pool; and the slot is still taken until the last of them.
    */
  lemma ReleaseNeverUncovers(s: Shared, slot: nat, producer: Producer, others: seq<Other>)
    requires slot < |s.pool| && slot < |s.slots| && s.slots[slot].Some? && KeepOff(others, slot)
    ensures var trace := DropTrace(s, slot, Some(producer), others);
      && |trace| == |others| + 2
      && (forall n | 0 <= n < |trace| :: Covered(trace[n], slot, producer))
      && (forall n | 0 <= n < |trace| - 1 :: trace[n].slots[slot].Some? && trace[n].pool[slot] == Some(producer))
      && trace[|trace| - 1].slots[slot].None? && trace[|trace| - 1].pool[slot] == Some(producer)
  {
    TracedCover(WithReturned(s, slot, Some(producer)), others, slot, producer);
  }

  /** What the protocol sees of the shared state. */
  predicate Mirrors(s: Sessions, shared: Shared) {
    s.pool == shared.pool && s.taken == Taken(shared.slots)
  }

  /** The two sections of a release are the protocol's return and then its free. */
  lemma ReleaseIsReturnThenFree(s: Sessions, t: nat, shared: Shared)
    requires Enabled(s, Return(t)) && Mirrors(s, shared)
    ensures var slot := s.threads[t].slot;
      var trace := DropTrace(shared, slot, s.threads[t].producer, []);
      && |trace| == 2
      && Mirrors(Next(s, Return(t)), trace[0])
      && Enabled(Next(s, Return(t)), Free(t))
      && Mirrors(Next(Next(s, Return(t)), Free(t)), trace[1])
  {
    TableSteps(shared.slots, s.threads[t].slot);
  }

  // ── Why the order matters ──────────────────────────────────────────────────

  /** Releasing in the other order: the slot first, the producer after. */
  function FreedEarly(s: Sessions, t: nat): Sessions
    requires At(s, t, |s.taken|) && s.threads[t].Running?
  {
    s.(taken := s.taken[s.threads[t].slot := false])
  }

  lemma {:induction false} FirstUntakenIs(taken: seq<bool>, idx: nat)
    requires idx < |taken| && !taken[idx] && forall i | 0 <= i < idx :: taken[i]
    ensures FirstUntaken(taken) == idx
  {
    if idx == 0 {
    } else {
      FirstUntakenIs(taken[1..], idx - 1);
    }
  }

  /** From any safe state, freeing a running session's slot first lets a newcomer take an empty pool entry. */
  lemma EarlyFreeLosesTheProducer(s: Sessions, t: nat, u: nat)
    requires Safe(s) && At(s, t, MAX_CLIENTS) && s.threads[t].Running?
    requires u in s.threads && s.threads[u].Handshaking?
    requires forall i | 0 <= i < s.threads[t].slot :: s.taken[i]
    ensures var f := FreedEarly(s, t);
      && Enabled(f, Allocate(u)) && Enabled(Next(f, Allocate(u)), Take(u))
      && Next(Next(f, Allocate(u)), Take(u)).threads[u] == Running(s.threads[t].slot, None)
  {
    var f, i := FreedEarly(s, t), s.threads[t].slot;
    assert Owns(s, t, i);
    FirstUntakenIs(f.taken, i);
    assert u != t;
  }

  const ONE_SESSION: seq<Step> := [Spawn(0), Allocate(0), Take(0)]

  lemma Extended(steps: seq<Step>, step: Step, all: seq<Step>)
    requires IsRun(steps) && Enabled(After(steps), step) && all == steps + [step]
    ensures IsRun(all) && After(all) == Next(After(steps), step)
  {
    assert all[..|steps|] == steps;
  }

  lemma Allocates()
    ensures IsRun([Spawn(0), Allocate(0)])
    ensures After([Spawn(0), Allocate(0)]) == Start().(taken := Start().taken[0 := true],
      threads := map[0 := Allocated(0)])
  {
    FirstUntakenIs(Start().taken, 0);
    Extended([], Spawn(0), [Spawn(0)]);
    Extended([Spawn(0)], Allocate(0), [Spawn(0), Allocate(0)]);
  }

  lemma Takes()
    ensures IsRun(ONE_SESSION) && After(ONE_SESSION).threads == map[0 := Running(0, Some(0))]
    ensures |After(ONE_SESSION).taken| == |After(ONE_SESSION).pool| == MAX_CLIENTS
  {
    Allocates();
    Extended([Spawn(0), Allocate(0)], Take(0), ONE_SESSION);
  }

  /**
    * A run of four steps from the start reaches such a state: released in the other order, session 1 finds no
    * producer.
    */
  lemma EarlyFreeRun()
    ensures IsRun(ONE_SESSION + [Spawn(1)])
    ensures var s := After(ONE_SESSION + [Spawn(1)]);
      && At(s, 0, |s.taken|) && s.threads[0].Running?
      && var f := FreedEarly(s, 0);
      && Enabled(f, Allocate(1)) && Enabled(Next(f, Allocate(1)), Take(1))
      && Next(Next(f, Allocate(1)), Take(1)).threads[1] == Running(0, None)
  {
    Takes();
    Extended(ONE_SESSION, Spawn(1), ONE_SESSION + [Spawn(1)]);
    RunSafe(ONE_SESSION + [Spawn(1)]);
    EarlyFreeLosesTheProducer(After(ONE_SESSION + [Spawn(1)]), 0, 1);
  }
}
