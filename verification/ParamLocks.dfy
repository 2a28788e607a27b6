/** Which parameter locks are in force: a note owns the locks that arrived for its trigger. */
module ParamLocks {
  import Params = ParameterBank

  type Lock = (Params.U32, Params.F64)

  const CMD_TRIGGER: int := 19

  datatype Event = ParamLock(node: nat, param: Params.U32, value: Params.F64) | NoteOn | Other

  // ── What the engine does, event by event ───────────────────────────────────

  /** The engine's life as the lock logic sees it. */
  datatype Moment = BlockStart | OwnLock(lock: Lock) | Retrigger | Quiet

  datatype Locks = Locks(held: seq<Lock>, pending: bool)

  function Stepped(l: Locks, m: Moment): Locks {
    match m
    case BlockStart => l.(pending := false)
    case OwnLock(lock) => Locks(if l.pending then l.held + [lock] else [lock], true)
    case Retrigger => if l.pending then l.(pending := false) else Locks([], false)
    case Quiet => l
  }

  function After(l: Locks, ms: seq<Moment>): Locks {
    if ms == [] then l else Stepped(After(l, ms[..|ms| - 1]), ms[|ms| - 1])
  }

  function CommandMoments(cs: seq<Params.Command>): seq<Moment> {
    if cs == [] then []
    else CommandMoments(cs[..|cs| - 1]) + [if cs[|cs| - 1].typeId == CMD_TRIGGER then Retrigger else Quiet]
  }

  function MomentOf(e: Event, node: nat): Moment {
    match e
    case ParamLock(n, param, value) => if n == node then OwnLock((param, value)) else Quiet
    case NoteOn => Retrigger
    case Other => Quiet
  }

  function EventMoments(es: seq<Event>, node: nat): seq<Moment> {
    if es == [] then [] else EventMoments(es[..|es| - 1], node) + [MomentOf(es[|es| - 1], node)]
  }

  /** One block: its start, its commands, then its events. */
  function BlockMoments(cs: seq<Params.Command>, es: seq<Event>, node: nat): seq<Moment> {
    [BlockStart] + CommandMoments(cs) + EventMoments(es, node)
  }

  function Banked(slots: seq<Params.Slot>, param: Params.U32): Params.F64 {
    var i := Params.Find(slots, param);
    if i < |slots| then slots[i].current else 0 as Params.F64
  }

  function Raw(locks: seq<Lock>, slots: seq<Params.Slot>, param: Params.U32): Params.F64
    decreases |locks|
  {
    if locks == [] then Banked(slots, param)
    else if locks[0].0 == param then locks[0].1
    else Raw(locks[1..], slots, param)
  }

  /** Of several locks on one parameter in one step, the first wins. */
  lemma {:induction false} FirstLock(locks: seq<Lock>, slots: seq<Params.Slot>, param: Params.U32, i: nat)
    requires i < |locks| && locks[i].0 == param && forall k | 0 <= k < i :: locks[k].0 != param
    ensures Raw(locks, slots, param) == locks[i].1
    decreases i
  {
    if i == 0 {
    } else {
      FirstLock(locks[1..], slots, param, i - 1);
    }
  }

  lemma {:induction false} NoLock(locks: seq<Lock>, slots: seq<Params.Slot>, param: Params.U32)
    requires forall k | 0 <= k < |locks| :: locks[k].0 != param
    ensures Raw(locks, slots, param) == Banked(slots, param)
    decreases |locks|
  {
    if locks == [] {
    } else {
      NoLock(locks[1..], slots, param);
    }
  }

  lemma Appended(l: Locks, ms: seq<Moment>, m: Moment)
    ensures After(l, ms + [m]) == Stepped(After(l, ms), m)
  {
    assert (ms + [m])[..|ms|] == ms;
  }

  lemma {:induction false} Continues(l: Locks, a: seq<Moment>, b: seq<Moment>)
    ensures After(l, a + b) == After(After(l, a), b)
  {
    if b == [] {
      assert a + b == a;
    } else {
      Continues(l, a, b[..|b| - 1]);
      assert (a + b)[..|a + b| - 1] == a + b[..|b| - 1];
    }
  }

  class Engine {
    const nodeId: nat
    var nodeLocks: seq<Lock>
    var locksPending: bool
    const bank: Params.ParameterBank

    constructor (nodeId: nat, bank: Params.ParameterBank)
      ensures this.nodeId == nodeId && this.bank == bank && Value() == Locks([], false)
    {
      this.nodeId, this.bank := nodeId, bank;
      nodeLocks, locksPending := [], false;
    }

    function Value(): Locks
      reads this`nodeLocks, this`locksPending
    {
      Locks(nodeLocks, locksPending)
    }

    method PushLock(param: Params.U32, value: Params.F64)
      modifies this`nodeLocks, this`locksPending
      ensures Value() == Stepped(old(Value()), OwnLock((param, value)))
    {
      if !locksPending {
        nodeLocks := [];
        locksPending := true;
      }
      nodeLocks := nodeLocks + [(param, value)];
    }

    method ConsumePendingLocks()
      modifies this`nodeLocks, this`locksPending
      ensures Value() == Stepped(old(Value()), Retrigger)
    {
      if locksPending {
        locksPending := false;
      } else {
        nodeLocks := [];
      }
    }

    /** A trigger command takes the pending locks as a note does. */
    method HandleTriggers(commands: seq<Params.Command>)
      modifies this`nodeLocks, this`locksPending
      ensures Value() == After(old(Value()), CommandMoments(commands))
    {
      for n := 0 to |commands|
        invariant Value() == After(old(Value()), CommandMoments(commands[..n]))
      {
        if commands[n].typeId == CMD_TRIGGER {
          ConsumePendingLocks();
        }
        assert commands[..n + 1][..n] == commands[..n];
        Appended(old(Value()), CommandMoments(commands[..n]),
          if commands[n].typeId == CMD_TRIGGER then Retrigger else Quiet);
      }
      assert commands[..|commands|] == commands;
    }

    method HandleEvent(e: Event)
      modifies this`nodeLocks, this`locksPending
      ensures Value() == Stepped(old(Value()), MomentOf(e, nodeId))
    {
      match e {
        case ParamLock(node, param, value) =>
          if node == nodeId {
            PushLock(param, value);
          }
        case NoteOn => ConsumePendingLocks();
        case Other =>
      }
    }

    method HandleEvents(events: seq<Event>)
      modifies this`nodeLocks, this`locksPending
      ensures Value() == After(old(Value()), EventMoments(events, nodeId))
    {
      ghost var start := Value();
      for n := 0 to |events|
        invariant Value() == After(start, EventMoments(events[..n], nodeId))
      {
        assert EventMoments(events[..n + 1], nodeId) == EventMoments(events[..n], nodeId) + [MomentOf(events[n],
          nodeId)] by {
          assert events[..n + 1][..n] == events[..n];
        }
        Appended(start, EventMoments(events[..n], nodeId), MomentOf(events[n], nodeId));
        HandleEvent(events[n]);
      }
      assert events[..|events|] == events;
    }

    /** One block, but for its rendering. The bank takes the commands and nothing else: no lock ever alters it. */
    method ProcessBlock(commands: seq<Params.Command>, events: seq<Event>, add: Params.Add)
      requires Params.Bank(bank.slots)
      modifies this`nodeLocks, this`locksPending, bank
      ensures bank.slots == Params.CommandedAll(old(bank.slots), commands, add)
      ensures Value() == After(old(Value()), BlockMoments(commands, events, nodeId))
    {
      ghost var start := Value();
      bank.HandleCommands(commands, add);
      locksPending := false;
      assert [BlockStart][..0] == [];
      HandleTriggers(commands);
      HandleEvents(events);
      Continues(start, [BlockStart], CommandMoments(commands));
      Continues(start, [BlockStart] + CommandMoments(commands), EventMoments(events, nodeId));
    }

    /** The value a parameter is read at, before any modulation. */
    method RawParam(param: Params.U32) returns (value: Params.F64)
      ensures value == Raw(nodeLocks, bank.slots, param)
    {
      for i := 0 to |nodeLocks|
        invariant forall k | 0 <= k < i :: nodeLocks[k].0 != param
      {
        if nodeLocks[i].0 == param {
          FirstLock(nodeLocks, bank.slots, param, i);
          return nodeLocks[i].1;
        }
      }
      NoLock(nodeLocks, bank.slots, param);
      value := bank.Get(param);
    }
  }

  // ── Who owns which locks ───────────────────────────────────────────────────

  const IDLE := Locks([], false)

  /** The own locks received since the later of the last block start and the last retrigger. */
  function Since(ms: seq<Moment>): seq<Lock> {
    if ms == [] then []
    else match ms[|ms| - 1]
      case OwnLock(lock) => Since(ms[..|ms| - 1]) + [lock]
      case Quiet => Since(ms[..|ms| - 1])
      case _ => []
  }

  /** A lock is pending exactly when one has arrived since, and then exactly those are held. */
  lemma {:induction false} PendingIsSince(ms: seq<Moment>)
    ensures var l := After(IDLE, ms);
      (l.pending <==> Since(ms) != []) && (l.pending ==> l.held == Since(ms))
  {
    if ms == [] {
    } else {
      PendingIsSince(ms[..|ms| - 1]);
    }
  }

  /** No lock for this node and no retrigger. */
  predicate Undisturbed(ms: seq<Moment>) {
    forall i | 0 <= i < |ms| :: ms[i].Quiet? || ms[i].BlockStart?
  }

  lemma {:induction false} Survives(l: Locks, ms: seq<Moment>)
    requires Undisturbed(ms)
    ensures After(l, ms).held == l.held
  {
    if ms == [] {
    } else {
      Survives(l, ms[..|ms| - 1]);
    }
  }

  /**
    * A retriggered note holds exactly the locks that arrived for it, in order, and goes on holding them
    * through any number of blocks until the next lock for this node or the next retrigger.
    */
  lemma NoteOwnsItsLocks(past: seq<Moment>, rest: seq<Moment>)
    requires Undisturbed(rest)
    ensures After(IDLE, past + [Retrigger] + rest).held == Since(past)
  {
    PendingIsSince(past);
    Appended(IDLE, past, Retrigger);
    Continues(IDLE, past + [Retrigger], rest);
    Survives(After(IDLE, past + [Retrigger]), rest);
  }

  /** From two states with nothing pending, a run with a disturbance ends in one and the same state. */
  lemma {:induction false} Forgets(a: Locks, b: Locks, ms: seq<Moment>)
    requires !a.pending && !b.pending
    ensures After(a, ms).pending == After(b, ms).pending
    ensures Undisturbed(ms) ==> !After(a, ms).pending
    ensures !Undisturbed(ms) ==> After(a, ms) == After(b, ms)
  {
    if ms == [] {
    } else {
      var front, last := ms[..|ms| - 1], ms[|ms| - 1];
      Forgets(a, b, front);
      assert Undisturbed(ms) <==> Undisturbed(front) && (last.Quiet? || last.BlockStart?) by {
        assert ms == front + [last];
      }
    }
  }

  lemma RetriggeredThen(past: seq<Moment>, rest: seq<Moment>)
    ensures !After(IDLE, past + [Retrigger]).pending
    ensures After(IDLE, past + [Retrigger] + rest) == After(After(IDLE, past + [Retrigger]), rest)
  {
    Appended(IDLE, past, Retrigger);
    Continues(IDLE, past + [Retrigger], rest);
  }

  /**
    * What follows a retrigger leaves every note its locks if and only if it holds no lock for this node
    * and no retrigger.
    */
  lemma LocksLastIffUndisturbed(rest: seq<Moment>)
    ensures (forall past :: After(IDLE, past + [Retrigger] + rest).held == Since(past)) <==> Undisturbed(rest)
  {
    if Undisturbed(rest) {
      forall past ensures After(IDLE, past + [Retrigger] + rest).held == Since(past) {
        NoteOwnsItsLocks(past, rest);
      }
    } else {
      var lock: Lock := (0, 0);
      var none, one: seq<Moment> := [], [OwnLock(lock)];
      RetriggeredThen(none, rest);
      RetriggeredThen(one, rest);
      Forgets(After(IDLE, none + [Retrigger]), After(IDLE, one + [Retrigger]), rest);
      assert Since(none) == [] && Since(one) == [lock] by { assert one[..0] == []; }
      assert After(IDLE, none + [Retrigger] + rest).held != Since(none)
          || After(IDLE, one + [Retrigger] + rest).held != Since(one);
    }
  }

  /** A lock after a retrigger takes the sounding note's locks away at once, for the note to come. */
  lemma FirstLockReplaces(past: seq<Moment>, lock: Lock, rest: seq<Moment>)
    requires Undisturbed(rest)
    ensures After(IDLE, past + [OwnLock(lock)] + rest).held == Since(past) + [lock]
  {
    PendingIsSince(past);
    Appended(IDLE, past, OwnLock(lock));
    Continues(IDLE, past + [OwnLock(lock)], rest);
    Survives(After(IDLE, past + [OwnLock(lock)]), rest);
  }

  lemma {:induction false} SinceBlockStart(past: seq<Moment>, quiet: seq<Moment>)
    requires forall i | 0 <= i < |quiet| :: quiet[i].Quiet?
    ensures Since(past + [BlockStart] + quiet) == []
  {
    if quiet == [] {
      assert past + [BlockStart] + quiet == past + [BlockStart];
    } else {
      SinceBlockStart(past, quiet[..|quiet| - 1]);
      assert (past + [BlockStart] + quiet)[..|past| + |quiet|] == past + [BlockStart] + quiet[..|quiet| - 1];
    }
  }

  /** A lock left over when its block ends is not handed to the next block's note. */
  lemma BlockEndDropsTheClaim(past: seq<Moment>, quiet: seq<Moment>)
    requires forall i | 0 <= i < |quiet| :: quiet[i].Quiet?
    ensures After(IDLE, past + [BlockStart] + quiet + [Retrigger]).held == []
  {
    var trace := past + [BlockStart] + quiet;
    SinceBlockStart(past, quiet);
    PendingIsSince(trace);
    Appended(IDLE, trace, Retrigger);
  }
}
