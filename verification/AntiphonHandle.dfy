/** The main thread's handle: the pump that mirrors the state bus to every client. */
module Antiphon {
  import opened Wrappers
  import opened StateBus
  import opened Clients
  import opened Mirror

  class AntiphonHandle {
    const clients: ClientTable
    const machineSelectPaths: Watched
    var stateShadow: map<string, real>
    var pending: map<string, real>
    var contextShadow: Bus
    var lastFlushMs: Option<nat>
    var contextDirty: bool
    var kitsLine: string
    var selections: map<nat, nat>

    constructor (clients: ClientTable, machineSelectPaths: Watched)
      ensures this.clients == clients && this.machineSelectPaths == machineSelectPaths
      ensures Value() == Mirror(map[], map[], map[], false, None, "", map[], clients.slots[..])
    {
      this.clients := clients;
      this.machineSelectPaths := machineSelectPaths;
      stateShadow, pending, contextShadow := map[], map[], map[];
      lastFlushMs, contextDirty, kitsLine, selections := None, false, "", map[];
    }

    ghost function Value(): Mirror
      reads this, clients.slots
    {
      Mirror(stateShadow, pending, contextShadow, contextDirty, lastFlushMs, kitsLine, selections, clients.slots[..])
    }

    /** Locks the client table once the other threads' steps `evs` have happened. */
    method FlushStateBatch(evs: seq<ClientEvent>)
      modifies this`pending, clients.slots
      ensures Value() == Flushed(Interrupted(old(Value()), evs))
    {
      clients.Interfere(evs);
      if |pending| == 0 {
        return;
      }
      clients.SendToAll(State(pending));
      pending := map[];
    }

    method ServiceStateReplays(bus: Bus, order: seq<string>, evs: seq<ClientEvent>)
      requires IsOrder(order, bus)
      modifies clients.slots
      ensures Value() == Replayed(Interrupted(old(Value()), evs), Snapshot(bus))
    {
      clients.Interfere(evs);
      var any := clients.AnyStateReplayPending();
      if !any {
        return;
      }
      var frames := if |stateShadow| == 0 then [] else [State(stateShadow)];
      var snapshot := BuildContextFrame(bus, order);
      clients.ReplayStateToPending(frames + [Context(snapshot)]);
      assert frames + [Context(snapshot)] == ReplayFrames(stateShadow, snapshot);
    }

    method FlushContextSnapshot(bus: Bus, order: seq<string>, evs: seq<ClientEvent>)
      requires IsOrder(order, bus)
      modifies clients.slots
      ensures Value() == (var m := Interrupted(old(Value()), evs); m.(slots := Broadcast(m.slots,
        Context(Snapshot(bus)))))
    {
      var snapshot := BuildContextFrame(bus, order);
      clients.Interfere(evs);
      clients.SendToAll(Context(snapshot));
    }

    method SeeContext(path: string, value: BusValue)
      modifies this`contextShadow, this`contextDirty, this`kitsLine
      ensures Value() == ContextSeen(old(Value()), path, value)
    {
      if !(path in contextShadow && contextShadow[path] == value) {
        contextShadow := contextShadow[path := value];
        contextDirty := true;
        if path == KITS_PATH && value.Text? {
          kitsLine := value.s;
        }
      }
    }

    method SeeNumber(path: string, coerced: real) returns (changed: bool)
      modifies this`stateShadow, this`pending, this`selections
      ensures changed == !(path in old(stateShadow) && old(stateShadow)[path] == coerced)
      ensures Value() == if changed then NumberSeen(old(Value()), machineSelectPaths, path, coerced) else old(Value())
    {
      changed := !(path in stateShadow && stateShadow[path] == coerced);
      if changed {
        stateShadow := stateShadow[path := coerced];
        pending := pending[path := coerced];
        if path in machineSelectPaths && coerced >= 0.0 {
          selections := selections[machineSelectPaths[path] := ToU32(coerced)];
        }
      }
    }

    /** The body of the scan loop for one path. */
    method Observe(path: string, value: BusValue, evs: seq<ClientEvent>)
      modifies this`stateShadow, this`pending, this`contextShadow, this`contextDirty, this`kitsLine, this`selections
      modifies clients.slots
      ensures Value() == Scanned(old(Value()), machineSelectPaths, path, value, evs)
    {
      if IsContext(path) {
        SeeContext(path, value);
        clients.Interfere(evs);
      } else if !IsMirrored(path) || value.Text? {
        clients.Interfere(evs);
      } else {
        var changed := SeeNumber(path, Coerce(value));
        if changed && |pending| >= BATCH_CAP {
          FlushStateBatch(evs);
        } else {
          clients.Interfere(evs);
        }
      }
    }

    /** The flushes that end a pump, when they are due. */
    method CloseTick(bus: Bus, order: seq<string>, nowMs: nat, beforeState: seq<ClientEvent>,
        beforeContext: seq<ClientEvent>)
      requires IsOrder(order, bus)
      modifies this`pending, this`contextDirty, this`lastFlushMs, clients.slots
      ensures Value() == Closed(old(Value()), Snapshot(bus), beforeState, beforeContext, nowMs)
    {
      var due := match lastFlushMs
        case None => true
        case Some(last) => (if nowMs >= last then nowMs - last else 0) >= FLUSH_MS;
      if due {
        FlushStateBatch(beforeState);
        if contextDirty {
          FlushContextSnapshot(bus, order, beforeContext);
          contextDirty := false;
        } else {
          clients.Interfere(beforeContext);
        }
        lastFlushMs := Some(nowMs);
      }
    }

    method Pump(bus: Bus, order: seq<string>, nowMs: nat, env: seq<seq<ClientEvent>>)
      requires IsOrder(order, bus) && |env| == |order| + 3
      modifies this, clients.slots
      ensures Value() == Pumped(old(Value()), machineSelectPaths, bus, order, env, nowMs)
    {
      ServiceStateReplays(bus, order, env[0]);
      ghost var served := Value();
      for n := 0 to |order|
        invariant Value() == ScannedTo(served, machineSelectPaths, bus, order, env, n)
      {
        Observe(order[n], bus[order[n]], env[n + 1]);
      }
      CloseTick(bus, order, nowMs, env[|order| + 1], env[|order| + 2]);
    }
  }
}
