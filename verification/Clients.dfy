/** The fixed table of connected clients, and what a client has been sent. */
module Clients {
  import opened Wrappers
  import opened StateBus

  const MAX_CLIENTS: nat := 4

  datatype RgbColor = RgbColor(r: nat, g: nat, b: nat)
  datatype LedMsg = LedMsg(id: nat, color: RgbColor)

  datatype Frame =
    | State(updates: map<string, real>)
    | Context(snapshot: ContextSnapshot)
    | Led(msgs: seq<LedMsg>)

  /** A frame as queued on a client's channel; `replay` marks those sent to one newcomer only. */
  datatype Sent = Sent(frame: Frame, replay: bool)

  /** A connected client: everything queued on its channel so far, and its two replay flags. */
  datatype Client = Client(sent: seq<Sent>, needsReplay: bool, needsStateReplay: bool)

  type Slots = seq<Option<Client>>

  datatype ClientEvent = Connect | Disconnect(idx: nat)

  // ── What a client shows after reading its channel ──────────────────────────

  function StateView(sent: seq<Sent>): map<string, real> {
    if sent == [] then map[]
    else
      var rest := StateView(sent[..|sent| - 1]);
      var last := sent[|sent| - 1].frame;
      if last.State? then rest + last.updates else rest
  }

  function LastContext(sent: seq<Sent>): Option<ContextSnapshot> {
    if sent == [] then None
    else
      var last := sent[|sent| - 1].frame;
      if last.Context? then Some(last.snapshot) else LastContext(sent[..|sent| - 1])
  }

  function ApplyLeds(view: map<nat, RgbColor>, msgs: seq<LedMsg>): map<nat, RgbColor> {
    if msgs == [] then view
    else
      var last := msgs[|msgs| - 1];
      ApplyLeds(view, msgs[..|msgs| - 1])[last.id := last.color]
  }

  function LedView(sent: seq<Sent>): map<nat, RgbColor> {
    if sent == [] then map[]
    else
      var rest := LedView(sent[..|sent| - 1]);
      var last := sent[|sent| - 1].frame;
      if last.Led? then ApplyLeds(rest, last.msgs) else rest
  }

  /** How many replays of one kind the client was sent: LED surfaces, or context snapshots. */
  function Replays(sent: seq<Sent>, led: bool): nat {
    if sent == [] then 0
    else
      var last := sent[|sent| - 1];
      Replays(sent[..|sent| - 1],
        led) + if last.replay && (if led then last.frame.Led? else last.frame.Context?) then 1 else 0
  }

  lemma ViewsAfter(sent: seq<Sent>, s: Sent)
    ensures StateView(sent + [s]) == if s.frame.State? then StateView(sent) + s.frame.updates else StateView(sent)
    ensures LastContext(sent + [s]) == if s.frame.Context? then Some(s.frame.snapshot) else LastContext(sent)
    ensures LedView(sent + [s]) == if s.frame.Led? then ApplyLeds(LedView(sent), s.frame.msgs) else LedView(sent)
    ensures Replays(sent + [s], true) == Replays(sent, true) + if s.replay && s.frame.Led? then 1 else 0
    ensures Replays(sent + [s], false) == Replays(sent, false) + if s.replay && s.frame.Context? then 1 else 0
  {
    assert (sent + [s])[..|sent|] == sent;
  }

  // ── Table operations as functions of the slots ─────────────────────────────

  const FRESH := Client([], true, true)

  function Queue(c: Client, frame: Frame, replay: bool): Client {
    c.(sent := c.sent + [Sent(frame, replay)])
  }

  function QueueAll(c: Client, frames: seq<Frame>): Client
    decreases |frames|
  {
    if frames == [] then c else QueueAll(Queue(c, frames[0], true), frames[1..])
  }

  function FirstFree(slots: Slots): (idx: nat)
    ensures idx <= |slots|
    ensures idx < |slots| ==> slots[idx].None?
    ensures forall i | 0 <= i < idx :: slots[i].Some?
  {
    if slots == [] || slots[0].None? then 0 else 1 + FirstFree(slots[1..])
  }

  function Interfered(slots: Slots, ev: ClientEvent): (r: Slots)
    ensures |r| == |slots|
  {
    match ev
    case Connect =>
      var idx := FirstFree(slots);
      if idx < |slots| then slots[idx := Some(FRESH)] else slots
    case Disconnect(idx) =>
      if idx < |slots| then slots[idx := None] else slots
  }

  function InterferedBy(slots: Slots, evs: seq<ClientEvent>): (r: Slots)
    ensures |r| == |slots|
    decreases |evs|
  {
    if evs == [] then slots else InterferedBy(Interfered(slots, evs[0]), evs[1..])
  }

  function Broadcast(slots: Slots, frame: Frame): Slots {
    seq(|slots|, i requires 0 <= i < |slots| => if slots[i].None? then None else Some(Queue(slots[i].value, frame,
      false)))
  }

  predicate StateReplayPending(slots: Slots) {
    exists i | 0 <= i < |slots| :: slots[i].Some? && slots[i].value.needsStateReplay
  }

  function StateReplayed(slots: Slots, frames: seq<Frame>): Slots {
    seq(|slots|, i requires 0 <= i < |slots| =>
      if slots[i].Some? && slots[i].value.needsStateReplay
      then Some(QueueAll(slots[i].value, frames).(needsStateReplay := false)) else slots[i])
  }

  function LedReplayed(slots: Slots, frame: Frame): Slots {
    seq(|slots|, i requires 0 <= i < |slots| =>
      if slots[i].Some? && slots[i].value.needsReplay
      then Some(Queue(slots[i].value, frame, true).(needsReplay := false)) else slots[i])
  }

  // ── The table itself ───────────────────────────────────────────────────────

  lemma FirstFreeIs(slots: Slots, idx: nat)
    requires idx <= |slots|
    requires forall i | 0 <= i < idx :: slots[i].Some?
    requires idx < |slots| ==> slots[idx].None?
    ensures FirstFree(slots) == idx
  {
  }

  class ClientTable {
    const slots: array<Option<Client>>

    constructor ()
      ensures fresh(slots) && slots.Length == MAX_CLIENTS
      ensures slots[..] == seq(MAX_CLIENTS, _ => None)
    {
      slots := new Option<Client>[MAX_CLIENTS](_ => None);
    }

    method Allocate() returns (slot: Option<nat>)
      modifies slots
      ensures slots[..] == Interfered(old(slots[..]), Connect)
      ensures slot == None <==> forall i | 0 <= i < slots.Length :: old(slots[i]).Some?
      ensures slot.Some? ==>
        slot.value < slots.Length && old(slots[slot.value]).None? && slots[slot.value] == Some(FRESH)
      ensures slot.Some? ==> forall i | 0 <= i < slots.Length && i != slot.value :: slots[i] == old(slots[i])
    {
      var idx := 0;
      while idx < slots.Length && slots[idx].Some?
        invariant 0 <= idx <= slots.Length
        invariant forall i | 0 <= i < idx :: slots[i].Some?
      {
        idx := idx + 1;
      }
      FirstFreeIs(slots[..], idx);
      if idx == slots.Length {
        return None;
      }
      slots[idx] := Some(FRESH);
      slot := Some(idx);
    }

    method Free(idx: nat)
      modifies slots
      ensures slots[..] == Interfered(old(slots[..]), Disconnect(idx))
    {
      if idx < slots.Length {
        slots[idx] := None;
      }
    }

    /** The other threads' allocations and releases between two lock acquisitions. */
    method Interfere(evs: seq<ClientEvent>)
      modifies slots
      ensures slots[..] == InterferedBy(old(slots[..]), evs)
    {
      ghost var was := slots[..];
      for n := 0 to |evs|
        invariant InterferedBy(was, evs) == InterferedBy(slots[..], evs[n..])
      {
        match evs[n] {
          case Connect => var _ := Allocate();
          case Disconnect(idx) => Free(idx);
        }
        assert evs[n..][1..] == evs[n + 1..];
      }
    }

    method SendToAll(frame: Frame)
      modifies slots
      ensures slots[..] == Broadcast(old(slots[..]), frame)
    {
      for i := 0 to slots.Length
        invariant forall k | 0 <= k < i :: slots[k] == Broadcast(old(slots[..]), frame)[k]
        invariant forall k | i <= k < slots.Length :: slots[k] == old(slots[k])
      {
        if slots[i].Some? {
          slots[i] := Some(Queue(slots[i].value, frame, false));
        }
      }
    }

    method AnyStateReplayPending() returns (any: bool)
      ensures any == StateReplayPending(slots[..])
    {
      any := exists i | 0 <= i < slots.Length :: slots[i].Some? && slots[i].value.needsStateReplay;
    }

    method ReplayStateToPending(frames: seq<Frame>)
      modifies slots
      ensures slots[..] == StateReplayed(old(slots[..]), frames)
    {
      for i := 0 to slots.Length
        invariant forall k | 0 <= k < i :: slots[k] == StateReplayed(old(slots[..]), frames)[k]
        invariant forall k | i <= k < slots.Length :: slots[k] == old(slots[k])
      {
        if slots[i].Some? && slots[i].value.needsStateReplay {
          slots[i] := Some(QueueAll(slots[i].value, frames).(needsStateReplay := false));
        }
      }
    }

    method ReplayLedsToPending(frame: Frame)
      modifies slots
      ensures slots[..] == LedReplayed(old(slots[..]), frame)
    {
      for i := 0 to slots.Length
        invariant forall k | 0 <= k < i :: slots[k] == LedReplayed(old(slots[..]), frame)[k]
        invariant forall k | i <= k < slots.Length :: slots[k] == old(slots[k])
      {
        if slots[i].Some? && slots[i].value.needsReplay {
          slots[i] := Some(Queue(slots[i].value, frame, true).(needsReplay := false));
        }
      }
    }
  }
}
