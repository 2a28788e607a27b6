/** LED broadcast: a shadow of every control's colour, replayed whole to newcomers. */
module Kerygma {
  import opened Clients

  const SHADOW_SLOTS: nat := 98
  const OFF := RgbColor(0, 0, 0)

  type LedUpdate = LedMsg

  /** The ids between the pads and the encoders, which no replay carries. */
  predicate InGap(id: nat) { 80 <= id < 90 }

  function ShadowAfter(shadow: seq<RgbColor>, updates: seq<LedUpdate>): (r: seq<RgbColor>)
    ensures |r| == |shadow|
  {
    if updates == [] then shadow
    else
      var u := updates[|updates| - 1];
      var r := ShadowAfter(shadow, updates[..|updates| - 1]);
      if u.id < |r| then r[u.id := u.color] else r
  }

  /** The updates that name a known control, in order. */
  function Known(updates: seq<LedUpdate>): seq<LedMsg> {
    if updates == [] then []
    else
      var u := updates[|updates| - 1];
      Known(updates[..|updates| - 1]) + if u.id < SHADOW_SLOTS then [u] else []
  }

  function LedBroadcast(slots: Slots, updates: seq<LedUpdate>): Slots {
    if Known(updates) == [] then slots else Broadcast(slots, Led(Known(updates)))
  }

  /** The whole surface below id `k`, gap excluded. */
  function Surface(shadow: seq<RgbColor>, k: nat): seq<LedMsg>
    requires k <= |shadow|
  {
    if k == 0 then []
    else Surface(shadow, k - 1) + if InGap(k - 1) then [] else [LedMsg(k - 1, shadow[k - 1])]
  }

  ghost predicate LedAgrees(view: map<nat, RgbColor>, shadow: seq<RgbColor>, k: nat)
    requires k <= |shadow|
  {
    forall id: nat | id < k && !InGap(id) :: id in view && view[id] == shadow[id]
  }

  lemma ApplyLast(view: map<nat, RgbColor>, msgs: seq<LedMsg>, last: LedMsg)
    ensures ApplyLeds(view, msgs + [last]) == ApplyLeds(view, msgs)[last.id := last.color]
  {
    assert (msgs + [last])[..|msgs|] == msgs;
  }

  lemma {:induction false} BroadcastAgrees(view: map<nat, RgbColor>, shadow: seq<RgbColor>, updates: seq<LedUpdate>)
    requires |shadow| == SHADOW_SLOTS && LedAgrees(view, shadow, SHADOW_SLOTS)
    ensures LedAgrees(ApplyLeds(view, Known(updates)), ShadowAfter(shadow, updates), SHADOW_SLOTS)
  {
    if updates == [] {
    } else {
      var u, rest := updates[|updates| - 1], updates[..|updates| - 1];
      BroadcastAgrees(view, shadow, rest);
      if u.id < SHADOW_SLOTS {
        ApplyLast(view, Known(rest), u);
      } else {
        assert Known(updates) == Known(rest);
      }
    }
  }

  lemma AgreesOnOne(view: map<nat, RgbColor>, shadow: seq<RgbColor>, k: nat)
    requires k < |shadow| && LedAgrees(view, shadow, k)
    ensures LedAgrees(view[k := shadow[k]], shadow, k + 1)
    ensures InGap(k) ==> LedAgrees(view, shadow, k + 1)
  {
  }

  /** A replay fixes every control outside the gap, whatever the client showed before. */
  lemma {:induction false} SurfaceAgrees(view: map<nat, RgbColor>, shadow: seq<RgbColor>, k: nat)
    requires k <= |shadow|
    ensures LedAgrees(ApplyLeds(view, Surface(shadow, k)), shadow, k)
  {
    if k == 0 {
    } else {
      var before := ApplyLeds(view, Surface(shadow, k - 1));
      assert LedAgrees(before, shadow, k - 1) by { SurfaceAgrees(view, shadow, k - 1); }
      AgreesOnOne(before, shadow, k - 1);
      if InGap(k - 1) {
        assert Surface(shadow, k) == Surface(shadow, k - 1);
      } else {
        ApplyLast(view, Surface(shadow, k - 1), LedMsg(k - 1, shadow[k - 1]));
      }
    }
  }

  class Kerygma {
    const clients: ClientTable
    const shadow: array<RgbColor>

    constructor (clients: ClientTable)
      ensures this.clients == clients && fresh(shadow)
      ensures shadow[..] == seq(SHADOW_SLOTS, _ => OFF)
    {
      this.clients := clients;
      shadow := new RgbColor[SHADOW_SLOTS](_ => OFF);
    }

    method BroadcastLedUpdates(updates: seq<LedUpdate>, evs: seq<ClientEvent>)
      requires shadow.Length == SHADOW_SLOTS
      modifies shadow, clients.slots
      ensures shadow[..] == ShadowAfter(old(shadow[..]), updates)
      ensures clients.slots[..] == LedBroadcast(InterferedBy(old(clients.slots[..]), evs), updates)
    {
      clients.Interfere(evs);
      if |updates| == 0 {
        return;
      }
      ghost var was, before := shadow[..], clients.slots[..];
      var msgs: seq<LedMsg> := [];
      for n := 0 to |updates|
        invariant shadow[..] == ShadowAfter(was, updates[..n])
        invariant msgs == Known(updates[..n])
        invariant clients.slots[..] == before
      {
        var u := updates[n];
        assert updates[..n + 1][..n] == updates[..n];
        if u.id < SHADOW_SLOTS {
          shadow[u.id] := u.color;
          msgs := msgs + [u];
        }
      }
      assert updates[..|updates|] == updates;
      if |msgs| == 0 {
        return;
      }
      clients.SendToAll(Led(msgs));
    }

    method ServiceReplays(evs: seq<ClientEvent>)
      modifies clients.slots
      ensures clients.slots[..] == LedReplayed(InterferedBy(old(clients.slots[..]), evs), Led(Surface(old(shadow[..]),
        shadow.Length)))
    {
      clients.Interfere(evs);
      ghost var surface := shadow[..];
      var msgs: seq<LedMsg> := [];
      for id := 0 to shadow.Length
        invariant msgs == Surface(surface, id)
      {
        if !InGap(id) {
          msgs := msgs + [LedMsg(id, shadow[id])];
        }
      }
      clients.ReplayLedsToPending(Led(msgs));
    }
  }
}
