/** What a block's own events and commands leave in force, told without the lock logic's own terms. */
module BlockLocks {
  import Params = ParameterBank
  import opened ParamLocks

  /** The locks among these events that are for the node, in order. */
  function OwnLocks(es: seq<Event>, node: nat): seq<Lock> {
    if es == [] then []
    else
      var e := es[|es| - 1];
      OwnLocks(es[..|es| - 1], node) + if e.ParamLock? && e.node == node then [(e.param, e.value)] else []
  }

  predicate NoNote(es: seq<Event>) {
    forall i | 0 <= i < |es| :: es[i] != NoteOn
  }

  predicate Triggered(cs: seq<Params.Command>) {
    exists i | 0 <= i < |cs| :: cs[i].typeId == 19
  }

  function Block(cs: seq<Params.Command>, es: seq<Event>, node: nat, before: Locks): Locks {
    After(before, BlockMoments(cs, es, node))
  }

  lemma {:induction false} EventsJoin(a: seq<Event>, b: seq<Event>, node: nat)
    ensures EventMoments(a + b, node) == EventMoments(a, node) + EventMoments(b, node)
    decreases |b|
  {
    if b == [] {
      assert a + b == a;
    } else {
      EventsJoin(a, b[..|b| - 1], node);
      assert (a + b)[..|a + b| - 1] == a + b[..|b| - 1];
    }
  }

  lemma EventsAfter(l: Locks, a: seq<Event>, b: seq<Event>, node: nat)
    ensures After(l, EventMoments(a + b, node)) == After(After(l, EventMoments(a, node)), EventMoments(b, node))
  {
    EventsJoin(a, b, node);
    Continues(l, EventMoments(a, node), EventMoments(b, node));
  }

  /** Commands come first, and a trigger command leaves nothing in force. */
  lemma {:induction false} CommandsLeave(l: Locks, cs: seq<Params.Command>)
    requires !l.pending
    ensures After(l, CommandMoments(cs)) == if Triggered(cs) then Locks([], false) else l
  {
    if cs == [] {
    } else {
      var front, last := cs[..|cs| - 1], cs[|cs| - 1];
      CommandsLeave(l, front);
      assert Triggered(cs) <==> Triggered(front) || last.typeId == 19 by {
        assert cs == front + [last];
        if Triggered(front) {
          var i :| 0 <= i < |front| && front[i].typeId == 19;
          assert cs[i].typeId == 19;
        }
      }
    }
  }

  /** A stretch without a note: its own locks, if it has any, replace what was in force. */
  lemma {:induction false} StretchLeaves(l: Locks, es: seq<Event>, node: nat)
    requires !l.pending && NoNote(es)
    ensures After(l, EventMoments(es, node)) == if OwnLocks(es, node) == [] then l else Locks(OwnLocks(es, node), true)
  {
    if es == [] {
    } else {
      var front := es[..|es| - 1];
      assert NoNote(front);
      StretchLeaves(l, front, node);
    }
  }

  /** After a note nothing is pending. */
  lemma NoteSettles(l: Locks, es: seq<Event>, node: nat)
    requires es != [] && es[|es| - 1] == NoteOn
    ensures !After(l, EventMoments(es, node)).pending
  {
  }

  /** Where the events begin: nothing pending, and in force what was, or nothing if a command triggered. */
  lemma EventsBegin(cs: seq<Params.Command>, es: seq<Event>, node: nat, before: Locks)
    ensures Block(cs, es, node, before)
      == After(Locks(if Triggered(cs) then [] else before.held, false), EventMoments(es, node))
  {
    var begun := [BlockStart] + CommandMoments(cs);
    assert [BlockStart][..0] == [];
    assert After(before, [BlockStart]) == before.(pending := false);
    Continues(before, [BlockStart], CommandMoments(cs));
    CommandsLeave(before.(pending := false), cs);
    Continues(before, begun, EventMoments(es, node));
  }

  lemma AfterPart(l: Locks, es: seq<Event>, node: nat, k: nat)
    requires !l.pending && k <= |es| && (k > 0 ==> es[k - 1] == NoteOn)
    ensures !After(l, EventMoments(es[..k], node)).pending
    ensures After(l, EventMoments(es, node)) == After(After(l, EventMoments(es[..k], node)), EventMoments(es[k..],
      node))
  {
    assert es == es[..k] + es[k..];
    EventsAfter(l, es[..k], es[k..], node);
    if k > 0 { NoteSettles(l, es[..k], node); }
  }

  /** Own locks after the last note, if it has one, are what is in force. */
  lemma LocksAfterTheNotes(cs: seq<Params.Command>, es: seq<Event>, node: nat, before: Locks, k: nat)
    requires k <= |es| && (k > 0 ==> es[k - 1] == NoteOn) && NoNote(es[k..]) && OwnLocks(es[k..], node) != []
    ensures Block(cs, es, node, before).held == OwnLocks(es[k..], node)
  {
    var l := Locks(if Triggered(cs) then [] else before.held, false);
    EventsBegin(cs, es, node, before);
    AfterPart(l, es, node, k);
    StretchLeaves(After(l, EventMoments(es[..k], node)), es[k..], node);
  }

  /**
    * A block whose last trigger is the note at `t`, with no own lock after it: in force are exactly the
    * node's locks between the trigger before, or the block's start, and that note, in order.
    */
  lemma NoteTakesItsLocks(cs: seq<Params.Command>, es: seq<Event>, node: nat, before: Locks, k: nat, t: nat)
    requires k <= t < |es| && es[t] == NoteOn && (k > 0 ==> es[k - 1] == NoteOn)
    requires NoNote(es[k..t]) && NoNote(es[t + 1..]) && OwnLocks(es[t + 1..], node) == []
    ensures Block(cs, es, node, before).held == OwnLocks(es[k..t], node)
  {
    var l := Locks(if Triggered(cs) then [] else before.held, false);
    EventsBegin(cs, es, node, before);
    AfterPart(l, es, node, t + 1);
    var upTo := es[..t + 1];
    assert upTo[..k] == es[..k] && upTo[k..] == es[k..t] + [es[t]];
    AfterPart(l, upTo, node, k);
    var l0 := After(l, EventMoments(es[..k], node));
    StretchLeaves(l0, es[k..t], node);
    EventsAfter(l0, es[k..t], [es[t]], node);
    assert EventMoments([NoteOn], node) == [Retrigger] by { assert [NoteOn][..0] == []; }
    assert [Retrigger][..0] == [];
    StretchLeaves(After(l, EventMoments(upTo, node)), es[t + 1..], node);
  }

  /** A block without notes or own locks leaves in force what was, or nothing if a command triggered. */
  lemma QuietBlock(cs: seq<Params.Command>, es: seq<Event>, node: nat, before: Locks)
    requires NoNote(es) && OwnLocks(es, node) == []
    ensures Block(cs, es, node, before).held == if Triggered(cs) then [] else before.held
  {
    EventsBegin(cs, es, node, before);
    StretchLeaves(Locks(if Triggered(cs) then [] else before.held, false), es, node);
  }

  /** A lock for another node changes nothing, wherever it stands. */
  lemma OthersLocksPass(cs: seq<Params.Command>, a: seq<Event>, b: seq<Event>, node: nat, before: Locks,
      other: nat, param: Params.U32, value: Params.F64)
    requires other != node
    ensures Block(cs, a + [ParamLock(other, param, value)] + b, node, before) == Block(cs, a + b, node, before)
  {
    var e := ParamLock(other, param, value);
    var l := Locks(if Triggered(cs) then [] else before.held, false);
    EventsBegin(cs, a + [e] + b, node, before);
    EventsBegin(cs, a + b, node, before);
    EventsAfter(l, a + [e], b, node);
    EventsAfter(l, a, [e], node);
    EventsAfter(l, a, b, node);
    assert EventMoments([e], node) == [Quiet] by { assert [e][..0] == []; }
    assert [Quiet][..0] == [];
  }
}
