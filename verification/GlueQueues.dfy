/** The glue's two queues in place: linked lists whose contents are, after every step, the
    sequences of `Glue`. */
module GlueQueues {
  import opened Glue
  import L = GlueFifo

  /** Steps that leave both queues, and the chain being sent, alone. */
  predicate Elsewhere(s: State, e: Event) {
    match e
    case StartAccess(_, _) => true
    case StartDrain => false
    case IoStep => !s.io.IoPush? && !s.io.IoDrain?
    case StartPoll => false
    case StartReply(_) => true
    case StartSend(_) => true
    case SimStep => !s.sim.SimPush?
  }

  function Sending(s: State): seq<nat> {
    if s.io.IoDrain? then s.io.chain else []
  }

  predicate SameQueues(s: State, t: State) { t.rx == s.rx && t.tx == s.tx && Sending(t) == Sending(s) }

  lemma IoElsewhere(s: State)
    requires !s.io.IoPush? && !s.io.IoDrain?
    ensures SameQueues(s, StepIo(s))
  {
  }

  lemma SimElsewhere(s: State)
    requires !s.sim.SimPush?
    ensures SameQueues(s, StepSim(s))
  {
  }

  lemma ElsewhereKeeps(s: State, e: Event)
    requires Elsewhere(s, e)
    ensures SameQueues(s, Step(s, e))
  {
    hide StepIo, StepSim;
    match e
    case IoStep => IoElsewhere(s);
    case SimStep => SimElsewhere(s);
    case _ =>
  }

  /** A node that is about to be pushed is allocated. */
  lemma PushedAlive(s: State)
    requires Safe(s)
    ensures s.io.IoPush? ==> Alive(s, s.io.id)
    ensures s.sim.SimPush? ==> Alive(s, s.sim.id)
    ensures s.io.IoDrain? && s.io.chain != [] ==> Alive(s, s.io.chain[0])
  {
    if s.io.IoDrain? && s.io.chain != [] {
      assert Is(s, s.io.chain[0], Transmit);
    }
  }

  lemma AccessPushed(s: State, id: nat)
    requires s.io == IoPush(id) && Alive(s, id)
    ensures var t := Step(s, IoStep); t.rx == s.rx + [id] && t.tx == s.tx && Sending(t) == [] == Sending(s)
  {
  }

  lemma WritePushed(s: State, id: nat)
    requires s.sim == SimPush(id) && Alive(s, id)
    ensures var t := Step(s, SimStep); t.tx == s.tx + [id] && t.rx == s.rx && Sending(t) == Sending(s)
  {
  }

  lemma WriteSent(s: State)
    requires s.io.IoDrain? && (s.io.chain != [] ==> Alive(s, s.io.chain[0]))
    ensures
      var t := Step(s, IoStep);
      t.rx == s.rx && t.tx == s.tx && Sending(t) == (if s.io.chain == [] then [] else s.io.chain[1..])
  {
  }

  predicate Apart<T>(a: seq<L.Node<T>>, b: seq<L.Node<T>>) { forall n :: n in a ==> n !in b }

  /** Relinking the last node of a queue leaves lists without its nodes alone. */
  lemma TailApart(f: L.Fifo<nat>, nodes: seq<L.Node<nat>>)
    requires f.Valid() && Apart(f.nodes, nodes)
    ensures forall n :: n in nodes ==> n != f.tail
  {
    assert f.tail != null ==> f.tail in f.nodes;
  }

  /** A list whose nodes are not written stays sound. */
  twostate lemma ListStays(nodes: seq<L.Node<nat>>)
    requires old(L.Chain(nodes)) && forall n :: n in nodes ==> n.next == old(n.next) && n.freed == old(n.freed)
    ensures L.Chain(nodes)
  {
  }

  class Queues {
    const rx: L.Fifo<nat>
    const tx: L.Fifo<nat>
    var position: L.Node?<nat>            // what is left of the chain being sent
    ghost var chain: seq<L.Node<nat>>
    ghost var model: State

    /** The lists are sound, share nothing, and hold what the model says. */
    ghost predicate Valid()
      reads this, rx, tx, rx.nodes, tx.nodes, chain
    {
      && rx != tx && rx.Valid() && tx.Valid() && L.Chain(chain)
      && position == (if chain == [] then null else chain[0])
      && Apart(rx.nodes, tx.nodes) && Apart(rx.nodes, chain) && Apart(tx.nodes, chain)
      && L.Values(rx.nodes) == model.rx && L.Values(tx.nodes) == model.tx && L.Values(chain) == Sending(model)
      && Safe(model)
    }

    constructor (start: State)
      requires Safe(start) && start.rx == [] && start.tx == [] && Sending(start) == []
      ensures Valid() && model == start && fresh(rx) && fresh(tx)
    {
      rx := new L.Fifo();
      tx := new L.Fifo();
      position, chain, model := null, [], start;
    }

    /** The I/O thread pushes the access it has allocated. */
    method PushAccess(id: nat)
      requires Valid() && model.io == IoPush(id)
      modifies this, rx, rx.tail
      ensures Valid() && model == Step(old(model), IoStep)
    {
      hide Safe, L.Chain, L.Values, Step, Sending;
      PushedAlive(model);
      AccessPushed(model, id);
      StepSafe(model, IoStep);
      var n := new L.Node(id);
      L.ValuesAppend(rx.nodes, n);
      TailApart(rx, tx.nodes);
      TailApart(rx, chain);
      label pushed:
      rx.Push(n);
      ListStays@pushed(tx.nodes);
      ListStays@pushed(chain);
      model := Step(model, IoStep);
    }

    /** The simulation thread pops an access, if there is one. */
    method Poll() returns (id: Option<nat>)
      requires Valid() && model.sim == SimReady
      modifies this, rx
      ensures Valid() && model == Step(old(model), StartPoll)
      ensures id == if old(model.rx) == [] then None else Some(old(model.rx)[0])
    {
      hide Safe, L.Chain;
      StepSafe(model, StartPoll);
      var n := rx.Pop();
      id := None;
      if n != null {
        var v := n.Content();
        id := Some(v);
      }
      model := Step(model, StartPoll);
    }

    /** The simulation thread pushes the write it has allocated. */
    method PushWrite(id: nat)
      requires Valid() && model.sim == SimPush(id)
      modifies this, tx, tx.tail
      ensures Valid() && model == Step(old(model), SimStep)
    {
      hide Safe, L.Chain, L.Values, Step, Sending;
      PushedAlive(model);
      WritePushed(model, id);
      StepSafe(model, SimStep);
      var n := new L.Node(id);
      L.ValuesAppend(tx.nodes, n);
      TailApart(tx, rx.nodes);
      TailApart(tx, chain);
      label pushed:
      tx.Push(n);
      ListStays@pushed(rx.nodes);
      ListStays@pushed(chain);
      model := Step(model, SimStep);
    }

    /** The I/O thread takes the whole transmit queue. */
    method TakeWrites()
      requires Valid() && model.io == IoReady
      modifies this, tx
      ensures Valid() && model == Step(old(model), StartDrain)
    {
      hide Safe, L.Chain;
      StepSafe(model, StartDrain);
      position, chain := tx.TakeAll();
      model := Step(model, StartDrain);
    }

    /** The I/O thread sends the next write of the chain and frees its node. */
    method SendNext() returns (id: Option<nat>)
      requires Valid() && model.io.IoDrain?
      modifies this, position
      ensures Valid() && model == Step(old(model), IoStep)
      ensures id == if old(model.io.chain) == [] then None else Some(old(model.io.chain)[0])
      ensures old(position) != null ==> old(position).freed
    {
      hide Safe, L.Chain, L.Values, Step;
      PushedAlive(model);
      WriteSent(model);
      StepSafe(model, IoStep);
      L.ValuesSplit(chain);
      id := None;
      if position != null {
        label sent:
        var v, next := L.SendFirst(position, chain);
        ListStays@sent(rx.nodes);
        ListStays@sent(tx.nodes);
        id, position, chain := Some(v), next, chain[1..];
      }
      model := Step(model, IoStep);
    }

    /** Every other step of either thread. */
    ghost method Other(e: Event)
      requires Valid() && Elsewhere(model, e)
      modifies this`model
      ensures Valid() && model == Step(old(model), e)
    {
      hide Safe, L.Chain, L.Values, Elsewhere, Sending, Step;
      StepSafe(model, e);
      ElsewhereKeeps(model, e);
      model := Step(model, e);
    }
  }
}
