/** The rendezvous of the glue's two threads, step by step.

    The I/O thread turns bar accesses into nodes and spins on a read until it is replied;
    it also sends the nodes of the transmit queue.  The simulation thread polls for
    accesses, replies, and queues writes.  Every access to shared memory is a step of its
    own, except that a critical section is one step. */
module Glue {
  datatype Option<T> = None | Some(value: T)

  datatype Kind = Read | Write | Transmit

  datatype Node = Node(kind: Kind, data: nat, replied: bool)

  /** Where the I/O thread is. */
  datatype Io =
    | IoReady
    | IoPush(id: nat)                 // a node is allocated and not yet pushed
    | IoSpin(id: nat)                 // waiting for is_replied
    | IoCopy(id: nat)                 // about to copy the reply
    | IoFree(id: nat, data: nat)      // about to free the node
    | IoDrain(chain: seq<nat>)        // sending what was taken from the transmit queue

  /** Where the simulation thread is. */
  datatype Sim =
    | SimReady
    | SimGot(id: nat)                            // popped from the receive queue
    | SimFree(id: nat)                           // a write was handed over
    | SimPush(id: nat)                           // a transmit node is allocated
    | SimLoaded(node: Option<nat>, data: nat)    // reply_node was read
    | SimCleared(id: nat, data: nat)             // reply_node was cleared
    | SimStored(id: nat)                         // the data was stored

  /** What the simulation sees and does. */
  datatype Seen = Got(id: nat) | Replied(data: nat)

  /** Writes of the simulation that had been queued and sent when an access began. */
  datatype Mark = Mark(queued: nat, sent: nat)

  /** A read that has returned, with the writes that had been sent by then. */
  datatype Return = Return(id: nat, began: Mark, sent: nat)

  /** An access that the machine has made, with its node, as it was made or as the
      simulation got it; `data` stands for address, size and data. */
  datatype Made = Made(id: nat, kind: Kind, data: nat)

  datatype State = State(
    live: map<nat, Node>, next: nat,             // allocated nodes; identities are not reused
    rx: seq<nat>, tx: seq<nat>, replyNode: Option<nat>,
    io: Io, sim: Sim,
    fault: bool,                                 // a freed node was touched or freed again
    doubled: bool,                               // the "reply_node != NULL" branch was taken
    pushed: seq<nat>, polled: seq<nat>,          // history of the receive queue
    queued: seq<nat>, sent: seq<nat>,            // history of the transmit queue
    seen: seq<Seen>, results: seq<(nat, nat)>,   // reads returned, with their data
    began: Mark, returned: seq<Return>,          // when the present access began; reads returned
    made: seq<Made>, got: seq<Made>,             // accesses made, and as the simulation got them
    written: seq<nat>, wire: seq<nat>)           // data of the writes queued, and as it was sent

  datatype Event =
    | StartAccess(read: bool, data: nat)   // I/O thread: on_bar_read or on_bar_write is called
    | StartDrain                           // I/O thread: a push event
    | IoStep
    | StartPoll                            // simulation thread
    | StartReply(data: nat)
    | StartSend(data: nat)
    | SimStep

  predicate Alive(s: State, id: nat) { id in s.live }

  function Fault(s: State): State { s.(fault := true) }

  function Free(s: State, id: nat): State {
    if Alive(s, id) then s.(live := s.live - {id}) else Fault(s)
  }

  function Alloc(s: State, n: Node): State {
    s.(live := s.live[s.next := n], next := s.next + 1)
  }

  /** The I/O thread handles an access. */
  function StepAccess(s: State): State {
    match s.io
    case IoPush(id) =>
      if !Alive(s, id) then Fault(s)
      else
        var t := s.(rx := s.rx + [id], pushed := s.pushed + [id]);
        t.(io := if s.live[id].kind == Read then IoSpin(id) else IoReady)
    case IoSpin(id) =>
      if !Alive(s, id) then Fault(s)
      else if s.live[id].replied then s.(io := IoCopy(id)) else s
    case IoCopy(id) =>
      if !Alive(s, id) then Fault(s) else s.(io := IoFree(id, s.live[id].data))
    case IoFree(id, data) =>
      Free(s, id).(io := IoReady, results := s.results + [(id, data)],
                   returned := s.returned + [Return(id, s.began, |s.sent|)])
    case _ => s
  }

  /** The I/O thread sends the next write of the chain it has taken. */
  function StepDrain(s: State, chain: seq<nat>): State {
    if chain == [] then s.(io := IoReady)
    else Free(s, chain[0]).(io := IoDrain(chain[1..]), sent := s.sent + [chain[0]],
                            wire := s.wire + (if Alive(s, chain[0]) then [s.live[chain[0]].data] else []))
  }

  function StepIo(s: State): State {
    match s.io
    case IoReady => s
    case IoPush(_) => StepAccess(s)
    case IoSpin(_) => StepAccess(s)
    case IoCopy(_) => StepAccess(s)
    case IoFree(_, _) => StepAccess(s)
    case IoDrain(chain) => StepDrain(s, chain)
  }

  /** The simulation thread hands over an access, or queues a write. */
  function StepHand(s: State): State {
    match s.sim
    case SimGot(id) =>
      if !Alive(s, id) then Fault(s)
      else if s.live[id].kind == Write
        then s.(sim := SimFree(id), got := s.got + [Made(id, Write, s.live[id].data)])
      else if s.replyNode != None then Free(s, id).(sim := SimReady, doubled := true)
      else s.(sim := SimReady, replyNode := Some(id), seen := s.seen + [Got(id)],
              got := s.got + [Made(id, s.live[id].kind, s.live[id].data)])
    case SimFree(id) => Free(s, id).(sim := SimReady)
    case SimPush(id) =>
      if !Alive(s, id) then Fault(s)
      else s.(sim := SimReady, tx := s.tx + [id], queued := s.queued + [id])
    case _ => s
  }

  /** The simulation thread replies. */
  function StepReply(s: State): State {
    match s.sim
    case SimLoaded(node, data) =>
      (match node
       case None => s.(sim := SimReady)
       case Some(id) => s.(sim := SimCleared(id, data), replyNode := None))
    case SimCleared(id, data) =>
      if !Alive(s, id) then Fault(s)
      else s.(sim := SimStored(id), live := s.live[id := s.live[id].(data := data)])
    case SimStored(id) =>
      if !Alive(s, id) then Fault(s)
      else s.(sim := SimReady, live := s.live[id := s.live[id].(replied := true)])
    case _ => s
  }

  function StepSim(s: State): State {
    match s.sim
    case SimReady => s
    case SimGot(_) => StepHand(s)
    case SimFree(_) => StepHand(s)
    case SimPush(_) => StepHand(s)
    case SimLoaded(_, _) => StepReply(s)
    case SimCleared(_, _) => StepReply(s)
    case SimStored(_) => StepReply(s)
  }

  /** An event that its thread is not ready for changes nothing. */
  function Step(s: State, e: Event): State {
    match e
    case StartAccess(read, data) =>
      if s.io != IoReady then s
      else
        var kind := if read then Read else Write;
        Alloc(s, Node(kind, data, false))
          .(io := IoPush(s.next), began := Mark(|s.queued|, |s.sent|), made := s.made + [Made(s.next, kind, data)])
    case StartDrain => if s.io != IoReady then s else s.(io := IoDrain(s.tx), tx := [])
    case IoStep => StepIo(s)
    case StartPoll =>
      if s.sim != SimReady || s.rx == [] then s
      else s.(sim := SimGot(s.rx[0]), rx := s.rx[1..], polled := s.polled + [s.rx[0]])
    case StartReply(data) =>
      if s.sim != SimReady then s else s.(sim := SimLoaded(s.replyNode, data), seen := s.seen + [Replied(data)])
    case StartSend(data) =>
      if s.sim != SimReady then s
      else Alloc(s, Node(Transmit, data, false)).(sim := SimPush(s.next), written := s.written + [data])
    case SimStep => StepSim(s)
  }

  // ---------------------------------------------------------------------------
  // Every node is in one place
  // ---------------------------------------------------------------------------

  function One(here: bool): nat { if here then 1 else 0 }

  function Occurs(l: seq<nat>, id: nat): nat { multiset(l)[id] }

  function AtIo(io: Io, replied: bool, id: nat): nat {
    match io
    case IoReady => 0
    case IoPush(i) => One(i == id)
    case IoSpin(i) => One(i == id && replied)
    case IoCopy(i) => One(i == id)
    case IoFree(i, _) => One(i == id)
    case IoDrain(chain) => Occurs(chain, id)
  }

  function AtSim(sim: Sim, id: nat): nat {
    match sim
    case SimReady => 0
    case SimGot(i) => One(i == id)
    case SimFree(i) => One(i == id)
    case SimPush(i) => One(i == id)
    case SimLoaded(_, _) => 0
    case SimCleared(i, _) => One(i == id)
    case SimStored(i) => One(i == id)
  }

  predicate IsReplied(live: map<nat, Node>, id: nat) { id in live && live[id].replied }

  /** In how many places a node is. */
  function Places(s: State, id: nat): nat {
    Occurs(s.rx, id) + Occurs(s.tx, id) + AtIo(s.io, IsReplied(s.live, id), id)
    + AtSim(s.sim, id) + One(s.replyNode == Some(id))
  }

  /** Each allocated node is in exactly one place, and no other node is in any. */
  ghost predicate Placed(s: State) {
    forall id: nat :: Places(s, id) == One(id in s.live)
  }

  lemma OccursAppend(l: seq<nat>, x: nat, id: nat)
    ensures Occurs(l + [x], id) == Occurs(l, id) + One(x == id)
  {
  }

  lemma OccursTail(l: seq<nat>, id: nat)
    requires l != []
    ensures Occurs(l, id) == One(l[0] == id) + Occurs(l[1..], id)
  {
    assert l == [l[0]] + l[1..];
  }

  lemma OccursIn(l: seq<nat>, k: nat)
    requires k < |l|
    ensures Occurs(l, l[k]) >= 1
  {
  }

  predicate Is(s: State, id: nat, kind: Kind) { id in s.live && s.live[id].kind == kind }

  predicate Waits(s: State, id: nat) {
    s.io == IoPush(id) || s.io == IoSpin(id) || s.io == IoCopy(id) || (s.io.IoFree? && s.io.id == id)
  }

  predicate IsPending(s: State, id: nat) { id in s.live && s.live[id].kind != Transmit && !s.live[id].replied }

  predicate IoRole(s: State) {
    match s.io
    case IoReady => true
    case IoPush(id) => IsPending(s, id)
    case IoSpin(id) => Is(s, id, Read)
    case IoCopy(id) => Is(s, id, Read) && s.live[id].replied
    case IoFree(id, _) => Is(s, id, Read) && s.live[id].replied
    case IoDrain(chain) => forall k :: 0 <= k < |chain| ==> Is(s, chain[k], Transmit)
  }

  predicate SimRole(s: State) {
    match s.sim
    case SimReady => true
    case SimGot(id) => IsPending(s, id)
    case SimFree(id) => Is(s, id, Write)
    case SimPush(id) => Is(s, id, Transmit)
    case SimLoaded(node, _) => node == s.replyNode
    case SimCleared(id, _) => Is(s, id, Read) && !s.live[id].replied
    case SimStored(id) => Is(s, id, Read) && !s.live[id].replied
  }

  /** What each place holds; a read is always the one the I/O thread is busy with. */
  predicate Roles(s: State) {
    && IoRole(s) && SimRole(s)
    && (s.replyNode.Some? ==> Is(s, s.replyNode.value, Read) && !s.live[s.replyNode.value].replied)
    && (forall k :: 0 <= k < |s.rx| ==> IsPending(s, s.rx[k]))
    && (forall k :: 0 <= k < |s.tx| ==> Is(s, s.tx[k], Transmit))
    && (forall id :: id in s.live ==>
          id < s.next && (if s.live[id].kind == Read then Waits(s, id) else !s.live[id].replied))
  }

  ghost predicate Safe(s: State) {
    && !s.fault && !s.doubled && Placed(s) && Roles(s)
  }

  // ---------------------------------------------------------------------------
  // Steps keep it so
  // ---------------------------------------------------------------------------

  lemma AccessPlaced(s: State)
    requires Placed(s) && IoRole(s)
    ensures Placed(StepAccess(s))
  {
    hide Occurs;
    var t := StepAccess(s);
    forall id: nat ensures Places(t, id) == One(id in t.live) {
      assert Places(s, id) == One(id in s.live);
      if s.io.IoPush? { OccursAppend(s.rx, s.io.id, id); }
    }
  }

  lemma DrainPlaced(s: State, chain: seq<nat>)
    requires Placed(s) && IoRole(s) && s.io == IoDrain(chain)
    ensures Placed(StepDrain(s, chain))
  {
    hide Occurs;
    var t := StepDrain(s, chain);
    forall id: nat ensures Places(t, id) == One(id in t.live) {
      assert Places(s, id) == One(id in s.live);
      if chain != [] {
        assert Is(s, chain[0], Transmit);
        OccursTail(chain, id);
      } else {
        NoneOccurs(id);
      }
    }
  }

  lemma IoStepPlaced(s: State)
    requires Placed(s) && IoRole(s)
    ensures Placed(StepIo(s))
  {
    hide Placed, IoRole, StepAccess, StepDrain;
    match s.io
    case IoReady => IoRests(s);
    case IoDrain(chain) => DrainPlaced(s, chain);
    case _ => AccessPlaced(s);
  }

  lemma IoRests(s: State)
    requires s.io == IoReady
    ensures StepIo(s) == s
  {
  }

  lemma NoneOccurs(id: nat)
    ensures Occurs([], id) == 0
  {
  }

  /** There is at most one read among the allocated nodes. */
  lemma OneRead(s: State, i: nat, j: nat)
    requires Roles(s) && Is(s, i, Read) && Is(s, j, Read)
    ensures i == j && Waits(s, i)
  {
    assert Waits(s, i) && Waits(s, j);
  }

  /** The branch for a second pending read cannot be reached. */
  lemma NotDoubled(s: State)
    requires Placed(s) && Roles(s) && s.sim.SimGot? && s.live[s.sim.id].kind == Read
    ensures s.replyNode == None
  {
    if s.replyNode.Some? {
      assert Places(s, s.sim.id) == One(s.sim.id in s.live);
      OneRead(s, s.sim.id, s.replyNode.value);
      assert false;
    }
  }

  /** Whoever is replied to spins on that very node. */
  lemma RepliedSpins(s: State, id: nat)
    requires Placed(s) && Roles(s) && Is(s, id, Read) && (AtSim(s.sim, id) == 1 || s.replyNode == Some(id))
    ensures s.io == IoSpin(id)
  {
    OneRead(s, id, id);
    assert Places(s, id) == 1;
  }

  lemma GotPlaced(s: State)
    requires Placed(s) && s.sim.SimGot? && s.sim.id in s.live && s.live[s.sim.id].kind != Transmit
    requires s.live[s.sim.id].kind == Read ==> s.replyNode == None
    ensures Placed(StepSim(s))
  {
    hide Occurs;
    var t := StepSim(s);
    forall id: nat ensures Places(t, id) == One(id in t.live) {
      assert Places(s, id) == One(id in s.live);
    }
  }

  lemma QueuePlaced(s: State)
    requires Placed(s) && (s.sim.SimFree? || s.sim.SimPush?) && s.sim.id in s.live && !IsReplied(s.live, s.sim.id)
    ensures Placed(StepSim(s))
  {
    hide Occurs;
    var t := StepSim(s);
    forall id: nat ensures Places(t, id) == One(id in t.live) {
      assert Places(s, id) == One(id in s.live);
      OccursAppend(s.tx, s.sim.id, id);
    }
  }

  lemma ReplyPlaced(s: State)
    requires Placed(s) && (s.sim.SimLoaded? || s.sim.SimCleared?)
    requires s.sim.SimLoaded? ==> s.sim.node == s.replyNode
    requires s.sim.SimCleared? ==> s.sim.id in s.live
    ensures Placed(StepSim(s))
  {
    hide Occurs;
    var t := StepSim(s);
    forall id: nat ensures Places(t, id) == One(id in t.live) {
      assert Places(s, id) == One(id in s.live);
    }
  }

  lemma FlagPlaced(s: State)
    requires Placed(s) && s.sim.SimStored? && s.sim.id in s.live
    requires !s.live[s.sim.id].replied && s.io == IoSpin(s.sim.id)
    ensures Placed(StepSim(s))
  {
    hide Occurs;
    var t := StepSim(s);
    forall id: nat ensures Places(t, id) == One(id in t.live) {
      assert Places(s, id) == One(id in s.live);
    }
  }

  lemma SimStepPlaced(s: State)
    requires Placed(s) && Roles(s)
    ensures Placed(StepSim(s))
  {
    hide Placed, StepSim;
    match s.sim
    case SimReady => assert StepSim(s) == s by { ReadyStays(s); }
    case SimGot(id) => if s.live[id].kind == Read { NotDoubled(s); } GotPlaced(s);
    case SimFree(_) => QueuePlaced(s);
    case SimPush(_) => QueuePlaced(s);
    case SimLoaded(_, _) => ReplyPlaced(s);
    case SimCleared(_, _) => ReplyPlaced(s);
    case SimStored(id) => RepliedSpins(s, id); FlagPlaced(s);
  }

  lemma ReadyStays(s: State)
    requires s.sim == SimReady
    ensures StepSim(s) == s
  {
  }

  lemma StartPlaces(s: State, e: Event, id: nat)
    requires Roles(s) && !e.IoStep? && !e.SimStep? && s.next !in s.live
    requires Places(s, id) == One(id in s.live) && Places(s, s.next) == 0
    ensures Places(Step(s, e), id) == One(id in Step(s, e).live)
  {
    hide Occurs;
    match e
    case StartDrain => NoneOccurs(id);
    case StartPoll => if s.rx != [] { OccursTail(s.rx, id); }
    case _ =>
  }

  lemma StartsPlaced(s: State, e: Event)
    requires Placed(s) && Roles(s) && !e.IoStep? && !e.SimStep?
    ensures Placed(Step(s, e))
  {
    hide Occurs, Places;
    assert s.next !in s.live && Places(s, s.next) == One(s.next in s.live);
    forall id: nat ensures Places(Step(s, e), id) == One(id in Step(s, e).live) {
      StartPlaces(s, e, id);
    }
  }

  // ---------------------------------------------------------------------------
  // Steps keep the roles
  // ---------------------------------------------------------------------------

  predicate Absent(l: seq<nat>, id: nat) { forall k :: 0 <= k < |l| ==> l[k] != id }

  lemma OccursNot(l: seq<nat>, id: nat)
    requires Occurs(l, id) == 0
    ensures Absent(l, id)
  {
    forall k | 0 <= k < |l| ensures l[k] != id { OccursIn(l, k); }
  }

  /** A node that one thread holds is in neither queue. */
  lemma HeldAlone(s: State, id: nat)
    requires Placed(s) && AtIo(s.io, IsReplied(s.live, id), id) + AtSim(s.sim, id) >= 1
    ensures Absent(s.rx, id) && Absent(s.tx, id) && s.replyNode != Some(id)
    ensures AtIo(s.io, IsReplied(s.live, id), id) + AtSim(s.sim, id) == 1
  {
    hide Occurs;
    assert Places(s, id) == One(id in s.live);
    OccursNot(s.rx, id);
    OccursNot(s.tx, id);
  }

  predicate Steady(s: State) { !s.fault && !s.doubled && Roles(s) }

  lemma IoSteady(s: State)
    requires Placed(s) && Steady(s) && !s.io.IoFree? && !s.io.IoDrain?
    ensures Steady(StepIo(s))
  {
    hide Placed;
  }

  lemma IoFreeSteady(s: State)
    requires Placed(s) && Steady(s) && s.io.IoFree?
    ensures Steady(StepIo(s))
  {
    HeldAlone(s, s.io.id);
    hide Placed, Occurs;
    forall id | id in s.live && s.live[id].kind == Read ensures id == s.io.id {
      OneRead(s, id, s.io.id);
    }
  }

  /** A node being sent is in no other place, nor later in the chain. */
  lemma DrainAlone(s: State)
    requires Placed(s) && s.io.IoDrain? && s.io.chain != []
    ensures
      var id, rest := s.io.chain[0], s.io.chain[1..];
      Absent(s.rx, id) && Absent(s.tx, id) && Absent(rest, id) && s.replyNode != Some(id) && AtSim(s.sim, id) == 0
  {
    hide Occurs;
    var id := s.io.chain[0];
    OccursTail(s.io.chain, id);
    HeldAlone(s, id);
    OccursNot(s.io.chain[1..], id);
  }

  lemma IoDrainSteady(s: State)
    requires Placed(s) && Steady(s) && s.io.IoDrain?
    ensures Steady(StepIo(s))
  {
    hide Placed, Occurs;
    var chain := s.io.chain;
    if chain != [] {
      DrainAlone(s);
      assert Is(s, chain[0], Transmit);
      assert forall k :: 0 <= k < |chain| - 1 ==> chain[1..][k] == chain[k + 1];
    }
  }

  lemma SimGotSteady(s: State)
    requires Placed(s) && Steady(s) && s.sim.SimGot?
    ensures Steady(StepSim(s))
  {
    hide Placed, Occurs;
    if s.live[s.sim.id].kind == Read { NotDoubled(s); }
  }

  lemma SimClearedSteady(s: State)
    requires Placed(s) && Steady(s) && s.sim.SimCleared?
    ensures Steady(StepSim(s))
  {
    hide Placed, Occurs;
    HeldAlone(s, s.sim.id);
    RepliedSpins(s, s.sim.id);
  }

  lemma SimSteady(s: State)
    requires Steady(s) && (s.sim.SimReady? || s.sim.SimPush? || s.sim.SimLoaded?)
    ensures Steady(StepSim(s))
  {
  }

  lemma SimFreeSteady(s: State)
    requires Placed(s) && Steady(s) && s.sim.SimFree?
    ensures Steady(StepSim(s))
  {
    hide Placed, Occurs;
    HeldAlone(s, s.sim.id);
    if s.io.IoDrain? {
      OccursNot(s.io.chain, s.sim.id);
    }
    assert !s.io.IoDrain? ==> IoRole(StepSim(s));
  }

  lemma SimStoredSteady(s: State)
    requires Placed(s) && Steady(s) && s.sim.SimStored?
    ensures Steady(StepSim(s))
  {
    hide Placed, Occurs;
    HeldAlone(s, s.sim.id);
    RepliedSpins(s, s.sim.id);
  }

  lemma StartSteady(s: State, e: Event)
    requires Placed(s) && Steady(s) && !e.IoStep? && !e.SimStep?
    ensures Steady(Step(s, e))
  {
    hide Placed, Occurs;
  }

  lemma StepSafe(s: State, e: Event)
    requires Safe(s)
    ensures Safe(Step(s, e))
  {
    hide Placed, Roles, StepIo, StepSim;
    match e
    case IoStep =>
      assert Placed(StepIo(s)) by { IoRoleOf(s); IoStepPlaced(s); }
      match s.io {
        case IoFree(_, _) => IoFreeSteady(s);
        case IoDrain(_) => IoDrainSteady(s);
        case _ => IoSteady(s);
      }
    case SimStep =>
      SimStepPlaced(s);
      match s.sim {
        case SimFree(_) => SimFreeSteady(s);
        case SimGot(_) => SimGotSteady(s);
        case SimCleared(_, _) => SimClearedSteady(s);
        case SimStored(_) => SimStoredSteady(s);
        case _ => SimSteady(s);
      }
    case _ =>
      StartsPlaced(s, e);
      StartSteady(s, e);
  }

  lemma IoRoleOf(s: State)
    requires Roles(s)
    ensures IoRole(s)
  {
  }

  // ---------------------------------------------------------------------------
  // Order, and replies
  // ---------------------------------------------------------------------------

  function Chain(io: Io): seq<nat> { match io case IoDrain(chain) => chain case _ => [] }

  /** The simulation sees accesses, and the network gets messages, in the order queued. */
  predicate Ordered(s: State) {
    s.pushed == s.polled + s.rx && s.queued == s.sent + Chain(s.io) + s.tx
  }

  lemma StepOrdered(s: State, e: Event)
    requires Safe(s) && Ordered(s)
    ensures Ordered(Step(s, e))
  {
    hide Placed, Roles;
    StepSafe(s, e);
    match e
    case IoStep => IoOrdered(s);
    case SimStep => SimOrdered(s);
    case _ =>
  }

  lemma AccessOrdered(s: State)
    requires Ordered(s) && !s.io.IoDrain?
    ensures StepAccess(s).fault || Ordered(StepAccess(s))
  {
  }

  lemma Shifted(a: seq<nat>, b: seq<nat>, c: seq<nat>)
    requires b != []
    ensures a + b + c == a + [b[0]] + b[1..] + c
  {
    assert b == [b[0]] + b[1..];
  }

  lemma DrainOrdered(s: State, chain: seq<nat>)
    requires Ordered(s) && s.io == IoDrain(chain)
    ensures StepDrain(s, chain).fault || Ordered(StepDrain(s, chain))
  {
    if chain != [] {
      Shifted(s.sent, chain, s.tx);
    }
  }

  lemma IoOrdered(s: State)
    requires Ordered(s)
    ensures StepIo(s).fault || Ordered(StepIo(s))
  {
    hide Ordered, StepAccess, StepDrain;
    match s.io
    case IoReady =>
    case IoDrain(chain) => DrainOrdered(s, chain);
    case _ => AccessOrdered(s);
  }

  lemma HandOrdered(s: State)
    requires Ordered(s)
    ensures StepHand(s).fault || Ordered(StepHand(s))
  {
  }

  lemma ReplyOrdered(s: State)
    requires Ordered(s)
    ensures Ordered(StepReply(s))
  {
  }

  lemma SimOrdered(s: State)
    requires Ordered(s)
    ensures StepSim(s).fault || Ordered(StepSim(s))
  {
    hide Ordered, StepHand, StepReply;
    HandOrdered(s);
    ReplyOrdered(s);
  }

  predicate WasGot(h: seq<Seen>, id: nat) {
    exists k :: 0 <= k < |h| && h[k] == Got(id)
  }

  /** The first reply that the simulation gave after it had got node `id`. */
  function FirstReply(h: seq<Seen>, id: nat): Option<nat> {
    if h == [] then None
    else
      var before := FirstReply(h[..|h| - 1], id);
      match h[|h| - 1]
      case Replied(data) => if before == None && WasGot(h[..|h| - 1], id) then Some(data) else before
      case Got(_) => before
  }

  lemma SeenMore(h: seq<Seen>, x: Seen, id: nat)
    ensures WasGot(h + [x], id) <==> WasGot(h, id) || x == Got(id)
    ensures FirstReply(h + [x], id)
         == if x.Replied? && FirstReply(h, id) == None && WasGot(h, id) then Some(x.data) else FirstReply(h, id)
  {
    assert (h + [x])[..|h|] == h;
    if x == Got(id) {
      assert (h + [x])[|h|] == Got(id);
    }
    if WasGot(h, id) {
      var k :| 0 <= k < |h| && h[k] == Got(id);
      assert (h + [x])[k] == Got(id);
    }
  }

  lemma {:induction false} NoReplyBefore(h: seq<Seen>, id: nat)
    requires !WasGot(h, id)
    ensures FirstReply(h, id) == None
  {
    if h != [] {
      assert forall k :: 0 <= k < |h| - 1 ==> h[..|h| - 1][k] == h[k];
      NoReplyBefore(h[..|h| - 1], id);
    }
  }

  /** A read is answered with the first reply given after it was got. */
  ghost predicate Answered(s: State) {
    && (forall id :: id in s.live && (id in s.rx || s.io == IoPush(id) || s.sim == SimGot(id)) ==> !WasGot(s.seen, id))
    && (forall id :: s.next <= id ==> !WasGot(s.seen, id))
    && (s.replyNode.Some? ==>
          && WasGot(s.seen, s.replyNode.value)
          && FirstReply(s.seen, s.replyNode.value) == if s.sim.SimLoaded? then Some(s.sim.data) else None)
    && (s.sim.SimCleared? ==> FirstReply(s.seen, s.sim.id) == Some(s.sim.data))
    && (s.sim.SimStored? ==> s.sim.id in s.live && FirstReply(s.seen, s.sim.id) == Some(s.live[s.sim.id].data))
    && (forall id :: id in s.live && s.live[id].replied ==> FirstReply(s.seen, id) == Some(s.live[id].data))
    && (s.io.IoFree? ==> FirstReply(s.seen, s.io.id) == Some(s.io.data))
    && (forall k :: 0 <= k < |s.results| ==> FirstReply(s.seen, s.results[k].0) == Some(s.results[k].1))
  }

  lemma IoAnswered(s: State)
    requires Steady(s) && Answered(s) && !s.io.IoFree? && !s.io.IoDrain?
    ensures Answered(StepIo(s))
  {
    hide WasGot, FirstReply;
    assert forall id :: id in StepIo(s).rx ==> id in s.rx || s.io == IoPush(id);
  }

  lemma IoFreeAnswered(s: State)
    requires Steady(s) && Answered(s) && (s.io.IoFree? || s.io.IoDrain?) && !StepIo(s).fault
    requires s.sim.SimStored? && s.io.IoFree? ==> s.sim.id != s.io.id
    ensures Answered(StepIo(s))
  {
    hide WasGot, FirstReply;
    if s.io.IoDrain? && s.io.chain != [] {
      assert Is(s, s.io.chain[0], Transmit);
    }
  }

  lemma GotAnswered(s: State)
    requires Placed(s) && Steady(s) && Answered(s) && s.sim.SimGot?
    ensures Answered(StepSim(s))
  {
    hide WasGot, FirstReply, Placed, Occurs, AtIo;
    var id := s.sim.id;
    if s.live[id].kind == Read {
      NotDoubled(s);
      RepliedSpins(s, id);
      HeldAlone(s, id);
      NoReplyBefore(s.seen, id);
      forall o ensures (WasGot(s.seen + [Got(id)], o) <==> WasGot(s.seen, o) || o == id)
        && FirstReply(s.seen + [Got(id)], o) == FirstReply(s.seen, o) {
        SeenMore(s.seen, Got(id), o);
      }
    }
  }

  lemma SimAnswered(s: State)
    requires Placed(s) && Steady(s) && Answered(s) && !s.sim.SimGot? && !StepSim(s).fault
    ensures Answered(StepSim(s))
  {
    hide WasGot, FirstReply, Placed, Occurs;
  }

  lemma ReplyAnswered(s: State, data: nat)
    requires Steady(s) && Answered(s)
    ensures Answered(Step(s, StartReply(data)))
  {
    hide WasGot, FirstReply, Occurs;
    if s.sim == SimReady {
      forall o ensures (WasGot(s.seen + [Replied(data)], o) <==> WasGot(s.seen, o))
        && FirstReply(s.seen + [Replied(data)], o)
           == if FirstReply(s.seen, o) == None && WasGot(s.seen, o) then Some(data) else FirstReply(s.seen, o) {
        SeenMore(s.seen, Replied(data), o);
      }
    }
  }

  lemma StartAnswered(s: State, e: Event)
    requires Steady(s) && Answered(s) && !e.IoStep? && !e.SimStep? && !e.StartReply?
    ensures Answered(Step(s, e))
  {
    hide WasGot, FirstReply, Occurs;
  }

  lemma StepAnswered(s: State, e: Event)
    requires Safe(s) && Answered(s)
    ensures Answered(Step(s, e))
  {
    hide Placed, Roles, StepIo, StepSim, Answered;
    StepSafe(s, e);
    match e
    case IoStep =>
      if s.io.IoFree? || s.io.IoDrain? {
        if s.io.IoFree? { HeldAlone(s, s.io.id); }
        IoFreeAnswered(s);
      } else {
        IoAnswered(s);
      }
    case SimStep => if s.sim.SimGot? { GotAnswered(s); } else { SimAnswered(s); }
    case StartReply(data) => ReplyAnswered(s, data);
    case _ => StartAnswered(s, e);
  }

  // ---------------------------------------------------------------------------
  // Replies overtake writes
  // ---------------------------------------------------------------------------

  /** No write was sent while the read waited: those that were, had been queued before. */
  predicate SentBefore(r: Return) { r.sent == r.began.sent <= r.began.queued }

  predicate Overtaken(s: State) {
    && (!s.io.IoReady? && !s.io.IoDrain? ==> |s.sent| == s.began.sent <= s.began.queued <= |s.queued|)
    && |s.returned| == |s.results|
    && forall k :: 0 <= k < |s.returned| ==> SentBefore(s.returned[k]) && s.returned[k].id == s.results[k].0
  }

  lemma SentOfQueued(s: State)
    requires Ordered(s)
    ensures |s.sent| <= |s.queued|
  {
  }

  lemma StepOvertaken(s: State, e: Event)
    requires Safe(s) && Ordered(s) && Overtaken(s)
    ensures Overtaken(Step(s, e))
  {
    hide Placed, Roles, StepIo, StepSim, Ordered;
    SentOfQueued(s);
    match e
    case IoStep => IoOvertaken(s);
    case SimStep => SimOvertaken(s);
    case _ =>
  }

  lemma AccessOvertaken(s: State)
    requires Overtaken(s) && !s.io.IoReady? && !s.io.IoDrain?
    ensures Overtaken(StepAccess(s))
  {
  }

  lemma IoOvertaken(s: State)
    requires Overtaken(s)
    ensures Overtaken(StepIo(s))
  {
    hide StepAccess, SentBefore;
    if !s.io.IoReady? && !s.io.IoDrain? { AccessOvertaken(s); }
  }

  /** The simulation thread sends nothing. */
  predicate NothingSent(s: State, t: State) {
    && t.io == s.io && t.sent == s.sent && t.began == s.began && t.returned == s.returned && t.results == s.results
    && |s.queued| <= |t.queued|
  }

  lemma HandSends(s: State)
    ensures NothingSent(s, StepHand(s))
  {
  }

  lemma ReplySends(s: State)
    ensures NothingSent(s, StepReply(s))
  {
  }

  lemma SimOvertaken(s: State)
    requires Overtaken(s)
    ensures Overtaken(StepSim(s))
  {
    hide StepHand, StepReply, SentBefore;
    HandSends(s);
    ReplySends(s);
  }

  /** Read 0 waits for its reply. */
  predicate Spinning(s: State, queued: seq<nat>) {
    && 0 in s.live && s.live[0].kind == Read && s.io == IoSpin(0)
    && s.queued == queued && s.sent == [] && s.results == []
  }

  lemma ReadArrives(data: nat, write: nat)
    ensures
      var es := Overtaking(data, write);
      var s := Step(Step(Step(Step(START, es[0]), es[1]), es[2]), es[3]);
      Spinning(s, []) && !s.live[0].replied && s.replyNode == Some(0) && s.sim == SimReady && s.next == 1
  {
  }

  lemma WriteQueued(s: State, data: nat, write: nat)
    requires Spinning(s, []) && !s.live[0].replied && s.replyNode == Some(0) && s.sim == SimReady && s.next == 1
    ensures
      var t := Step(Step(Step(s, StartSend(write)), SimStep), StartReply(data));
      Spinning(t, [1]) && t.sim == SimLoaded(Some(0), data)
  {
  }

  lemma ReplyGiven(s: State, data: nat)
    requires Spinning(s, [1]) && s.sim == SimLoaded(Some(0), data)
    ensures
      var t := Step(Step(Step(s, SimStep), SimStep), SimStep);
      Spinning(t, [1]) && t.live[0].replied && t.live[0].data == data
  {
  }

  lemma ReadReturns(s: State, data: nat)
    requires Spinning(s, [1]) && s.live[0].replied && s.live[0].data == data
    ensures
      var t := Step(Step(Step(s, IoStep), IoStep), IoStep);
      t.results == [(0, data)] && t.queued == [1] && t.sent == []
  {
  }

  /** A read that is replied to after a write was queued, and returns before it is sent. */
  lemma ReplyOvertakesWrite(data: nat, write: nat)
    ensures
      var s := Run(START, Overtaking(data, write));
      s.results == [(0, data)] && s.queued == [1] && s.sent == []
  {
    hide Step, Run;
    var es := Overtaking(data, write);
    var a := Step(Step(Step(Step(START, es[0]), es[1]), es[2]), es[3]);
    var b := Step(Step(Step(a, es[4]), es[5]), es[6]);
    var c := Step(Step(Step(b, es[7]), es[8]), es[9]);
    ReadArrives(data, write);
    WriteQueued(a, data, write);
    ReplyGiven(b, data);
    ReadReturns(c, data);
    RunFour(START, es);
    RunThree(a, es[4..]);
    RunThree(b, es[4..][3..]);
    RunThree(c, es[4..][3..][3..]);
    NothingRuns(Step(Step(Step(c, es[10]), es[11]), es[12]));
    assert es[4..][3..][3..][3..] == [];
  }

  lemma NothingRuns(s: State)
    ensures Run(s, []) == s
  {
  }

  function Overtaking(data: nat, write: nat): seq<Event> {
    [StartAccess(true, 0), IoStep, StartPoll, SimStep, StartSend(write), SimStep,
     StartReply(data), SimStep, SimStep, SimStep, IoStep, IoStep, IoStep]
  }

  lemma RunThree(s: State, es: seq<Event>)
    requires |es| >= 3
    ensures Run(s, es) == Run(Step(Step(Step(s, es[0]), es[1]), es[2]), es[3..])
  {
    hide Step;
    assert es[1..][1..] == es[2..] && es[2..][1..] == es[3..];
    assert Run(s, es) == Run(Step(s, es[0]), es[1..]);
    assert Run(Step(s, es[0]), es[1..]) == Run(Step(Step(s, es[0]), es[1]), es[2..]);
  }

  lemma RunFour(s: State, es: seq<Event>)
    requires |es| >= 4
    ensures Run(s, es) == Run(Step(Step(Step(Step(s, es[0]), es[1]), es[2]), es[3]), es[4..])
  {
    hide Step;
    RunThree(s, es);
    assert es[3..][1..] == es[4..];
  }

  // ---------------------------------------------------------------------------
  // Runs
  // ---------------------------------------------------------------------------

  const START :=
    State(map[], 0, [], [], None, IoReady, SimReady, false, false, [], [], [], [], [], [], Mark(0, 0),
          [], [], [], [], [])

  ghost predicate Inv(s: State) { Safe(s) && Ordered(s) && Answered(s) && Overtaken(s) }

  lemma StartInv()
    ensures Inv(START)
  {
  }

  function Run(s: State, es: seq<Event>): State
    decreases |es|
  {
    if es == [] then s else Run(Step(s, es[0]), es[1..])
  }

  lemma StepKeeps(s: State, e: Event)
    requires Inv(s)
    ensures Inv(Step(s, e))
  {
    hide Safe, Ordered, Answered, Overtaken, Step;
    StepSafe(s, e);
    StepOrdered(s, e);
    StepAnswered(s, e);
    StepOvertaken(s, e);
  }

  lemma {:induction false} RunKeeps(s: State, es: seq<Event>)
    requires Inv(s)
    ensures Inv(Run(s, es))
    decreases |es|
  {
    hide Inv, Step;
    if es != [] {
      StepKeeps(s, es[0]);
      RunKeeps(Step(s, es[0]), es[1..]);
    }
  }

  /** In every interleaving of the two threads: no node is touched or freed after it was
      freed, none is lost, at most one read is outstanding, a second one never arrives,
      the simulation sees accesses in the order of the I/O thread, and every read returns
      the first reply given after the simulation got it, before any write that the
      simulation queued while it waited is sent. */
  lemma EveryInterleaving(es: seq<Event>)
    ensures
      var s := Run(START, es);
      && !s.fault && !s.doubled
      && (forall i, j :: Is(s, i, Read) && Is(s, j, Read) ==> i == j)
      && s.polled <= s.pushed && s.sent <= s.queued
      && (forall k :: 0 <= k < |s.results| ==> FirstReply(s.seen, s.results[k].0) == Some(s.results[k].1))
      && |s.returned| == |s.results|
      && (forall k :: 0 <= k < |s.returned| ==> SentBefore(s.returned[k]) && s.returned[k].id == s.results[k].0)
    ensures
      var s := Run(START, es);
      s.io == IoReady && s.sim == SimReady ==> forall id :: id in s.live <==> id in s.rx || id in s.tx
  {
    StartInv();
    RunKeeps(START, es);
    var s := Run(START, es);
    hide Run, Answered, SentBefore;
    assert Answered(s) && Overtaken(s);
    forall i, j | Is(s, i, Read) && Is(s, j, Read) ensures i == j {
      OneRead(s, i, j);
    }
    if s.io == IoReady && s.sim == SimReady {
      Settled(s);
    }
  }

  /** Between calls only queued nodes are allocated. */
  lemma Settled(s: State)
    requires Safe(s) && s.io == IoReady && s.sim == SimReady
    ensures s.replyNode == None && forall id :: id in s.live <==> id in s.rx || id in s.tx
  {
    if s.replyNode.Some? {
      OneRead(s, s.replyNode.value, s.replyNode.value);
      assert false;
    }
    forall id: nat ensures id in s.live <==> id in s.rx || id in s.tx {
      assert Places(s, id) == One(id in s.live);
      assert id in s.rx <==> id in multiset(s.rx);
      assert id in s.tx <==> id in multiset(s.tx);
    }
  }
}
