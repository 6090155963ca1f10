/** What the glue's queues carry: every access that the machine makes reaches the simulation
    as it was made, every write of the simulation reaches the network as it was queued, and
    nothing stays behind. */
module GlueContents {
  import opened Glue

  // ---------------------------------------------------------------------------
  // What is in the nodes
  // ---------------------------------------------------------------------------

  /** The node still has what the machine put into it. */
  predicate Carries(live: map<nat, Node>, id: nat, m: Made) {
    id in live && m == Made(id, live[id].kind, live[id].data)
  }

  function Unpushed(io: Io): nat { if io.IoPush? then 1 else 0 }

  function Unseen(sim: Sim): nat { if sim.SimGot? then 1 else 0 }

  /** The simulation has got the first accesses made; the others are on their way. */
  predicate Receiving(s: State) {
    && |s.made| == |s.polled| + |s.rx| + Unpushed(s.io) && |s.got| + Unseen(s.sim) == |s.polled|
    && s.got == s.made[..|s.got|]
    && (forall k :: 0 <= k < |s.rx| ==> Carries(s.live, s.rx[k], s.made[|s.polled| + k]))
    && (s.sim.SimGot? ==> Carries(s.live, s.sim.id, s.made[|s.polled| - 1]))
    && (s.io.IoPush? ==> Carries(s.live, s.io.id, s.made[|s.made| - 1]))
  }

  predicate HasData(live: map<nat, Node>, id: nat, data: nat) { id in live && live[id].data == data }

  function Unqueued(sim: Sim): nat { if sim.SimPush? then 1 else 0 }

  /** The first writes queued have been sent; the others are on their way. */
  predicate Sending(s: State) {
    var chain := Chain(s.io);
    && |s.written| == |s.sent| + |chain| + |s.tx| + Unqueued(s.sim)
    && s.wire == s.written[..|s.sent|]
    && (forall k :: 0 <= k < |chain| ==> HasData(s.live, chain[k], s.written[|s.sent| + k]))
    && (forall k :: 0 <= k < |s.tx| ==> HasData(s.live, s.tx[k], s.written[|s.sent| + |chain| + k]))
    && (s.sim.SimPush? ==> HasData(s.live, s.sim.id, s.written[|s.written| - 1]))
  }

  /** The reads among some accesses. */
  function ReadIds(l: seq<Made>): seq<nat> {
    if l == [] then []
    else ReadIds(l[..|l| - 1]) + (if l[|l| - 1].kind == Read then [l[|l| - 1].id] else [])
  }

  function Ids(l: seq<(nat, nat)>): (r: seq<nat>)
    ensures |r| == |l|
  {
    seq(|l|, k requires 0 <= k < |l| => l[k].0)
  }

  /** The read that has not returned yet. */
  function ReadOut(s: State): seq<nat> {
    match s.io
    case IoPush(id) => if Is(s, id, Read) then [id] else []
    case IoSpin(id) => [id]
    case IoCopy(id) => [id]
    case IoFree(id, _) => [id]
    case _ => []
  }

  /** The reads made have returned, in order, but for the one that waits. */
  predicate Returning(s: State) { ReadIds(s.made) == Ids(s.results) + ReadOut(s) }

  ghost predicate Contents(s: State) { Receiving(s) && Sending(s) && Returning(s) }

  // ---------------------------------------------------------------------------
  // The I/O thread
  // ---------------------------------------------------------------------------

  /** A node that another place does not hold may be freed or changed. */
  predicate Elsewhere(s: State, live: map<nat, Node>, x: nat) {
    && Absent(s.rx, x) && Absent(s.tx, x) && Absent(Chain(s.io), x)
    && (forall id :: id in s.live && id != x ==> id in live && live[id] == s.live[id])
  }

  lemma ElsewhereReceiving(s: State, live: map<nat, Node>, x: nat)
    requires Receiving(s) && Elsewhere(s, live, x)
    requires s.sim.SimGot? ==> s.sim.id != x
    requires s.io.IoPush? ==> s.io.id != x
    ensures Receiving(s.(live := live))
  {
    forall k | 0 <= k < |s.rx| ensures Carries(live, s.rx[k], s.made[|s.polled| + k]) {
      assert Carries(s.live, s.rx[k], s.made[|s.polled| + k]);
    }
  }

  lemma ElsewhereSending(s: State, live: map<nat, Node>, x: nat)
    requires Sending(s) && Elsewhere(s, live, x)
    requires s.sim.SimPush? ==> s.sim.id != x
    ensures Sending(s.(live := live))
  {
    var chain := Chain(s.io);
    forall k | 0 <= k < |chain| ensures HasData(live, chain[k], s.written[|s.sent| + k]) {
      assert HasData(s.live, chain[k], s.written[|s.sent| + k]);
    }
    forall k | 0 <= k < |s.tx| ensures HasData(live, s.tx[k], s.written[|s.sent| + |chain| + k]) {
      assert HasData(s.live, s.tx[k], s.written[|s.sent| + |chain| + k]);
    }
  }

  /** The parts of the receive side, and of the transmit side. */
  predicate SameReceiving(s: State, t: State) {
    && t.live == s.live && t.rx == s.rx && t.io == s.io && t.sim == s.sim
    && t.polled == s.polled && t.made == s.made && t.got == s.got
  }

  predicate SameSending(s: State, t: State) {
    && t.live == s.live && t.tx == s.tx && Chain(t.io) == Chain(s.io) && (t.sim.SimPush? ==> t.sim == s.sim)
    && Unqueued(t.sim) == Unqueued(s.sim) && t.sent == s.sent && t.written == s.written && t.wire == s.wire
  }

  lemma SendingSame(s: State, t: State)
    requires Sending(s) && SameSending(s, t)
    ensures Sending(t)
  {
  }

  /** What the I/O thread does with an access, case by case. */
  lemma AccessCases(s: State)
    requires Safe(s)
    ensures
      var t := StepAccess(s);
      match s.io
      case IoPush(id) =>
        && id in s.live && t.rx == s.rx + [id] && t.live == s.live && t.sim == s.sim
        && t.io == (if s.live[id].kind == Read then IoSpin(id) else IoReady)
        && t.polled == s.polled && t.made == s.made && t.got == s.got && SameSending(s, t)
      case IoFree(id, _) =>
        && t.live == s.live - {id} && t.io == IoReady && t.rx == s.rx && t.sim == s.sim
        && t.polled == s.polled && t.made == s.made && t.got == s.got && SameSending(s.(live := t.live), t)
      case _ =>
        && !t.io.IoPush? && t.rx == s.rx && t.live == s.live && t.sim == s.sim
        && t.polled == s.polled && t.made == s.made && t.got == s.got && SameSending(s, t)
  {
    hide Placed;
  }

  lemma FreedElsewhere(s: State)
    requires Safe(s) && s.io.IoFree?
    ensures Elsewhere(s, s.live - {s.io.id}, s.io.id) && AtSim(s.sim, s.io.id) == 0
  {
    hide Roles, Occurs;
    HeldAlone(s, s.io.id);
  }

  lemma AccessReceiving(s: State)
    requires Safe(s) && Receiving(s) && !s.io.IoDrain? && !s.io.IoReady?
    ensures Receiving(StepAccess(s))
  {
    hide Safe, StepAccess, Elsewhere, SameSending;
    AccessCases(s);
    if s.io.IoFree? {
      FreedElsewhere(s);
      ElsewhereReceiving(s, s.live - {s.io.id}, s.io.id);
    }
  }

  lemma AccessSending(s: State)
    requires Safe(s) && Sending(s) && !s.io.IoDrain? && !s.io.IoReady?
    ensures Sending(StepAccess(s))
  {
    hide Safe, StepAccess, Elsewhere, Sending, SameSending;
    AccessCases(s);
    if s.io.IoFree? {
      FreedElsewhere(s);
      var u := s.(live := s.live - {s.io.id});
      ElsewhereSending(s, u.live, s.io.id);
      SendingSame(u, StepAccess(s));
    } else {
      SendingSame(s, StepAccess(s));
    }
  }

  lemma IdsAppend(l: seq<(nat, nat)>, x: (nat, nat))
    ensures Ids(l + [x]) == Ids(l) + [x.0]
  {
  }

  lemma AccessReturning(s: State)
    requires Safe(s) && Returning(s) && !s.io.IoDrain? && !s.io.IoReady?
    ensures Returning(StepAccess(s))
  {
    hide Placed, ReadIds, Ids;
    if s.io.IoFree? { IdsAppend(s.results, (s.io.id, s.io.data)); }
    assert Ids(s.results) + ReadOut(s) + [] == Ids(s.results) + ReadOut(s);
  }

  lemma DrainReceiving(s: State, chain: seq<nat>)
    requires Safe(s) && Receiving(s) && s.io == IoDrain(chain)
    ensures Receiving(StepDrain(s, chain))
  {
    hide Placed;
    if chain != [] { assert Is(s, chain[0], Transmit); }
  }

  /** The node that is sent is freed; the others stay as they are. */
  lemma DrainLeaves(s: State, chain: seq<nat>)
    requires Safe(s) && s.io == IoDrain(chain) && chain != []
    ensures
      var t := StepDrain(s, chain);
      && (forall k :: 1 <= k < |chain| && chain[k] in s.live ==>
            chain[k] in t.live && t.live[chain[k]] == s.live[chain[k]])
      && (forall k :: 0 <= k < |s.tx| && s.tx[k] in s.live ==> s.tx[k] in t.live && t.live[s.tx[k]] == s.live[s.tx[k]])
      && (s.sim.SimPush? && s.sim.id in s.live ==> s.sim.id in t.live && t.live[s.sim.id] == s.live[s.sim.id])
      && t.tx == s.tx && t.sim == s.sim && t.io == IoDrain(chain[1..]) && t.written == s.written
      && t.sent == s.sent + [chain[0]]
      && (chain[0] in s.live ==> t.wire == s.wire + [s.live[chain[0]].data])
  {
    hide Placed, Roles, Occurs;
    DrainAlone(s);
    assert forall k :: 1 <= k < |chain| ==> chain[k] == chain[1..][k - 1];
  }

  lemma DrainSending(s: State, chain: seq<nat>)
    requires Safe(s) && Sending(s) && s.io == IoDrain(chain)
    ensures Sending(StepDrain(s, chain))
  {
    hide Safe;
    if chain != [] {
      hide StepDrain;
      DrainLeaves(s, chain);
      var n := |s.sent|;
      assert s.written[..n + 1] == s.written[..n] + [s.written[n]];
      assert HasData(s.live, chain[0], s.written[n + 0]);
    }
  }

  lemma DrainReturning(s: State, chain: seq<nat>)
    requires Returning(s) && s.io == IoDrain(chain)
    ensures Returning(StepDrain(s, chain))
  {
    hide ReadIds, Ids;
  }

  // ---------------------------------------------------------------------------
  // The simulation thread
  // ---------------------------------------------------------------------------

  /** What the simulation thread does with a node, case by case. */
  lemma HandCases(s: State)
    requires Safe(s)
    ensures
      var t := StepHand(s);
      match s.sim
      case SimGot(id) =>
        && id in s.live && SameSending(s, t) && t.rx == s.rx && t.live == s.live && t.io == s.io
        && !t.sim.SimGot? && t.polled == s.polled && t.made == s.made
        && t.got == s.got + [Made(id, s.live[id].kind, s.live[id].data)]
      case SimFree(id) => t == s.(live := s.live - {id}, sim := SimReady)
      case SimPush(id) => id in s.live && t == s.(sim := SimReady, tx := s.tx + [id], queued := s.queued + [id])
      case _ => t == s
  {
    if s.sim.SimGot? && s.sim.id in s.live && s.live[s.sim.id].kind == Read { NotDoubled(s); }
    hide Placed;
  }

  lemma HeldElsewhere(s: State, live: map<nat, Node>)
    requires Safe(s) && (s.sim.SimFree? || s.sim.SimCleared? || s.sim.SimStored?)
    requires forall id :: id in s.live && id != s.sim.id ==> id in live && live[id] == s.live[id]
    ensures Elsewhere(s, live, s.sim.id) && (s.io.IoPush? ==> s.io.id != s.sim.id)
  {
    hide Roles, Occurs;
    HeldAlone(s, s.sim.id);
    if s.io.IoDrain? { OccursNot(s.io.chain, s.sim.id); }
  }

  lemma HandReceiving(s: State)
    requires Safe(s) && Receiving(s) && (s.sim.SimGot? || s.sim.SimFree? || s.sim.SimPush?)
    ensures Receiving(StepHand(s))
  {
    hide Safe, StepHand, Elsewhere, SameSending;
    HandCases(s);
    if s.sim.SimFree? {
      HeldElsewhere(s, s.live - {s.sim.id});
      ElsewhereReceiving(s, s.live - {s.sim.id}, s.sim.id);
    } else if s.sim.SimGot? {
      var n := |s.got|;
      assert s.made[..n + 1] == s.made[..n] + [s.made[n]];
    }
  }

  lemma HandSending(s: State)
    requires Safe(s) && Sending(s) && (s.sim.SimGot? || s.sim.SimFree? || s.sim.SimPush?)
    ensures Sending(StepHand(s))
  {
    hide Safe, StepHand, Elsewhere, SameSending;
    HandCases(s);
    if s.sim.SimFree? {
      HeldElsewhere(s, s.live - {s.sim.id});
      ElsewhereSending(s, s.live - {s.sim.id}, s.sim.id);
    } else if s.sim.SimGot? {
      SendingSame(s, StepHand(s));
    }
  }

  lemma GotReturning(s: State)
    requires Safe(s) && Returning(s) && s.sim.SimGot?
    ensures Returning(StepHand(s))
  {
    HeldAlone(s, s.sim.id);
    if s.live[s.sim.id].kind == Read { NotDoubled(s); }
    hide Placed, ReadIds, Ids;
  }

  lemma HandReturning(s: State)
    requires Safe(s) && Returning(s) && (s.sim.SimGot? || s.sim.SimFree? || s.sim.SimPush?)
    ensures Returning(StepHand(s))
  {
    if s.sim.SimGot? {
      GotReturning(s);
    } else {
      HeldAlone(s, s.sim.id);
      hide Placed, ReadIds, Ids;
    }
  }

  /** What a reply does to the nodes. */
  lemma ReplyCases(s: State)
    requires Safe(s)
    ensures
      var t := StepReply(s);
      && SameReceiving(s.(live := t.live, sim := t.sim), t) && SameSending(s.(live := t.live, sim := t.sim), t)
      && (s.sim.SimLoaded? || s.sim.SimCleared? || s.sim.SimStored? ==> !t.sim.SimGot? && !t.sim.SimPush?)
      && (s.sim.SimLoaded? ==> t.live == s.live)
      && (s.sim.SimCleared? || s.sim.SimStored? ==>
            forall id :: id in s.live && id != s.sim.id ==> id in t.live && t.live[id] == s.live[id])
  {
    hide Placed;
  }

  lemma ReplyReceiving(s: State)
    requires Safe(s) && Receiving(s) && (s.sim.SimLoaded? || s.sim.SimCleared? || s.sim.SimStored?)
    ensures Receiving(StepReply(s))
  {
    hide Safe, StepReply, Elsewhere, SameSending;
    ReplyCases(s);
    if s.sim.SimCleared? || s.sim.SimStored? {
      HeldElsewhere(s, StepReply(s).live);
      ElsewhereReceiving(s, StepReply(s).live, s.sim.id);
    }
  }

  lemma ReplySending(s: State)
    requires Safe(s) && Sending(s) && (s.sim.SimLoaded? || s.sim.SimCleared? || s.sim.SimStored?)
    ensures Sending(StepReply(s))
  {
    hide Safe, StepReply, Elsewhere;
    ReplyCases(s);
    if s.sim.SimCleared? || s.sim.SimStored? {
      HeldElsewhere(s, StepReply(s).live);
      ElsewhereSending(s, StepReply(s).live, s.sim.id);
    }
  }

  lemma ReplyReturning(s: State)
    requires Safe(s) && Returning(s) && (s.sim.SimLoaded? || s.sim.SimCleared? || s.sim.SimStored?)
    ensures Returning(StepReply(s))
  {
    hide Placed, ReadIds, Ids;
  }

  // ---------------------------------------------------------------------------
  // Beginnings
  // ---------------------------------------------------------------------------

  lemma ReadsAppend(l: seq<Made>, m: Made)
    ensures ReadIds(l + [m]) == ReadIds(l) + (if m.kind == Read then [m.id] else [])
  {
    assert (l + [m])[..|l|] == l;
  }

  lemma MadeKeeps(s: State, read: bool, data: nat)
    requires Safe(s) && Contents(s) && s.io == IoReady
    ensures Contents(Step(s, StartAccess(read, data)))
  {
    hide Placed, ReadIds, Ids;
    var t := Step(s, StartAccess(read, data));
    ReadsAppend(s.made, t.made[|s.made|]);
  }

  lemma WrittenKeeps(s: State, data: nat)
    requires Safe(s) && Contents(s) && s.sim == SimReady
    ensures Contents(Step(s, StartSend(data)))
  {
    hide Placed, ReadIds, Ids;
  }

  lemma TakenKeeps(s: State, e: Event)
    requires Safe(s) && Contents(s) && (e.StartDrain? || e.StartPoll? || e.StartReply?)
    ensures Contents(Step(s, e))
  {
    hide Placed, ReadIds, Ids;
    if e.StartPoll? && s.rx != [] {
      assert Carries(s.live, s.rx[0], s.made[|s.polled| + 0]);
    }
  }

  lemma IoKeeps(s: State)
    requires Safe(s) && Contents(s)
    ensures Contents(StepIo(s))
  {
    hide Safe, Receiving, Sending, Returning, StepAccess, StepDrain;
    match s.io
    case IoReady =>
    case IoDrain(chain) =>
      DrainReceiving(s, chain);
      DrainSending(s, chain);
      DrainReturning(s, chain);
    case _ =>
      AccessReceiving(s);
      AccessSending(s);
      AccessReturning(s);
  }

  lemma SimKeeps(s: State)
    requires Safe(s) && Contents(s)
    ensures Contents(StepSim(s))
  {
    hide Safe, Receiving, Sending, Returning, StepHand, StepReply;
    if s.sim.SimGot? || s.sim.SimFree? || s.sim.SimPush? {
      HandReceiving(s);
      HandSending(s);
      HandReturning(s);
    } else if s.sim != SimReady {
      ReplyReceiving(s);
      ReplySending(s);
      ReplyReturning(s);
    }
  }

  lemma StepKeepsContents(s: State, e: Event)
    requires Safe(s) && Contents(s)
    ensures Contents(Step(s, e))
  {
    hide Safe, Contents, StepIo, StepSim;
    match e
    case StartAccess(read, data) => if s.io == IoReady { MadeKeeps(s, read, data); }
    case StartSend(data) => if s.sim == SimReady { WrittenKeeps(s, data); }
    case IoStep => IoKeeps(s);
    case SimStep => SimKeeps(s);
    case _ => TakenKeeps(s, e);
  }

  lemma StartContents()
    ensures Contents(START)
  {
    assert Ids([]) == [];
  }

  // ---------------------------------------------------------------------------
  // Runs
  // ---------------------------------------------------------------------------

  /** The accesses that the machine makes in a run: one whenever the I/O thread is ready. */
  function Accesses(s: State, es: seq<Event>): seq<Made>
    decreases |es|
  {
    if es == [] then []
    else
      (match es[0]
       case StartAccess(read, data) =>
         if s.io == IoReady then [Made(s.next, if read then Read else Write, data)] else []
       case _ => [])
      + Accesses(Step(s, es[0]), es[1..])
  }

  /** The writes that the simulation makes in a run. */
  function Writes(s: State, es: seq<Event>): seq<nat>
    decreases |es|
  {
    if es == [] then []
    else
      (match es[0]
       case StartSend(data) => if s.sim == SimReady then [data] else []
       case _ => [])
      + Writes(Step(s, es[0]), es[1..])
  }

  predicate MakesNone(s: State, t: State) { t.made == s.made && t.written == s.written }

  lemma AccessMakesNone(s: State)
    ensures MakesNone(s, StepAccess(s))
  {
  }

  lemma DrainMakesNone(s: State, chain: seq<nat>)
    ensures MakesNone(s, StepDrain(s, chain))
  {
  }

  lemma HandMakesNone(s: State)
    ensures MakesNone(s, StepHand(s))
  {
  }

  lemma ReplyMakesNone(s: State)
    ensures MakesNone(s, StepReply(s))
  {
  }

  lemma StepMade(s: State, e: Event)
    ensures Step(s, e).made == s.made + Accesses(s, [e]) && Step(s, e).written == s.written + Writes(s, [e])
  {
    hide StepAccess, StepDrain, StepHand, StepReply;
    assert [e][1..] == [];
    AccessMakesNone(s);
    DrainMakesNone(s, Chain(s.io));
    HandMakesNone(s);
    ReplyMakesNone(s);
  }

  lemma {:induction false} RunContents(s: State, es: seq<Event>)
    requires Inv(s) && Contents(s)
    ensures Inv(Run(s, es)) && Contents(Run(s, es))
    ensures Run(s, es).made == s.made + Accesses(s, es) && Run(s, es).written == s.written + Writes(s, es)
    decreases |es|
  {
    hide Safe, Ordered, Answered, Overtaken, Contents, Step;
    if es != [] {
      var t := Step(s, es[0]);
      StepKeeps(s, es[0]);
      StepKeepsContents(s, es[0]);
      StepMade(s, es[0]);
      RunContents(t, es[1..]);
      FirstMade(s, es);
    }
  }

  lemma FirstMade(s: State, es: seq<Event>)
    requires es != []
    ensures Accesses(s, es) == Accesses(s, [es[0]]) + Accesses(Step(s, es[0]), es[1..])
    ensures Writes(s, es) == Writes(s, [es[0]]) + Writes(Step(s, es[0]), es[1..])
  {
    hide Step;
    assert [es[0]][1..] == [];
  }

  /** In every interleaving: the simulation gets the accesses that the machine made, each
      with its kind and data, in order and once; the network gets the writes that the
      simulation made, with their data, in order and once; and the reads made have returned
      in order, but for the one that waits. */
  lemma AccessesArrive(es: seq<Event>)
    ensures
      var s := Run(START, es);
      && s.got <= Accesses(START, es) && |Accesses(START, es)| == |s.got| + Unseen(s.sim) + |s.rx| + Unpushed(s.io)
      && s.wire <= Writes(START, es) && |Writes(START, es)| == |s.wire| + |Chain(s.io)| + |s.tx| + Unqueued(s.sim)
      && ReadIds(Accesses(START, es)) == Ids(s.results) + ReadOut(s)
  {
    hide Step, Inv, ReadIds, ReadOut;
    StartInv();
    StartContents();
    RunContents(START, es);
    assert [] + Accesses(START, es) == Accesses(START, es) && [] + Writes(START, es) == Writes(START, es);
  }
}
