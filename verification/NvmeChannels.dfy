/** The rings as what they stand for: channels of commands and of completions, with counts in
    place of indices, memory and phase tags.  Every step of the rings is the step of the
    channels, and so is what the host does to the joint system. */
module NvmeChannels {
  import opened Modular
  import opened NvmeRings
  import C = NvmeController
  import Loop = NvmeLoop

  datatype Note = Note(cid: nat, sqid: nat, status: nat, fetches: nat)

  datatype Commands = Commands(cqid: nat, size: nat, sent: seq<Cmd>, rung: nat, fetched: nat, known: nat)

  datatype Answers = Answers(size: nat, posted: seq<Note>, taken: nat, rung: nat)

  datatype Channels = Channels(commands: map<nat, Commands>, answers: map<nat, Answers>)

  /** A ring with one slot fewer than its size in use has no room. */
  function ChannelStep(v: Channels, e: Event): Channels {
    match e
    case Submit(i, cmd) =>
      if i in v.commands && |v.commands[i].sent| < v.commands[i].known + v.commands[i].size - 1
        then v.(commands := v.commands[i := v.commands[i].(sent := v.commands[i].sent + [cmd])]) else v
    case RingTail(i) =>
      if i in v.commands
        then v.(commands := v.commands[i := v.commands[i].(rung := |v.commands[i].sent|)]) else v
    case Fetch(i) =>
      if i in v.commands && v.commands[i].fetched < v.commands[i].rung
        then v.(commands := v.commands[i := v.commands[i].(fetched := v.commands[i].fetched + 1)]) else v
    case Post(i, cid, status) =>
      if i in v.commands && v.commands[i].cqid in v.answers then
        var k := v.commands[i].cqid;
        var a := v.answers[k];
        if |a.posted| < a.rung + a.size - 1
          then v.(answers := v.answers[k := a.(posted := a.posted + [Note(cid, i, status, v.commands[i].fetched)])])
          else v
      else v
    case Consume(k) =>
      if k in v.answers && v.answers[k].taken < |v.answers[k].posted| then
        var a := v.answers[k];
        var note := a.posted[a.taken];
        Channels(if note.sqid in v.commands
                   then v.commands[note.sqid := v.commands[note.sqid].(known := note.fetches)] else v.commands,
                 v.answers[k := a.(taken := a.taken + 1)])
      else v
    case RingHead(k) =>
      if k in v.answers
        then v.(answers := v.answers[k := v.answers[k].(rung := v.answers[k].taken)]) else v
  }

  function CommandsOf(q: SqRing): Commands {
    Commands(q.cqid, q.size, q.submitted, q.rung, |q.fetched|, q.known)
  }

  function NotesOf(posted: seq<Cqe>, heads: seq<nat>): seq<Note>
    requires |posted| == |heads|
  {
    seq(|posted|, (k: nat) requires k < |posted| => Note(posted[k].cid, posted[k].sqid, posted[k].status, heads[k]))
  }

  function AnswersOf(q: CqRing): Answers
    requires |q.posted| == |q.heads|
  {
    Answers(q.size, NotesOf(q.posted, q.heads), |q.consumed|, q.rung)
  }

  predicate Paired(s: System) { forall k :: k in s.cqs ==> |s.cqs[k].posted| == |s.cqs[k].heads| }

  function ChannelsOf(s: System): Channels
    requires Paired(s)
  {
    Channels(map i | i in s.sqs :: CommandsOf(s.sqs[i]), map k | k in s.cqs :: AnswersOf(s.cqs[k]))
  }

  lemma InvPaired(s: System)
    requires Inv(s)
    ensures Paired(s) && Shaped(s)
  {
    InvShaped(s);
    forall k | k in s.cqs ensures |s.cqs[k].posted| == |s.cqs[k].heads| {
      assert CqInv(s.cqs[k]);
    }
  }

  /** The host sees room exactly when fewer commands than slots but one are not known to have
      been fetched. */
  lemma RoomExact(q: SqRing)
    requires SqInv(q)
    ensures HostSeesRoom(q) <==> |q.submitted| < q.known + q.size - 1
  {
    NextIndex(|q.submitted|, q.size);
    WrapAdvance(q.known, |q.submitted| + 1 - q.known, q.size);
  }

  lemma NotesGrow(posted: seq<Cqe>, heads: seq<nat>, e: Cqe, h: nat)
    requires |posted| == |heads|
    ensures NotesOf(posted + [e], heads + [h]) == NotesOf(posted, heads) + [Note(e.cid, e.sqid, e.status, h)]
  {
  }

  lemma SqChange(s: System, i: nat, q: SqRing)
    requires Paired(s)
    ensures
      ChannelsOf(s.(sqs := s.sqs[i := q])) == ChannelsOf(s).(commands := ChannelsOf(s).commands[i := CommandsOf(q)])
  {
  }

  lemma CqChange(s: System, k: nat, q: CqRing)
    requires Paired(s) && |q.posted| == |q.heads|
    ensures ChannelsOf(s.(cqs := s.cqs[k := q])) == ChannelsOf(s).(answers := ChannelsOf(s).answers[k := AnswersOf(q)])
  {
  }

  lemma PostIs(s: System, i: nat, cid: nat, status: nat)
    requires Inv(s) && Paired(s) && Shaped(s)
    ensures
      var t := Step(s, Post(i, cid, status));
      Paired(t) && ChannelsOf(t) == ChannelStep(ChannelsOf(s), Post(i, cid, status))
  {
    hide SlotsHold, TagOf, Wrap, CqFull, HeadsRight, SqInv;
    if i in s.sqs && s.sqs[i].cqid in s.cqs {
      var q, k := s.sqs[i], s.sqs[i].cqid;
      var c := s.cqs[k];
      CqFullExact(c);
      if !CqFull(c) {
        var d := PostEntry(c, cid, i, q.head, status, |q.fetched|);
        NotesGrow(c.posted, c.heads, Cqe(cid, i, q.head, status, c.phase), |q.fetched|);
        CqChange(s, k, d);
      }
    }
  }

  lemma ConsumeIs(s: System, k: nat)
    requires Inv(s) && Paired(s) && Shaped(s)
    ensures
      var t := Step(s, Consume(k));
      Paired(t) && ChannelsOf(t) == ChannelStep(ChannelsOf(s), Consume(k))
  {
    hide SlotsHold, TagOf, Wrap, HeadsRight, SqInv;
    if k in s.cqs {
      var q := s.cqs[k];
      assert CqInv(q);
      PollIsExact(q);
      if EntryReady(q) {
        var e, h := q.posted[|q.consumed|], q.heads[|q.consumed|];
        var u := s.(sqs := Learn(s.sqs, e, h));
        assert NotesOf(q.posted, q.heads)[|q.consumed|] == Note(e.cid, e.sqid, e.status, h);
        if e.sqid in s.sqs { SqChange(s, e.sqid, s.sqs[e.sqid].(hostHead := e.sqHead, known := h)); }
        CqChange(u, k, ConsumeEntry(q));
      }
    }
  }

  /** The rings are channels: with every step of host and controller the same happens on both
      sides, under the same conditions. */
  lemma RingsAreChannels(s: System, e: Event)
    requires Inv(s) && Shaped(s)
    ensures Paired(s) && Paired(Step(s, e)) && ChannelsOf(Step(s, e)) == ChannelStep(ChannelsOf(s), e)
  {
    hide SlotsHold, TagOf, Wrap, CqFull, HeadsRight, HostSeesRoom;
    InvPaired(s);
    match e
    case Submit(i, cmd) =>
      if i in s.sqs {
        RoomExact(s.sqs[i]);
        SqChange(s, i, SubmitEntry(s.sqs[i], cmd));
      }
    case RingTail(i) =>
      if i in s.sqs { SqChange(s, i, s.sqs[i].(tail := s.sqs[i].hostTail, rung := |s.sqs[i].submitted|)); }
    case Fetch(i) =>
      if i in s.sqs {
        SqEmptyExact(s.sqs[i]);
        if !SqEmpty(s.sqs[i]) { SqChange(s, i, FetchEntry(s.sqs[i])); }
      }
    case Post(i, cid, status) => PostIs(s, i, cid, status);
    case Consume(k) => ConsumeIs(s, k);
    case RingHead(k) =>
      if k in s.cqs { CqChange(s, k, s.cqs[k].(head := s.cqs[k].hostHead, rung := |s.cqs[k].consumed|)); }
  }

  function ChannelRun(v: Channels, es: seq<Event>): Channels
    decreases |es|
  {
    if es == [] then v else ChannelRun(ChannelStep(v, es[0]), es[1..])
  }

  lemma {:induction false} RunsAreChannels(s: System, es: seq<Event>)
    requires Inv(s)
    ensures Paired(s) && Paired(Run(s, es)) && ChannelsOf(Run(s, es)) == ChannelRun(ChannelsOf(s), es)
    decreases |es|
  {
    hide Inv, ChannelStep, Step;
    InvPaired(s);
    if es != [] {
      StepKeepsInv(s, es[0]);
      RingsAreChannels(s, es[0]);
      RunsAreChannels(Step(s, es[0]), es[1..]);
    }
  }

  // ---------------------------------------------------------------------------
  // What the host does to the joint system
  // ---------------------------------------------------------------------------

  lemma JointFacts(j: Loop.Joint)
    requires Loop.JointInv(j)
    ensures Inv(j.s) && Shaped(j.s) && Paired(j.s) && j.c.sqs.Keys == j.s.sqs.Keys && j.c.cqs.Keys == j.s.cqs.Keys
  {
    hide Inv;
    InvPaired(j.s);
  }

  /** The channels after an event of the joint system. */
  ghost function After(j: Loop.Joint, e: Loop.Event): Channels
    requires Loop.JointInv(j)
  {
    Loop.StepKeeps(j, e);
    JointFacts(Loop.Step(j, e));
    ChannelsOf(Loop.Step(j, e).s)
  }

  lemma HostSteps(j: Loop.Joint, i: nat, cmd: Cmd)
    requires Loop.JointInv(j) && Shaped(j.s)
    ensures
      && Loop.Step(j, Loop.Submit(i, cmd)).s == Step(j.s, Submit(i, cmd))
      && Loop.Step(j, Loop.Consume(i)).s == Step(j.s, Consume(i))
      && Loop.Step(j, Loop.TailBell(i)).s == Step(j.s, RingTail(i))
      && Loop.Step(j, Loop.HeadBell(i)).s == Step(j.s, RingHead(i))
  {
    hide Loop.JointInv, Loop.OpenSq, Loop.OpenCq, Loop.FetchBurst, Loop.PostBurst, Loop.IoEnd, Inv, HostSeesRoom;
    hide EntryReady, ConsumeEntry, SubmitEntry, Learn;
  }

  /** Submitting, ringing and polling in the joint system are the steps of the channels. */
  lemma HostActs(j: Loop.Joint, i: nat, cmd: Cmd)
    requires Loop.JointInv(j)
    ensures Paired(j.s)
    ensures
      var v := ChannelsOf(j.s);
      && After(j, Loop.Submit(i, cmd)) == ChannelStep(v, Submit(i, cmd))
      && After(j, Loop.TailBell(i)) == ChannelStep(v, RingTail(i))
      && After(j, Loop.Consume(i)) == ChannelStep(v, Consume(i))
      && After(j, Loop.HeadBell(i)) == ChannelStep(v, RingHead(i))
  {
    hide Loop.JointInv, Loop.Step, Step, Inv, Shaped, Paired, ChannelsOf, ChannelStep;
    JointFacts(j);
    HostSteps(j, i, cmd);
    RingsAreChannels(j.s, Submit(i, cmd));
    RingsAreChannels(j.s, RingTail(i));
    RingsAreChannels(j.s, Consume(i));
    RingsAreChannels(j.s, RingHead(i));
  }

  predicate CqFree(j: Loop.Joint, k: nat, ring: seq<Cqe>) {
    && k !in j.c.cqs && k < j.c.params.numQueues && 2 <= |ring| <= 0x1_0000
    && forall n :: 0 <= n < |ring| ==> !ring[n].phase
  }

  predicate SqFree(j: Loop.Joint, i: nat, k: nat, slots: seq<Cmd>) {
    i !in j.c.sqs && k in j.c.cqs && i < j.c.params.numQueues && 2 <= |slots| <= 0x1_0000
  }

  function NewAnswers(ring: seq<Cqe>): CqRing { CqRing(|ring|, 0, 0, true, ring, 0, true, [], [], 0, []) }

  function NewCommands(k: nat, slots: seq<Cmd>): SqRing { SqRing(k, |slots|, 0, 0, slots, 0, 0, [], [], 0, 0) }

  lemma CqStep(j: Loop.Joint, k: nat, ring: seq<Cqe>)
    requires Loop.JointInv(j)
    ensures
      Loop.Step(j, Loop.NewCq(k, ring)).s ==
        if CqFree(j, k, ring) then j.s.(cqs := j.s.cqs[k := NewAnswers(ring)]) else j.s
  {
    hide Loop.JointInv, Loop.FetchBurst, Loop.PostBurst, Loop.IoEnd, Loop.TailDoorbell, Loop.HeadDoorbell, Loop.OpenSq;
    hide Step;
  }

  lemma SqStep(j: Loop.Joint, i: nat, k: nat, slots: seq<Cmd>, burst: nat)
    requires Loop.JointInv(j)
    ensures
      Loop.Step(j, Loop.NewSq(i, k, slots, burst)).s ==
        if SqFree(j, i, k, slots) then j.s.(sqs := j.s.sqs[i := NewCommands(k, slots)]) else j.s
  {
    hide Loop.JointInv, Loop.FetchBurst, Loop.PostBurst, Loop.IoEnd, Loop.TailDoorbell, Loop.HeadDoorbell, Loop.OpenCq;
    hide Step;
  }

  /** A completion queue comes into being, empty, exactly when its identifier is free and in
      range and its ring has a size of two or more, in sixteen bits, and is cleared. */
  lemma CqOpens(j: Loop.Joint, k: nat, ring: seq<Cqe>)
    requires Loop.JointInv(j)
    ensures Paired(j.s)
    ensures
      var v := ChannelsOf(j.s);
      After(j, Loop.NewCq(k, ring)) ==
        if k !in v.answers && k < j.c.params.numQueues && 2 <= |ring| <= 0x1_0000
           && forall n :: 0 <= n < |ring| ==> !ring[n].phase
          then v.(answers := v.answers[k := Answers(|ring|, [], 0, 0)]) else v
  {
    hide Loop.JointInv, Loop.Step, Inv, Shaped;
    JointFacts(j);
    CqStep(j, k, ring);
    CqChange(j.s, k, NewAnswers(ring));
    assert NotesOf([], []) == [];
  }

  /** The same for a submission queue, of a completion queue that exists. */
  lemma SqOpens(j: Loop.Joint, i: nat, k: nat, slots: seq<Cmd>, burst: nat)
    requires Loop.JointInv(j)
    ensures Paired(j.s)
    ensures
      var v := ChannelsOf(j.s);
      After(j, Loop.NewSq(i, k, slots, burst)) ==
        if i !in v.commands && k in v.answers && i < j.c.params.numQueues && 2 <= |slots| <= 0x1_0000
          then v.(commands := v.commands[i := Commands(k, |slots|, [], 0, 0, 0)]) else v
  {
    hide Loop.JointInv, Loop.Step, Inv, Shaped;
    JointFacts(j);
    SqStep(j, i, k, slots, burst);
    SqChange(j.s, i, NewCommands(k, slots));
  }
}
