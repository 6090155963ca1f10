/** One bounded queue, clocked: the reference for the two synchronous FIFOs. */
module BoundedQueue {

  datatype Input<T> = Input(wrEn: bool, wrDat: T, rdEn: bool)

  /** The words inside, the registered occupancy output, and the word that the last edge
      took out, if any. */
  datatype State<T> = State(depth: nat, words: seq<T>, count: nat, popped: seq<T>)

  datatype Flags = Flags(full: bool, empty: bool, almostFull: bool, almostEmpty: bool, count: nat)

  function FlagsOf<T>(s: State<T>): Flags {
    Flags(|s.words| == s.depth, s.words == [], |s.words| + 1 == s.depth, |s.words| == 1, s.count)
  }

  predicate Puts<T>(s: State<T>, i: Input<T>) { i.wrEn && |s.words| < s.depth }

  predicate Gets<T>(s: State<T>, i: Input<T>) { i.rdEn && s.words != [] }

  function Edge<T>(s: State<T>, i: Input<T>): State<T> {
    s.(words := (if Gets(s, i) then s.words[1..] else s.words) + (if Puts(s, i) then [i.wrDat] else []),
       count := |s.words|,
       popped := if Gets(s, i) then [s.words[0]] else [])
  }

  function Run<T>(s: State<T>, ins: seq<Input<T>>): State<T>
    decreases |ins|
  {
    if ins == [] then s else Run(Edge(s, ins[0]), ins[1..])
  }

  function Put<T>(s: State<T>, i: Input<T>): seq<T> {
    if Puts(s, i) then [i.wrDat] else []
  }

  /** Words taken in and words given out along a run. */
  function TakenIn<T>(s: State<T>, ins: seq<Input<T>>): seq<T>
    decreases |ins|
  {
    if ins == [] then []
    else Put(s, ins[0]) + TakenIn(Edge(s, ins[0]), ins[1..])
  }

  function GivenOut<T>(s: State<T>, ins: seq<Input<T>>): seq<T>
    decreases |ins|
  {
    if ins == [] then [] else Edge(s, ins[0]).popped + GivenOut(Edge(s, ins[0]), ins[1..])
  }

  /** First in, first out: over every run, what was inside and what went in is what came
      out followed by what is inside, and the bound is kept. */
  lemma {:induction false} FirstInFirstOut<T>(s: State<T>, ins: seq<Input<T>>)
    requires |s.words| <= s.depth
    ensures s.words + TakenIn(s, ins) == GivenOut(s, ins) + Run(s, ins).words
    ensures |Run(s, ins).words| <= s.depth == Run(s, ins).depth
    decreases |ins|
  {
    if ins != [] {
      hide Edge, Put;
      var t := Edge(s, ins[0]);
      EdgeConserves(s, ins[0]);
      FirstInFirstOut(t, ins[1..]);
      Reassociate(s.words, Put(s, ins[0]), TakenIn(t, ins[1..]));
      Reassociate(t.popped, GivenOut(t, ins[1..]), Run(s, ins).words);
      Reassociate(t.popped, t.words, TakenIn(t, ins[1..]));
    }
  }

  lemma EdgeConserves<T>(s: State<T>, i: Input<T>)
    requires |s.words| <= s.depth
    ensures
      var t := Edge(s, i);
      s.words + Put(s, i) == t.popped + t.words && |t.words| <= t.depth == s.depth
  {
  }

  lemma Reassociate<T>(a: seq<T>, b: seq<T>, c: seq<T>)
    ensures a + b + c == a + (b + c)
  {
  }

  // ---------------------------------------------------------------------------
  // Nothing is refused that fits, and nothing is kept back
  // ---------------------------------------------------------------------------

  function Writing<T>(ws: seq<T>): seq<Input<T>> {
    if ws == [] then [] else [Input(true, ws[0], false)] + Writing(ws[1..])
  }

  function Reading<T>(n: nat, x: T): seq<Input<T>> {
    if n == 0 then [] else [Input(false, x, true)] + Reading(n - 1, x)
  }

  /** As many words are taken as there is room for. */
  lemma {:induction false} Fills<T>(s: State<T>, ws: seq<T>)
    requires |s.words| <= s.depth
    ensures
      var room := s.depth - |s.words|;
      Run(s, Writing(ws)).words == s.words + (if |ws| <= room then ws else ws[..room])
    decreases |ws|
  {
    if ws != [] {
      var t := Edge(s, Input(true, ws[0], false));
      assert Writing(ws)[1..] == Writing(ws[1..]);
      Fills(t, ws[1..]);
      if |s.words| < s.depth {
        var room := s.depth - |s.words|;
        assert ws == [ws[0]] + ws[1..] && (|ws| > room ==> ws[..room] == [ws[0]] + ws[1..][..room - 1]);
      } else {
        assert ws[..0] == [] && ws[1..][..0] == [];
      }
    }
  }

  lemma CutFirst<T>(s: seq<T>, k: nat)
    requires 0 < k <= |s|
    ensures s[..k] == [s[0]] + s[1..][..k - 1] && s[1..][k - 1..] == s[k..]
  {
  }

  /** As many words are given out as are asked for, while there are any. */
  lemma {:induction false} Drains<T>(s: State<T>, n: nat, x: T)
    ensures
      var k := if n <= |s.words| then n else |s.words|;
      GivenOut(s, Reading(n, x)) == s.words[..k] && Run(s, Reading(n, x)).words == s.words[k..]
    decreases n
  {
    if n > 0 {
      var t := Edge(s, Input(false, x, true));
      assert Reading(n, x)[1..] == Reading(n - 1, x);
      assert t.words == (if s.words == [] then [] else s.words[1..]);
      assert t.popped == (if s.words == [] then [] else [s.words[0]]);
      hide Edge;
      Drains(t, n - 1, x);
      if s.words != [] { CutFirst(s.words, if n <= |s.words| then n else |s.words|); }
    }
  }

  function Streaming<T>(ws: seq<T>): seq<Input<T>> {
    if ws == [] then [] else [Input(true, ws[0], true)] + Streaming(ws[1..])
  }

  lemma EdgeStreams<T>(s: State<T>, w: T)
    requires 0 < |s.words| < s.depth
    ensures
      var t := Edge(s, Input(true, w, true));
      t.words == s.words[1..] + [w] && t.popped == [s.words[0]] && t.depth == s.depth
  {
  }

  lemma ShiftAll<T>(a: seq<T>, b: seq<T>)
    requires a != [] && b != []
    ensures a[1..] + [b[0]] + b[1..] == (a + b)[1..] && (a + b)[0] == a[0]
  {
  }

  /** Written and read at every edge, a queue that is neither full nor empty takes every word
      and gives one out each time. */
  lemma {:induction false} Streams<T>(s: State<T>, ws: seq<T>)
    requires 0 < |s.words| < s.depth
    ensures GivenOut(s, Streaming(ws)) == (s.words + ws)[..|ws|]
    ensures Run(s, Streaming(ws)).words == (s.words + ws)[|ws|..]
    decreases |ws|
  {
    hide Edge;
    if ws == [] {
      assert s.words + ws == s.words;
    } else {
      var t, ins := Edge(s, Input(true, ws[0], true)), Streaming(ws);
      assert ins[0] == Input(true, ws[0], true) && ins[1..] == Streaming(ws[1..]);
      EdgeStreams(s, ws[0]);
      Streams(t, ws[1..]);
      ShiftAll(s.words, ws);
      CutFirst(s.words + ws, |ws|);
    }
  }
}
