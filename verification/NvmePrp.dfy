/** Physical region page lists: the walk that turns a command's two pointers and a byte
    count into a scatter list (NVM Express 1.1, section 4.3). */
module NvmePrp {
  import opened Modular

  const UINT32: nat := 0x1_0000_0000

  /** A page holds `ents` list entries of eight bytes. */
  datatype Ctrl = Ctrl(pageSize: nat, maxPrpEnts: nat)

  predicate Sane(c: Ctrl) {
    c.maxPrpEnts >= 512 && c.pageSize == 8 * c.maxPrpEnts && c.pageSize < 0x1_0000
  }

  datatype Segment = Segment(base: nat, len: nat)

  /** Success with the scatter list, or NVME_INVALID_FIELD with the list destroyed. */
  datatype Result = Mapped(segments: seq<Segment>) | InvalidField

  /** Host memory: the little-endian 64-bit word at an address. */
  type Memory = nat -> nat

  const WORD: nat := 0x1_0000_0000_0000_0000

  /** Memory words have 64 bits. */
  ghost predicate Words(mem: Memory) {
    forall a: nat :: mem(a) < WORD
  }

  function Min(a: nat, b: nat): nat { if a < b then a else b }

  function Prepend(s: Segment, r: Result): Result {
    if r.Mapped? then Mapped([s] + r.segments) else r
  }

  /** Page-aligned and not null. */
  predicate GoodEntry(c: Ctrl, e: nat)
    requires Sane(c)
  {
    e != 0 && Wrap(e, c.pageSize) == 0
  }

  /** Bytes the first pointer covers: up to the end of its page. */
  function FirstLen(c: Ctrl, prp1: nat, len: nat): nat
    requires Sane(c)
  {
    Min(len, c.pageSize - Wrap(prp1, c.pageSize))
  }

  /** How many pages `len` bytes take. */
  function Pages(c: Ctrl, len: nat): (n: nat)
    requires Sane(c)
    ensures len > 0 ==> n >= 1
  {
    if len == 0 then 0 else if len <= c.pageSize then 1 else 1 + Pages(c, len - c.pageSize)
  }

  /** The number of entries as the code computes it, in 32 bits. */
  function EntriesNeeded(c: Ctrl, len: nat): nat
    requires Sane(c)
  {
    Turns(Wrap(len + c.pageSize - 1, UINT32), c.pageSize)
  }

  lemma {:induction false} RoundUp(c: Ctrl, len: nat)
    requires Sane(c)
    ensures Turns(len + c.pageSize - 1, c.pageSize) == Pages(c, len)
    decreases len
  {
    if len > c.pageSize {
      RoundUp(c, len - c.pageSize);
    }
  }

  lemma EntriesExact(c: Ctrl, len: nat)
    requires Sane(c)
    ensures len + c.pageSize <= UINT32 ==> EntriesNeeded(c, len) == Pages(c, len)
    ensures UINT32 < len + c.pageSize && len < UINT32 ==> EntriesNeeded(c, len) == 0
  {
    RoundUp(c, len);
    var n := len + c.pageSize - 1;
    if UINT32 <= n && len < UINT32 {
      assert Wrap(n, UINT32) == Wrap(n - UINT32, UINT32);
    }
  }

  // ---------------------------------------------------------------------------
  // Reference: the list as the standard describes it, by addresses
  // ---------------------------------------------------------------------------

  /** The last entry in a memory page of list entries: no other fits behind it. */
  predicate LastSlot(c: Ctrl, a: nat)
    requires Sane(c)
  {
    Wrap(a, c.pageSize) + 16 > c.pageSize
  }

  /** The chained list, flattened: an entry in the last slot of a memory page is a pointer
      to the next list page when more than one page of data remains, and every other entry
      is a page of data. */
  function Flatten(c: Ctrl, mem: Memory, a: nat, len: nat): Result
    requires Sane(c)
    decreases len, if LastSlot(c, a) then 1 else 0
  {
    if len == 0 then Mapped([])
    else if LastSlot(c, a) && len > c.pageSize then
      if GoodEntry(c, mem(a)) then Flatten(c, mem, mem(a), len) else InvalidField
    else if GoodEntry(c, mem(a)) then
      Prepend(Segment(mem(a), Min(len, c.pageSize)), Flatten(c, mem, a + 8, len - Min(len, c.pageSize)))
    else InvalidField
  }

  /** What a command's pointers mean. */
  function Reference(c: Ctrl, mem: Memory, prp1: nat, prp2: nat, len: nat): Result
    requires Sane(c)
  {
    var first := FirstLen(c, prp1, len);
    var rest := len - first;
    if prp1 == 0 then InvalidField
    else Prepend(Segment(prp1, first),
                 if rest == 0 then Mapped([])
                 else if prp2 == 0 then InvalidField
                 else if rest > c.pageSize then Flatten(c, mem, prp2, rest)
                 else if Wrap(prp2, c.pageSize) == 0 then Mapped([Segment(prp2, rest)])
                 else InvalidField)
  }

  // ---------------------------------------------------------------------------
  // The code's walk, by index into a buffer that is only partly fetched
  // ---------------------------------------------------------------------------

  /** The list buffer after a read of `n` entries; the others keep what was there. */
  function Fetch(c: Ctrl, mem: Memory, addr: nat, n: nat, buf: seq<nat>): (b: seq<nat>)
    requires |buf| == c.maxPrpEnts
    ensures |b| == c.maxPrpEnts
  {
    seq(c.maxPrpEnts, j requires 0 <= j < c.maxPrpEnts => if j < n then mem(addr + 8 * j) else buf[j])
  }

  /** The loop, from index `i` of the buffer. */
  function Walk(c: Ctrl, mem: Memory, buf: seq<nat>, i: nat, len: nat): Result
    requires Sane(c) && |buf| == c.maxPrpEnts && i <= c.maxPrpEnts && (len > 0 ==> i < c.maxPrpEnts)
    decreases len, i
  {
    if len == 0 then Mapped([])
    else if i == c.maxPrpEnts - 1 && len > c.pageSize then
      if GoodEntry(c, buf[i]) then
        Walk(c, mem, Fetch(c, mem, buf[i], Min(c.maxPrpEnts, EntriesNeeded(c, len)), buf), 0, len)
      else InvalidField
    else if GoodEntry(c, buf[i]) then
      Prepend(Segment(buf[i], Min(len, c.pageSize)), Walk(c, mem, buf, i + 1, len - Min(len, c.pageSize)))
    else InvalidField
  }

  /** The whole function, for a stack buffer that initially holds `stale`. */
  function Map(c: Ctrl, mem: Memory, stale: seq<nat>, prp1: nat, prp2: nat, len: nat): Result
    requires Sane(c) && |stale| == c.maxPrpEnts
  {
    var first := FirstLen(c, prp1, len);
    var rest := len - first;
    if prp1 == 0 then InvalidField
    else Prepend(Segment(prp1, first),
                 if rest == 0 then Mapped([])
                 else if prp2 == 0 then InvalidField
                 else if rest > c.pageSize then
                   Walk(c, mem, Fetch(c, mem, prp2, Min(c.maxPrpEnts, EntriesNeeded(c, rest)), stale), 0, rest)
                 else if Wrap(prp2, c.pageSize) == 0 then Mapped([Segment(prp2, rest)])
                 else InvalidField)
  }

  /** The buffer agrees with the list page at `list` on every entry the walk can reach. */
  ghost predicate Fetched(c: Ctrl, mem: Memory, buf: seq<nat>, list: nat, i: nat, len: nat)
    requires Sane(c)
  {
    |buf| == c.maxPrpEnts && forall j :: i <= j < c.maxPrpEnts && j < i + Pages(c, len) ==> buf[j] == mem(list + 8 * j)
  }

  lemma FetchReaches(c: Ctrl, mem: Memory, addr: nat, buf: seq<nat>, len: nat)
    requires Sane(c) && |buf| == c.maxPrpEnts && len + c.pageSize <= UINT32
    ensures Fetched(c, mem, Fetch(c, mem, addr, Min(c.maxPrpEnts, EntriesNeeded(c, len)), buf), addr, 0, len)
  {
    EntriesExact(c, len);
  }

  /** From slot `i` the list stays in its page: it starts the page, or it ends before it. */
  predicate StaysInPage(c: Ctrl, list: nat, i: nat, len: nat)
    requires Sane(c)
  {
    Wrap(list, c.pageSize) == 0 || Wrap(list, c.pageSize) + 8 * (i + Pages(c, len)) <= c.pageSize
  }

  lemma SlotAddress(c: Ctrl, list: nat, i: nat)
    requires Sane(c) && Wrap(list, c.pageSize) + 8 * i < c.pageSize
    ensures Wrap(list + 8 * i, c.pageSize) == Wrap(list, c.pageSize) + 8 * i
    ensures LastSlot(c, list + 8 * i) <==> Wrap(list, c.pageSize) + 8 * i + 16 > c.pageSize
  {
    WrapAdvance(list, 8 * i, c.pageSize);
  }

  /** On a list that stays in its page the code's walk is the flattened list, and it only
      uses entries that were fetched. */
  lemma {:induction false} WalkIsFlatten(c: Ctrl, mem: Memory, buf: seq<nat>, list: nat, i: nat, len: nat)
    requires Sane(c) && (len > 0 ==> i < c.maxPrpEnts) && i <= c.maxPrpEnts
    requires StaysInPage(c, list, i, len)
    requires Fetched(c, mem, buf, list, i, len) && len + c.pageSize <= UINT32
    ensures Walk(c, mem, buf, i, len) == Flatten(c, mem, list + 8 * i, len)
    decreases len, i
  {
    hide EntriesNeeded, Wrap;
    if len > 0 {
      SlotAddress(c, list, i);
      assert buf[i] == mem(list + 8 * i);
      if i == c.maxPrpEnts - 1 && len > c.pageSize {
        if GoodEntry(c, buf[i]) {
          var next := Fetch(c, mem, buf[i], Min(c.maxPrpEnts, EntriesNeeded(c, len)), buf);
          FetchReaches(c, mem, buf[i], buf, len);
          WalkIsFlatten(c, mem, next, buf[i], 0, len);
        }
      } else if GoodEntry(c, buf[i]) {
        WalkIsFlatten(c, mem, buf, list, i + 1, len - Min(len, c.pageSize));
      }
    }
  }

  /** The function computes the meaning of the pointers, whatever the stack holds, when the
      list stays in its page and the rounding up does not leave 32 bits. */
  lemma MapIsReference(c: Ctrl, mem: Memory, stale: seq<nat>, prp1: nat, prp2: nat, len: nat)
    requires Sane(c) && |stale| == c.maxPrpEnts
    requires len - FirstLen(c, prp1, len) > c.pageSize ==>
      RoundsUpIn32Bits(c, prp1, len) && StaysInPage(c, prp2, 0, len - FirstLen(c, prp1, len))
    ensures Map(c, mem, stale, prp1, prp2, len) == Reference(c, mem, prp1, prp2, len)
  {
    hide Walk, Flatten, Fetch, EntriesNeeded, Pages;
    var rest := len - FirstLen(c, prp1, len);
    if rest > c.pageSize {
      FetchReaches(c, mem, prp2, stale, rest);
      WalkIsFlatten(c, mem, Fetch(c, mem, prp2, Min(c.maxPrpEnts, EntriesNeeded(c, rest)), stale), prp2, 0, rest);
    }
  }

  function Total(s: seq<Segment>): nat {
    if s == [] then 0 else s[0].len + Total(s[1..])
  }

  /** Whole pages, up to the last one. */
  predicate PageSegments(c: Ctrl, s: seq<Segment>)
    requires Sane(c)
  {
    forall k :: 0 <= k < |s| ==>
      && GoodEntry(c, s[k].base) && 0 < s[k].len <= c.pageSize
      && (k < |s| - 1 ==> s[k].len == c.pageSize)
  }

  lemma ShapeOfCons(c: Ctrl, s: Segment, rest: seq<Segment>, len: nat)
    requires Sane(c) && GoodEntry(c, s.base) && 0 < s.len <= c.pageSize && s.len <= len
    requires len > s.len ==> s.len == c.pageSize
    requires Total(rest) == len - s.len && PageSegments(c, rest) && |rest| == Pages(c, len - s.len)
    ensures Total([s] + rest) == len && PageSegments(c, [s] + rest) && |[s] + rest| == Pages(c, len)
  {
    assert ([s] + rest)[1..] == rest;
  }

  /** The loop only adds entries it has checked. */
  lemma {:induction false} WalkShape(c: Ctrl, mem: Memory, buf: seq<nat>, i: nat, len: nat)
    requires Sane(c) && |buf| == c.maxPrpEnts && i <= c.maxPrpEnts && (len > 0 ==> i < c.maxPrpEnts)
    ensures
      var r := Walk(c, mem, buf, i, len);
      r.Mapped? ==> Total(r.segments) == len && PageSegments(c, r.segments) && |r.segments| == Pages(c, len)
    decreases len, i
  {
    hide Fetch, EntriesNeeded, GoodEntry, Wrap;
    if len > 0 {
      if i == c.maxPrpEnts - 1 && len > c.pageSize {
        if GoodEntry(c, buf[i]) {
          WalkShape(c, mem, Fetch(c, mem, buf[i], Min(c.maxPrpEnts, EntriesNeeded(c, len)), buf), 0, len);
        }
      } else if GoodEntry(c, buf[i]) {
        var rest := len - Min(len, c.pageSize);
        WalkShape(c, mem, buf, i + 1, rest);
        var r := Walk(c, mem, buf, i + 1, rest);
        if r.Mapped? {
          ShapeOfCons(c, Segment(buf[i], Min(len, c.pageSize)), r.segments, len);
        }
      }
    }
  }

  /** On success the code's list covers exactly `len` bytes, starts at prp1, no segment
      crosses a page, and every later segment is a page from its start: for any memory, any
      pointers and any old content of the stack. */
  lemma MapShape(c: Ctrl, mem: Memory, stale: seq<nat>, prp1: nat, prp2: nat, len: nat)
    requires Sane(c) && |stale| == c.maxPrpEnts
    ensures
      var r := Map(c, mem, stale, prp1, prp2, len);
      r.Mapped? ==>
        && Total(r.segments) == len
        && r.segments != [] && r.segments[0].base == prp1
        && prp1 % c.pageSize + r.segments[0].len <= c.pageSize
        && PageSegments(c, r.segments[1..])
  {
    hide Walk, Fetch, EntriesNeeded;
    WrapIsRemainder(prp1, c.pageSize);
    var first := FirstLen(c, prp1, len);
    var rest := len - first;
    var r := Map(c, mem, stale, prp1, prp2, len);
    if r.Mapped? {
      if rest > c.pageSize {
        WalkShape(c, mem, Fetch(c, mem, prp2, Min(c.maxPrpEnts, EntriesNeeded(c, rest)), stale), 0, rest);
      } else if rest > 0 {
        var s := [Segment(prp2, rest)];
        assert s[1..] == [] && Total(s) == rest;
      }
      assert r.segments == [Segment(prp1, first)] + r.segments[1..];
    }
  }

  // ---------------------------------------------------------------------------
  // When the old content of the buffer matters
  // ---------------------------------------------------------------------------

  lemma {:induction false} WalkReadsReachable(c: Ctrl, mem: Memory, b1: seq<nat>, b2: seq<nat>, i: nat, len: nat)
    requires Sane(c) && |b1| == |b2| == c.maxPrpEnts && i <= c.maxPrpEnts && (len > 0 ==> i < c.maxPrpEnts)
    requires len + c.pageSize <= UINT32
    requires forall j :: i <= j < c.maxPrpEnts && j < i + Pages(c, len) ==> b1[j] == b2[j]
    ensures Walk(c, mem, b1, i, len) == Walk(c, mem, b2, i, len)
    decreases len, i
  {
    if len > 0 {
      if i == c.maxPrpEnts - 1 && len > c.pageSize {
        EntriesExact(c, len);
        var n := Min(c.maxPrpEnts, EntriesNeeded(c, len));
        if GoodEntry(c, b1[i]) {
          WalkReadsReachable(c, mem, Fetch(c, mem, b1[i], n, b1), Fetch(c, mem, b1[i], n, b2), 0, len);
        }
      } else {
        WalkReadsReachable(c, mem, b1, b2, i + 1, len - Min(len, c.pageSize));
      }
    }
  }

  /** Memory, and a buffer, in which every list entry is the same page. */
  function SamePage(e: nat): Memory { a => e }

  function SameEntries(c: Ctrl, e: nat): (b: seq<nat>)
    ensures |b| == c.maxPrpEnts
  {
    seq(c.maxPrpEnts, j => e)
  }

  lemma {:induction false} SamePageWalks(c: Ctrl, e: nat, i: nat, len: nat)
    requires Sane(c) && GoodEntry(c, e) && i <= c.maxPrpEnts && (len > 0 ==> i < c.maxPrpEnts)
    ensures Walk(c, SamePage(e), SameEntries(c, e), i, len).Mapped?
    decreases len, i
  {
    if len > 0 {
      var b := SameEntries(c, e);
      assert b[i] == e;
      if i == c.maxPrpEnts - 1 && len > c.pageSize {
        assert Fetch(c, SamePage(e), e, Min(c.maxPrpEnts, EntriesNeeded(c, len)), b) == b;
        SamePageWalks(c, e, 0, len);
      } else {
        SamePageWalks(c, e, i + 1, len - Min(len, c.pageSize));
      }
    }
  }

  predicate RoundsUpIn32Bits(c: Ctrl, prp1: nat, len: nat)
    requires Sane(c)
  {
    len - FirstLen(c, prp1, len) + c.pageSize <= UINT32
  }

  /** With the count out of range, good and bad old entries give different results. */
  lemma StaleShows(c: Ctrl, prp1: nat, prp2: nat, len: nat) returns (mem: Memory, good: seq<nat>, bad: seq<nat>)
    requires Sane(c) && prp1 != 0 && prp2 != 0 && len < UINT32 && !RoundsUpIn32Bits(c, prp1, len)
    ensures Words(mem) && |good| == |bad| == c.maxPrpEnts
    ensures Map(c, mem, good, prp1, prp2, len) != Map(c, mem, bad, prp1, prp2, len)
  {
    var rest := len - FirstLen(c, prp1, len);
    EntriesExact(c, rest);
    var e := c.pageSize;
    mem, good, bad := SamePage(e), SameEntries(c, e), SameEntries(c, 0);
    assert GoodEntry(c, e);
    assert Fetch(c, mem, prp2, 0, good) == good && Fetch(c, mem, prp2, 0, bad) == bad;
    SamePageWalks(c, e, 0, rest);
  }

  /** The result never depends on what the stack held exactly when a pointer is null or
      rounding the remaining length up to pages stays within 32 bits.  Beyond that the entry
      count comes out as zero, nothing is fetched, and the first entry used is an old one. */
  lemma OldContentIrrelevant(c: Ctrl, prp1: nat, prp2: nat, len: nat)
    requires Sane(c) && len < UINT32
    ensures
      (forall mem: Memory, s1: seq<nat>, s2: seq<nat> | Words(mem) && |s1| == |s2| == c.maxPrpEnts ::
         Map(c, mem, s1, prp1, prp2, len) == Map(c, mem, s2, prp1, prp2, len))
      <==> (prp1 != 0 && prp2 != 0 ==> RoundsUpIn32Bits(c, prp1, len))
  {
    hide Walk, Fetch, EntriesNeeded, Words;
    var rest := len - FirstLen(c, prp1, len);
    if prp1 != 0 && prp2 != 0 ==> RoundsUpIn32Bits(c, prp1, len) {
      forall mem: Memory, s1: seq<nat>, s2: seq<nat> | Words(mem) && |s1| == |s2| == c.maxPrpEnts
        ensures Map(c, mem, s1, prp1, prp2, len) == Map(c, mem, s2, prp1, prp2, len)
      {
        if prp1 != 0 && prp2 != 0 && rest > c.pageSize {
          var n := Min(c.maxPrpEnts, EntriesNeeded(c, rest));
          FetchReaches(c, mem, prp2, s1, rest);
          FetchReaches(c, mem, prp2, s2, rest);
          WalkReadsReachable(c, mem, Fetch(c, mem, prp2, n, s1), Fetch(c, mem, prp2, n, s2), 0, rest);
        }
      }
    } else {
      var mem, good, bad := StaleShows(c, prp1, prp2, len);
    }
  }

  // ---------------------------------------------------------------------------
  // When the code agrees with the standard
  // ---------------------------------------------------------------------------

  /** Memory in which the word at `trap` names the page `z`, which starts with a null entry,
      and every other word names the page `e`. */
  function Trap(trap: nat, z: nat, e: nat): Memory {
    a => if a == trap then z else if a == z then 0 else e
  }

  /** Slot `k` of the list is the last one in the page where the list starts. */
  predicate EndsPage(c: Ctrl, list: nat, k: nat)
    requires Sane(c)
  {
    var start := Wrap(list, c.pageSize);
    start + 8 * k + 16 > c.pageSize && (k > 0 ==> start + 8 * k + 8 <= c.pageSize)
  }

  /** Read as the standard says, the list leads to the null entry. */
  lemma {:induction false} FlattenTrapped(c: Ctrl, trap: nat, z: nat, e: nat, a: nat, k: nat, len: nat)
    requires Sane(c) && GoodEntry(c, z) && GoodEntry(c, e) && (trap < z || z < a)
    requires a + 8 * k == trap && EndsPage(c, a, k) && Pages(c, len) >= k + 2
    ensures Flatten(c, Trap(trap, z, e), a, len) == InvalidField
    decreases k
  {
    SlotAddress(c, a, 0);
    if k > 0 {
      SlotAddress(c, a, 1);
      FlattenTrapped(c, trap, z, e, a + 8, k - 1, len - c.pageSize);
    }
  }

  /** Read by index, every entry the code meets is good. */
  lemma {:induction false} WalkNotTrapped(c: Ctrl, mem: Memory, e: nat, buf: seq<nat>, i: nat, len: nat)
    requires Sane(c) && |buf| == c.maxPrpEnts && i <= c.maxPrpEnts && (len > 0 ==> i < c.maxPrpEnts)
    requires forall j :: 0 <= j < c.maxPrpEnts ==> GoodEntry(c, buf[j]) && mem(e + 8 * j) == e
    requires buf[c.maxPrpEnts - 1] == e
    ensures Walk(c, mem, buf, i, len).Mapped?
    decreases len, i
  {
    hide EntriesNeeded, Wrap;
    if len > 0 {
      if i == c.maxPrpEnts - 1 && len > c.pageSize {
        WalkNotTrapped(c, mem, e, Fetch(c, mem, e, Min(c.maxPrpEnts, EntriesNeeded(c, len)), buf), 0, len);
      } else {
        WalkNotTrapped(c, mem, e, buf, i + 1, len - Min(len, c.pageSize));
      }
    }
  }

  /** The slot at which a list that starts inside a page meets the end of the page. */
  lemma EndSlot(c: Ctrl, list: nat, len: nat) returns (k: nat)
    requires Sane(c) && len > c.pageSize && !StaysInPage(c, list, 0, len)
    ensures EndsPage(c, list, k) && k < c.maxPrpEnts - 1 && Pages(c, len) >= k + 2
  {
    hide Wrap;
    var start := Wrap(list, c.pageSize);
    k := if start + 8 > c.pageSize then 0 else (c.pageSize - 8 - start) / 8;
  }

  lemma FetchTrapped(c: Ctrl, list: nat, k: nat, z: nat, e: nat, n: nat)
    requires Sane(c) && GoodEntry(c, z) && GoodEntry(c, e) && k < c.maxPrpEnts - 1
    requires e + c.pageSize <= z && (z < list || list + c.pageSize <= e)
    requires z < list ==> z + c.pageSize <= list
    ensures
      var mem := Trap(list + 8 * k, z, e);
      var buf := Fetch(c, mem, list, n, SameEntries(c, e));
      && buf[c.maxPrpEnts - 1] == e
      && forall j :: 0 <= j < c.maxPrpEnts ==> GoodEntry(c, buf[j]) && mem(e + 8 * j) == e
  {
    hide Wrap;
  }

  /** Two pages that a list at `list` does not touch. */
  function SparePage(c: Ctrl, list: nat): nat {
    if list < 3 * c.pageSize then 5 * c.pageSize else c.pageSize
  }

  lemma SparePages(c: Ctrl, list: nat)
    requires Sane(c)
    ensures
      var e := SparePage(c, list);
      GoodEntry(c, e) && GoodEntry(c, e + c.pageSize) && e + c.pageSize < WORD
  {
    var p := c.pageSize;
    assert Wrap(p, p) == 0 && Wrap(2 * p, p) == Wrap(p, p) && Wrap(3 * p, p) == Wrap(2 * p, p);
    assert Wrap(4 * p, p) == Wrap(3 * p, p) && Wrap(5 * p, p) == Wrap(4 * p, p) && Wrap(6 * p, p) == Wrap(5 * p, p);
  }

  /** A list that starts inside a page and goes past its end is read differently. */
  lemma ListRunsOver(c: Ctrl, prp1: nat, prp2: nat, len: nat) returns (mem: Memory, stale: seq<nat>)
    requires Sane(c) && prp1 != 0 && prp2 != 0
    requires len - FirstLen(c, prp1, len) > c.pageSize
    requires !StaysInPage(c, prp2, 0, len - FirstLen(c, prp1, len))
    ensures |stale| == c.maxPrpEnts && Words(mem)
    ensures Map(c, mem, stale, prp1, prp2, len) != Reference(c, mem, prp1, prp2, len)
  {
    hide Walk, Flatten, EntriesNeeded, Pages, Wrap, StaysInPage, Fetch, GoodEntry, SameEntries;
    var rest := len - FirstLen(c, prp1, len);
    var k := EndSlot(c, prp2, rest);
    var e := SparePage(c, prp2);
    var z := e + c.pageSize;
    SparePages(c, prp2);
    mem, stale := Trap(prp2 + 8 * k, z, e), SameEntries(c, e);
    FlattenTrapped(c, prp2 + 8 * k, z, e, prp2, k, rest);
    var n := Min(c.maxPrpEnts, EntriesNeeded(c, rest));
    FetchTrapped(c, prp2, k, z, e, n);
    WalkNotTrapped(c, mem, e, Fetch(c, mem, prp2, n, stale), 0, rest);
  }

  /** For all memories and stacks the code gives the meaning of the pointers exactly when
      one of them is null, or they name at most two pages, or the page count stays within 32
      bits and the first list page is read from its start or not past its end. */
  lemma MapAgreesExactly(c: Ctrl, prp1: nat, prp2: nat, len: nat)
    requires Sane(c) && len < UINT32
    ensures
      var rest := len - FirstLen(c, prp1, len);
      (forall mem: Memory, stale: seq<nat> | Words(mem) && |stale| == c.maxPrpEnts ::
         Map(c, mem, stale, prp1, prp2, len) == Reference(c, mem, prp1, prp2, len))
      <==> (prp1 != 0 && prp2 != 0 && rest > c.pageSize ==>
              RoundsUpIn32Bits(c, prp1, len) && StaysInPage(c, prp2, 0, rest))
  {
    hide StaysInPage, Walk, Flatten, Fetch, EntriesNeeded, Wrap;
    var rest := len - FirstLen(c, prp1, len);
    if prp1 == 0 || (prp2 == 0 && rest > 0) {
    } else if rest > c.pageSize ==> RoundsUpIn32Bits(c, prp1, len) && StaysInPage(c, prp2, 0, rest) {
      forall mem: Memory, stale: seq<nat> | Words(mem) && |stale| == c.maxPrpEnts
        ensures Map(c, mem, stale, prp1, prp2, len) == Reference(c, mem, prp1, prp2, len)
      {
        MapIsReference(c, mem, stale, prp1, prp2, len);
      }
    } else if !RoundsUpIn32Bits(c, prp1, len) {
      var mem, s1, s2 := StaleShows(c, prp1, prp2, len);
    } else {
      var mem, stale := ListRunsOver(c, prp1, prp2, len);
    }
  }

  // ---------------------------------------------------------------------------
  // The function itself
  // ---------------------------------------------------------------------------

  /** nvme_map_prp.  `prpList` is the variable-length array on the stack; the loop
      invariant relates the rest of the walk to what was appended so far. */
  method MapPrp(c: Ctrl, mem: Memory, prp1: nat, prp2: nat, length: nat, prpList: array<nat>)
    returns (r: Result)
    requires Sane(c) && prpList.Length == c.maxPrpEnts
    modifies prpList
    ensures r == Map(c, mem, old(prpList[..]), prp1, prp2, length)
  {
    var len := length;
    var transLen := Min(len, c.pageSize - Wrap(prp1, c.pageSize));
    if prp1 == 0 {
      return InvalidField;
    }
    var qsg := [Segment(prp1, transLen)];
    len := len - transLen;
    if len > 0 {
      if prp2 == 0 {
        return InvalidField;
      }
      if len > c.pageSize {
        DmaRead(c, mem, prp2, Min(c.maxPrpEnts, EntriesNeeded(c, len)), prpList);
        r := WalkList(c, mem, len, qsg, prpList);
        return;
      } else {
        if Wrap(prp2, c.pageSize) != 0 {
          return InvalidField;
        }
        qsg := qsg + [Segment(prp2, len)];
      }
    }
    return Mapped(qsg);
  }

  /** The loop over list entries; `qsg` is the scatter list so far. */
  method WalkList(c: Ctrl, mem: Memory, length: nat, start: seq<Segment>, prpList: array<nat>)
    returns (r: Result)
    requires Sane(c) && prpList.Length == c.maxPrpEnts
    modifies prpList
    ensures r == Concat(start, Walk(c, mem, old(prpList[..]), 0, length))
  {
    hide GoodEntry, Fetch, EntriesNeeded, Wrap, Pages;
    var len, qsg, i: nat := length, start, 0;
    ghost var goal := Concat(start, Walk(c, mem, prpList[..], 0, length));
    while len != 0
      invariant len >= 0 && i <= c.maxPrpEnts && (len > 0 ==> i < c.maxPrpEnts)
      invariant goal == Concat(qsg, Walk(c, mem, prpList[..], i, len))
      decreases len
    {
      var prpEnt := prpList[i];
      if i == c.maxPrpEnts - 1 && len > c.pageSize {
        if !GoodEntry(c, prpEnt) {
          return InvalidField;
        }
        i := 0;
        DmaRead(c, mem, prpEnt, Min(c.maxPrpEnts, EntriesNeeded(c, len)), prpList);
        prpEnt := prpList[i];
      }
      if !GoodEntry(c, prpEnt) {
        return InvalidField;
      }
      var transLen := Min(len, c.pageSize);
      ConcatOne(qsg, Segment(prpEnt, transLen), Walk(c, mem, prpList[..], i + 1, len - transLen));
      qsg := qsg + [Segment(prpEnt, transLen)];
      len := len - transLen;
      i := i + 1;
    }
    assert qsg + [] == qsg;
    return Mapped(qsg);
  }

  function Concat(done: seq<Segment>, r: Result): Result {
    if r.Mapped? then Mapped(done + r.segments) else r
  }

  lemma ConcatOne(done: seq<Segment>, s: Segment, r: Result)
    ensures Concat(done, Prepend(s, r)) == Concat(done + [s], r)
  {
    if r.Mapped? {
      assert done + ([s] + r.segments) == done + [s] + r.segments;
    }
  }

  /** The bus read of `n` entries into the front of the buffer. */
  method DmaRead(c: Ctrl, mem: Memory, addr: nat, n: nat, prpList: array<nat>)
    requires prpList.Length == c.maxPrpEnts
    modifies prpList
    ensures prpList[..] == Fetch(c, mem, addr, n, old(prpList[..]))
  {
    for j := 0 to prpList.Length
      invariant forall k :: 0 <= k < j ==> prpList[k] == if k < n then mem(addr + 8 * k) else old(prpList[k])
      invariant forall k :: j <= k < prpList.Length ==> prpList[k] == old(prpList[k])
    {
      if j < n {
        prpList[j] := mem(addr + 8 * j);
      }
    }
  }
}
