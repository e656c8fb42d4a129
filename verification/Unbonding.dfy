/**
  The unbonding queue of one account: chunks in strictly ascending order of the era that unlocks
  them.  PendingAt(s, u) is the function from unlock eras to amounts that the queue s encodes.
 */
module Unbonding {

  datatype UnlockingChunk = UnlockingChunk(amount: nat, unlockEra: nat)

  type Chunks = seq<UnlockingChunk>

  /** Strictly ascending, and no chunk is empty. */
  predicate Ascending(s: Chunks) {
    && (forall i, j :: 0 <= i < j < |s| ==> s[i].unlockEra < s[j].unlockEra)
    && (forall i :: 0 <= i < |s| ==> s[i].amount > 0)
  }

  function Total(s: Chunks): nat {
    if s == [] then 0 else s[0].amount + Total(s[1..])
  }

  function PendingAt(s: Chunks, u: nat): nat {
    if s == [] then 0 else if s[0].unlockEra == u then s[0].amount else PendingAt(s[1..], u)
  }

  /** Adding a chunk, by walking the queue. */
  function Added(s: Chunks, c: UnlockingChunk): Chunks {
    if s == [] || c.unlockEra < s[0].unlockEra then [c] + s
    else if c.unlockEra == s[0].unlockEra then [UnlockingChunk(s[0].amount + c.amount, c.unlockEra)] + s[1..]
    else [s[0]] + Added(s[1..], c)
  }

  /** The chunks unlocked by the given era, in order. */
  function Matured(s: Chunks, era: nat): Chunks {
    if s == [] then []
    else (if s[0].unlockEra <= era then [s[0]] else []) + Matured(s[1..], era)
  }

  /** The chunks still locked in the given era, in order. */
  function Locked(s: Chunks, era: nat): Chunks {
    if s == [] then []
    else (if s[0].unlockEra <= era then [] else [s[0]]) + Locked(s[1..], era)
  }

  lemma {:induction false} NotPendingBefore(s: Chunks, u: nat)
    requires Ascending(s) && (s == [] || u < s[0].unlockEra)
    ensures PendingAt(s, u) == 0
  {
    if s != [] {
      NotPendingBefore(s[1..], u);
    }
  }

  /** Adding keeps the order and raises the total, and the entry of one era, by exactly the amount. */
  lemma {:induction false} AddRefines(s: Chunks, c: UnlockingChunk)
    requires Ascending(s) && c.amount > 0
    ensures Ascending(Added(s, c)) && Added(s, c) != []
    ensures Added(s, c)[0].unlockEra == if s == [] || c.unlockEra < s[0].unlockEra then c.unlockEra else s[0].unlockEra
    ensures Total(Added(s, c)) == Total(s) + c.amount
  {
    AddedTail(s, c);
    if s == [] || c.unlockEra < s[0].unlockEra {
      ConsAscending(c, s);
    } else if c.unlockEra == s[0].unlockEra {
      ConsAscending(UnlockingChunk(s[0].amount + c.amount, c.unlockEra), s[1..]);
    } else {
      AddRefines(s[1..], c);
      ConsAscending(s[0], Added(s[1..], c));
    }
  }

  lemma ConsAscending(c: UnlockingChunk, s: Chunks)
    requires Ascending(s) && c.amount > 0 && (s != [] ==> c.unlockEra < s[0].unlockEra)
    ensures Ascending([c] + s)
  {
  }

  lemma AddedTail(s: Chunks, c: UnlockingChunk)
    ensures Added(s, c) != []
    ensures Added(s, c)[1..] == if s == [] || c.unlockEra < s[0].unlockEra then s
                                else if c.unlockEra == s[0].unlockEra then s[1..]
                                else Added(s[1..], c)
  {
  }

  lemma {:induction false} AddedLength(s: Chunks, c: UnlockingChunk)
    ensures |Added(s, c)| <= |s| + 1
  {
    if s != [] && s[0].unlockEra < c.unlockEra {
      AddedLength(s[1..], c);
    }
  }

  lemma {:induction false} AddedPending(s: Chunks, c: UnlockingChunk, u: nat)
    requires Ascending(s)
    ensures PendingAt(Added(s, c), u) == PendingAt(s, u) + if u == c.unlockEra then c.amount else 0
  {
    AddedTail(s, c);
    if s == [] || c.unlockEra < s[0].unlockEra {
      NotPendingBefore(s, c.unlockEra);
    } else if s[0].unlockEra < c.unlockEra {
      AddedPending(s[1..], c, u);
    }
  }

  lemma {:induction false} TotalConcat(a: Chunks, b: Chunks)
    ensures Total(a + b) == Total(a) + Total(b)
  {
    if a == [] {
      assert a + b == b;
    } else {
      TotalConcat(a[1..], b);
      assert (a + b)[1..] == a[1..] + b;
    }
  }

  lemma PartitionHead(s: Chunks, era: nat)
    requires s != []
    ensures s[0].unlockEra <= era ==>
              Matured(s, era) == [s[0]] + Matured(s[1..], era) && Locked(s, era) == Locked(s[1..], era)
    ensures s[0].unlockEra > era ==>
              Matured(s, era) == Matured(s[1..], era) && Locked(s, era) == [s[0]] + Locked(s[1..], era)
  {
  }

  lemma {:induction false} NothingMatured(s: Chunks, era: nat)
    requires Ascending(s) && (s == [] || era < s[0].unlockEra)
    ensures Matured(s, era) == [] && Locked(s, era) == s
  {
    if s != [] {
      NothingMatured(s[1..], era);
    }
  }

  lemma {:induction false} PartitionSplits(s: Chunks, era: nat)
    requires Ascending(s)
    ensures s == Matured(s, era) + Locked(s, era)
  {
    if s == [] || era < s[0].unlockEra {
      NothingMatured(s, era);
    } else {
      PartitionSplits(s[1..], era);
      PartitionHead(s, era);
    }
  }

  /** A prefix matures, the suffix stays locked, and the totals add up. */
  lemma PartitionRefines(s: Chunks, era: nat)
    requires Ascending(s)
    ensures s == Matured(s, era) + Locked(s, era)
    ensures Total(s) == Total(Matured(s, era)) + Total(Locked(s, era))
    ensures Total(Matured(s, era)) == 0 <==> s == [] || era < s[0].unlockEra
  {
    PartitionSplits(s, era);
    TotalConcat(Matured(s, era), Locked(s, era));
    if s == [] || era < s[0].unlockEra {
      NothingMatured(s, era);
    } else {
      PartitionHead(s, era);
    }
  }

  /** The suffix that stays locked is still a queue. */
  lemma LockedIsAscending(s: Chunks, era: nat)
    requires Ascending(s)
    ensures Ascending(Locked(s, era)) && |Locked(s, era)| <= |s|
  {
    PartitionSplits(s, era);
    var m := |Matured(s, era)|;
    assert Locked(s, era) == s[m..];
  }

  lemma PendingCons(c: UnlockingChunk, s: Chunks, u: nat)
    ensures PendingAt([c] + s, u) == if c.unlockEra == u then c.amount else PendingAt(s, u)
  {
    assert ([c] + s)[1..] == s;
  }

  lemma {:induction false} MaturedPending(s: Chunks, era: nat, u: nat)
    requires Ascending(s)
    ensures PendingAt(Matured(s, era), u) == if u <= era then PendingAt(s, u) else 0
  {
    if s != [] {
      PartitionHead(s, era);
      MaturedPending(s[1..], era, u);
      if s[0].unlockEra <= era {
        PendingCons(s[0], Matured(s[1..], era), u);
      }
    }
  }

  lemma {:induction false} LockedPending(s: Chunks, era: nat, u: nat)
    requires Ascending(s)
    ensures PendingAt(Locked(s, era), u) == if u <= era then 0 else PendingAt(s, u)
  {
    if s != [] {
      PartitionHead(s, era);
      LockedPending(s[1..], era, u);
      if s[0].unlockEra > era {
        PendingCons(s[0], Locked(s[1..], era), u);
      }
    }
  }

  /** Exactly the entries unlocked by the era mature; exactly the others stay. */
  lemma PartitionPending(s: Chunks, era: nat, u: nat)
    requires Ascending(s)
    ensures PendingAt(Matured(s, era), u) == if u <= era then PendingAt(s, u) else 0
    ensures PendingAt(Locked(s, era), u) == if u <= era then 0 else PendingAt(s, u)
  {
    MaturedPending(s, era, u);
    LockedPending(s, era, u);
  }

  /** Nothing pending is larger than the total. */
  lemma {:induction false} PendingWithinTotal(s: Chunks, u: nat)
    ensures PendingAt(s, u) <= Total(s)
  {
    if s != [] {
      PendingWithinTotal(s[1..], u);
    }
  }

  // ---- Finding the place of a chunk

  lemma {:induction false} AddedMerge(s: Chunks, c: UnlockingChunk, pos: nat)
    requires Ascending(s) && pos < |s| && s[pos].unlockEra == c.unlockEra
    ensures Added(s, c) == s[pos := UnlockingChunk(s[pos].amount + c.amount, c.unlockEra)]
  {
    if pos > 0 {
      assert s[0].unlockEra < s[pos].unlockEra;
      AddedMerge(s[1..], c, pos - 1);
    }
  }

  lemma {:induction false} AddedInsert(s: Chunks, c: UnlockingChunk, pos: nat)
    requires Ascending(s) && pos <= |s|
    requires forall i :: 0 <= i < pos ==> s[i].unlockEra < c.unlockEra
    requires forall i :: pos <= i < |s| ==> c.unlockEra < s[i].unlockEra
    ensures Added(s, c) == s[..pos] + [c] + s[pos..]
  {
    if pos > 0 {
      AddedInsert(s[1..], c, pos - 1);
      InsertAfterHead(s, c, pos);
    } else {
      assert s[..0] == [];
    }
  }

  lemma InsertAfterHead(s: Chunks, c: UnlockingChunk, pos: nat)
    requires 0 < pos <= |s|
    ensures [s[0]] + (s[1..][..pos - 1] + [c] + s[1..][pos - 1..]) == s[..pos] + [c] + s[pos..]
  {
    assert s[1..][pos - 1..] == s[pos..];
    assert [s[0]] + s[1..][..pos - 1] == s[..pos];
  }

  class UnbondingMetadata {
    var chunks: Chunks

    constructor (chunks: Chunks)
      ensures this.chunks == chunks
    {
      this.chunks := chunks;
    }

    /** The position of the chunk unlocked in the given era, or where such a chunk belongs. */
    method BinarySearch(unlockEra: nat) returns (found: bool, pos: nat)
      requires Ascending(chunks)
      ensures pos <= |chunks|
      ensures found ==> pos < |chunks| && chunks[pos].unlockEra == unlockEra
      ensures !found ==> forall i :: 0 <= i < pos ==> chunks[i].unlockEra < unlockEra
      ensures !found ==> forall i :: pos <= i < |chunks| ==> unlockEra < chunks[i].unlockEra
    {
      var low, high := 0, |chunks|;
      while low < high
        invariant 0 <= low <= high <= |chunks|
        invariant forall i :: 0 <= i < low ==> chunks[i].unlockEra < unlockEra
        invariant forall i :: high <= i < |chunks| ==> unlockEra < chunks[i].unlockEra
      {
        var mid := low + (high - low) / 2;
        if chunks[mid].unlockEra < unlockEra {
          low := mid + 1;
        } else if unlockEra < chunks[mid].unlockEra {
          high := mid;
        } else {
          return true, mid;
        }
      }
      return false, low;
    }

    method Add(chunk: UnlockingChunk)
      requires Ascending(chunks)
      modifies this
      ensures chunks == Added(old(chunks), chunk)
    {
      var found, pos := BinarySearch(chunk.unlockEra);
      if found {
        AddedMerge(chunks, chunk, pos);
        chunks := chunks[pos := UnlockingChunk(chunks[pos].amount + chunk.amount, chunk.unlockEra)];
      } else {
        AddedInsert(chunks, chunk, pos);
        chunks := chunks[..pos] + [chunk] + chunks[pos..];
      }
    }
  }
}
