/**
  The stake history of one (delegator, provider) pair: a run-length encoding of a function from
  eras to staked amounts, changed only at its end by staking and drained only at its front by
  claiming.  At(s, e) is the function that the vector s encodes.
 */
module Delegations {
  import opened Arithmetic
  import opened Wrappers

  datatype EraStake = EraStake(amount: nat, era: nat)

  type Stakes = seq<EraStake>

  datatype StakeError = UnexpectedEra

  predicate Ordered(s: Stakes) {
    forall i, j :: 0 <= i < j < |s| ==> s[i].era < s[j].era
  }

  /** The amount staked in era e according to s: that of the last entry not after e. */
  function At(s: Stakes, e: nat): nat {
    if s == [] then 0
    else if s[|s| - 1].era <= e then s[|s| - 1].amount
    else At(s[..|s| - 1], e)
  }

  function Latest(s: Stakes): nat {
    if s == [] then 0 else s[|s| - 1].amount
  }

  /** Sets the amount from the given era on, overwriting an entry of the same era. */
  function PutLast(s: Stakes, era: nat, amount: nat): Stakes
    requires s != []
  {
    if s[|s| - 1].era == era then s[..|s| - 1] + [EraStake(amount, era)] else s + [EraStake(amount, era)]
  }

  /** Drops a zero entry at the head, but never more than one. */
  function DropZeroHead(s: Stakes): Stakes {
    if s != [] && s[0].amount == 0 then s[1..] else s
  }

  function Staked(s: Stakes, era: nat, amount: nat): Result<Stakes, StakeError> {
    if s == [] then Ok([EraStake(amount, era)])
    else if s[|s| - 1].era > era then Err(UnexpectedEra)
    else Ok(PutLast(s, era, Latest(s) + amount))
  }

  function Unstaked(s: Stakes, era: nat, amount: nat): Result<Stakes, StakeError> {
    if s == [] then Ok(s)
    else if s[|s| - 1].era > era then Err(UnexpectedEra)
    else Ok(DropZeroHead(PutLast(s, era, SaturatingSub(Latest(s), amount))))
  }

  /** What a claim leaves of the vector before a zero head is dropped. */
  function Advanced(s: Stakes): Stakes
    requires s != []
  {
    if |s| == 1 || s[1].era > s[0].era + 1 then [EraStake(s[0].amount, s[0].era + 1)] + s[1..] else s[1..]
  }

  datatype ClaimResult = ClaimResult(rest: Stakes, era: nat, amount: nat)

  function Claimed(s: Stakes): ClaimResult {
    if s == [] then ClaimResult([], 0, 0)
    else ClaimResult(DropZeroHead(Advanced(s)), s[0].era, s[0].amount)
  }

  // ---- The encoded function, read from the front

  lemma {:induction false} AtFront(s: Stakes, e: nat)
    requires s != [] && Ordered(s)
    ensures At(s, e) == if |s| > 1 && s[1].era <= e then At(s[1..], e) else if s[0].era <= e then s[0].amount else 0
  {
    if |s| > 1 {
      var front := s[..|s| - 1];
      AtFront(front, e);
      if s[|s| - 1].era <= e {
        assert s[1] == s[|s| - 1] || s[1].era < s[|s| - 1].era;
      } else {
        assert s[1..][..|s| - 2] == front[1..];
      }
    }
  }

  lemma AtBeforeHead(s: Stakes, e: nat)
    requires Ordered(s)
    requires s != [] ==> e < s[0].era
    ensures At(s, e) == 0
  {
    if s != [] {
      AtFront(s, e);
      assert |s| > 1 ==> s[0].era < s[1].era;
    }
  }

  lemma AtFromLast(s: Stakes, e: nat)
    requires s != [] ==> s[|s| - 1].era <= e
    ensures At(s, e) == Latest(s)
  {
  }

  lemma AtDropZeroHead(s: Stakes, e: nat)
    requires Ordered(s)
    ensures At(DropZeroHead(s), e) == At(s, e)
    ensures Ordered(DropZeroHead(s)) && Latest(DropZeroHead(s)) == Latest(s)
    ensures |DropZeroHead(s)| <= |s|
    ensures DropZeroHead(s) != [] ==>
              && s != [] && s[0].era <= DropZeroHead(s)[0].era
              && DropZeroHead(s)[|DropZeroHead(s)| - 1] == s[|s| - 1]
  {
    if s != [] && s[0].amount == 0 {
      AtFront(s, e);
      AtBeforeHead(s[1..], if |s| > 1 && e < s[1].era then e else 0);
      if |s| > 1 && e < s[1].era {
        AtBeforeHead(s[1..], e);
      }
    }
  }

  lemma AtPutLast(s: Stakes, era: nat, amount: nat, e: nat)
    requires s != [] && Ordered(s) && s[|s| - 1].era <= era
    ensures var t := PutLast(s, era, amount);
            && Ordered(t) && t != [] && t[0].era == s[0].era && t[|t| - 1] == EraStake(amount, era)
            && At(t, e) == if era <= e then amount else At(s, e)
  {
    var t := PutLast(s, era, amount);
    assert t[..|t| - 1] == if s[|s| - 1].era == era then s[..|s| - 1] else s;
  }

  // ---- The operations as operations on that function

  /** Staking adds the amount to the current era and every later one, and to no earlier one. */
  lemma StakeRefines(s: Stakes, era: nat, amount: nat)
    requires Ordered(s)
    ensures Staked(s, era, amount).Err? <==> s != [] && s[|s| - 1].era > era
    ensures Staked(s, era, amount).Ok? ==>
              var t := Staked(s, era, amount).value;
              && Ordered(t) && t != [] && t[|t| - 1].era == era
              && (s == [] ==> t[0].era == era) && (s != [] ==> t[0].era == s[0].era)
              && Latest(t) == Latest(s) + amount
              && forall e :: At(t, e) == if era <= e then At(s, e) + amount else At(s, e)
  {
    if Staked(s, era, amount).Ok? {
      var t := Staked(s, era, amount).value;
      forall e ensures At(t, e) == if era <= e then At(s, e) + amount else At(s, e) {
        if s == [] {
          assert t[..0] == [];
        } else {
          AtPutLast(s, era, Latest(s) + amount, e);
          if era <= e {
            AtFromLast(s, e);
          }
        }
      }
      if s != [] {
        AtPutLast(s, era, Latest(s) + amount, era);
      }
    }
  }

  /**
    Unstaking takes the amount, as far as it goes, from the current era and every later one, and from no
    earlier one.
   */
  lemma UnstakeRefines(s: Stakes, era: nat, amount: nat)
    requires Ordered(s)
    ensures Unstaked(s, era, amount).Err? <==> s != [] && s[|s| - 1].era > era
    ensures Unstaked(s, era, amount).Ok? ==>
              var t := Unstaked(s, era, amount).value;
              && Ordered(t) && (t != [] ==> s != [] && s[0].era <= t[0].era && t[|t| - 1].era == era)
              && Latest(t) == SaturatingSub(Latest(s), amount)
              && forall e :: At(t, e) == if era <= e then SaturatingSub(At(s, e), amount) else At(s, e)
  {
    if s != [] && s[|s| - 1].era <= era {
      UnstakedShape(s, era, amount);
      forall e
        ensures At(Unstaked(s, era, amount).value, e) == if era <= e then SaturatingSub(At(s, e), amount) else At(s, e)
      {
        UnstakedAt(s, era, amount, e);
      }
    }
  }

  lemma UnstakedAt(s: Stakes, era: nat, amount: nat, e: nat)
    requires Ordered(s) && s != [] && s[|s| - 1].era <= era
    ensures At(Unstaked(s, era, amount).value, e) == if era <= e then SaturatingSub(At(s, e), amount) else At(s, e)
  {
    var v := SaturatingSub(Latest(s), amount);
    AtPutLast(s, era, v, e);
    AtDropZeroHead(PutLast(s, era, v), e);
    if era <= e {
      AtFromLast(s, e);
    }
  }

  lemma UnstakedShape(s: Stakes, era: nat, amount: nat)
    requires Ordered(s) && s != [] && s[|s| - 1].era <= era
    ensures Unstaked(s, era, amount).Ok?
    ensures var t := Unstaked(s, era, amount).value;
            && Ordered(t) && (t != [] ==> s[0].era <= t[0].era && t[|t| - 1].era == era)
            && Latest(t) == SaturatingSub(Latest(s), amount)
  {
    var v := SaturatingSub(Latest(s), amount);
    AtPutLast(s, era, v, era);
    AtDropZeroHead(PutLast(s, era, v), era);
  }

  lemma AdvancedShape(s: Stakes)
    requires s != [] && Ordered(s)
    ensures Ordered(Advanced(s)) && |Advanced(s)| <= |s|
    ensures Advanced(s) != [] && Latest(Advanced(s)) == Latest(s) && s[0].era < Advanced(s)[0].era
    ensures var t := Advanced(s);
            t[|t| - 1].era == if |s| == 1 then s[0].era + 1 else s[|s| - 1].era
  {
  }

  /**
    Claiming returns the head era with the amount staked in it, and changes the history only by
    zeroing that one era.  The latest value survives, and the head moves strictly forward.
   */
  lemma ClaimRefines(s: Stakes)
    requires Ordered(s)
    ensures var c := Claimed(s);
            && Ordered(c.rest) && Latest(c.rest) == Latest(s) && |c.rest| <= |s|
            && c.amount == At(s, c.era)
            && c.era == (if s == [] then 0 else s[0].era)
            && (c.rest != [] ==> s != [] && c.era < c.rest[0].era)
            && (c.rest != [] ==> c.rest[|c.rest| - 1].era == if |s| == 1 then c.era + 1 else s[|s| - 1].era)
            && forall e :: At(c.rest, e) == if e == c.era then 0 else At(s, e)
  {
    if s != [] {
      var c := Claimed(s);
      AdvancedShape(s);
      AtDropZeroHead(Advanced(s), 0);
      HeadAmount(s);
      forall e ensures At(c.rest, e) == if e == c.era then 0 else At(s, e) {
        AdvancedAt(s, e);
        AtDropZeroHead(Advanced(s), e);
      }
    }
  }

  lemma HeadAmount(s: Stakes)
    requires s != [] && Ordered(s)
    ensures At(s, s[0].era) == s[0].amount
  {
    AtFront(s, s[0].era);
  }

  lemma AdvancedAt(s: Stakes, e: nat)
    requires s != [] && Ordered(s)
    ensures At(Advanced(s), e) == if e == s[0].era then 0 else At(s, e)
  {
    var rest := Advanced(s);
    AdvancedShape(s);
    AtFront(s, e);
    if e <= s[0].era {
      AtBeforeHead(rest, e);
    } else if |s| == 1 || s[1].era > s[0].era + 1 {
      AtFront(rest, e);
      assert rest[1..] == s[1..];
    }
  }

  // ---- Draining

  /** The non-zero results of claiming again and again while the head lies before the bound. */
  function Drain(s: Stakes, bound: nat): seq<(nat, nat)>
    requires Ordered(s)
    decreases if s == [] then 0 else SaturatingSub(bound, s[0].era)
  {
    if s == [] || bound <= s[0].era then []
    else
      ClaimRefines(s);
      var c := Claimed(s);
      (if c.amount > 0 then [(c.era, c.amount)] else []) + Drain(c.rest, bound)
  }

  /** The eras from lo up to the bound in which something was staked, with the amounts, in order. */
  function Positive(s: Stakes, lo: nat, bound: nat): seq<(nat, nat)>
    decreases bound - lo
  {
    if bound <= lo then []
    else (if At(s, lo) > 0 then [(lo, At(s, lo))] else []) + Positive(s, lo + 1, bound)
  }

  lemma {:induction false} PositiveSkip(s: Stakes, lo: nat, mid: nat, bound: nat)
    requires lo <= mid
    requires forall e :: lo <= e < mid ==> At(s, e) == 0
    ensures Positive(s, lo, bound) == Positive(s, mid, bound)
    decreases mid - lo
  {
    if lo < mid && lo < bound {
      PositiveSkip(s, lo + 1, mid, bound);
    }
  }

  lemma {:induction false} PositiveCong(s: Stakes, t: Stakes, lo: nat, bound: nat)
    requires forall e :: lo <= e ==> At(s, e) == At(t, e)
    ensures Positive(s, lo, bound) == Positive(t, lo, bound)
    decreases bound - lo
  {
    if lo < bound {
      PositiveCong(s, t, lo + 1, bound);
    }
  }

  /** Draining lists exactly the eras with stake, once each, ascending, with the right amounts. */
  lemma {:induction false} DrainIsPositive(s: Stakes, bound: nat)
    requires Ordered(s)
    ensures Drain(s, bound) == Positive(s, 0, bound)
    decreases if s == [] then 0 else SaturatingSub(bound, s[0].era)
  {
    if s == [] {
      PositiveFromHead(s, bound, bound);
    } else {
      var head := s[0].era;
      PositiveFromHead(s, head, bound);
      if head < bound {
        var rest := Claimed(s).rest;
        ClaimRefines(s);
        DrainIsPositive(rest, bound);
        PositiveFromHead(rest, head + 1, bound);
        PositiveCong(rest, s, head + 1, bound);
      }
    }
  }

  lemma PositiveFromHead(s: Stakes, lo: nat, bound: nat)
    requires Ordered(s) && (s == [] || lo <= s[0].era)
    ensures Positive(s, 0, bound) == Positive(s, lo, bound)
  {
    forall e | 0 <= e < lo ensures At(s, e) == 0 {
      AtBeforeHead(s, e);
    }
    PositiveSkip(s, 0, lo, bound);
  }

  // ---- Reaching a bound through paying claims only

  /** Claims that pay something can carry the head up to the bound. */
  predicate Reaches(s: Stakes, bound: nat)
    requires Ordered(s)
    decreases if s == [] then 0 else SaturatingSub(bound, s[0].era)
  {
    s == [] || bound <= s[0].era ||
    (s[0].amount > 0 && (ClaimRefines(s); Reaches(Claimed(s).rest, bound)))
  }

  /** Before the bound no zero entry stands at the head or directly after another zero entry. */
  predicate NoStrandedZero(s: Stakes, bound: nat) {
    forall i :: 0 <= i < |s| && s[i].era < bound && s[i].amount == 0 ==> 0 < i && s[i - 1].amount > 0
  }

  lemma NoStrandedZeroAdvanced(s: Stakes, t: Stakes, bound: nat)
    requires s != [] && s[0].amount > 0 && t != [] && t[0].amount > 0 && t[1..] == s[1..]
    ensures NoStrandedZero(t, bound) <==> NoStrandedZero(s, bound)
  {
    assert |t| == |s|;
    forall i | 0 < i < |s| ensures t[i] == s[i] {
      assert t[i] == t[1..][i - 1] == s[1..][i - 1] == s[i];
    }
  }

  lemma NoStrandedZeroBehind(s: Stakes, t: Stakes, bound: nat)
    requires |s| > 1 && s[0].amount > 0 && s[1].amount > 0 && t == s[1..]
    ensures NoStrandedZero(t, bound) <==> NoStrandedZero(s, bound)
  {
    if NoStrandedZero(t, bound) {
      forall i | 0 <= i < |s| && s[i].era < bound && s[i].amount == 0 ensures 0 < i && s[i - 1].amount > 0 {
        assert t[i - 1] == s[i];
      }
    }
  }

  lemma NoStrandedZeroBehindZero(s: Stakes, t: Stakes, bound: nat)
    requires |s| > 1 && s[0].amount > 0 && s[1].amount == 0 && t == s[2..]
    ensures NoStrandedZero(t, bound) <==> NoStrandedZero(s, bound)
  {
    if NoStrandedZero(t, bound) {
      forall i | 0 <= i < |s| && s[i].era < bound && s[i].amount == 0 ensures 0 < i && s[i - 1].amount > 0 {
        if i > 1 {
          assert t[i - 2] == s[i];
        }
      }
    }
    if NoStrandedZero(s, bound) {
      forall i | 0 <= i < |t| && t[i].era < bound && t[i].amount == 0 ensures 0 < i && t[i - 1].amount > 0 {
        assert t[i] == s[i + 2];
      }
    }
  }

  lemma NoStrandedZeroClaim(s: Stakes, bound: nat)
    requires Ordered(s) && s != [] && s[0].amount > 0
    ensures NoStrandedZero(Claimed(s).rest, bound) <==> NoStrandedZero(s, bound)
  {
    var t := Claimed(s).rest;
    if |s| == 1 || s[1].era > s[0].era + 1 {
      assert t == [EraStake(s[0].amount, s[0].era + 1)] + s[1..];
      NoStrandedZeroAdvanced(s, t, bound);
    } else if s[1].amount > 0 {
      NoStrandedZeroBehind(s, t, bound);
    } else {
      assert t == s[2..];
      NoStrandedZeroBehindZero(s, t, bound);
    }
  }

  /** The exact condition under which a history can be drained up to the bound by paying claims. */
  lemma {:induction false} ReachesIff(s: Stakes, bound: nat)
    requires Ordered(s)
    ensures Reaches(s, bound) <==> NoStrandedZero(s, bound)
    decreases if s == [] then 0 else SaturatingSub(bound, s[0].era)
  {
    if s != [] && s[0].era < bound && s[0].amount > 0 {
      ClaimRefines(s);
      ReachesIff(Claimed(s).rest, bound);
      NoStrandedZeroClaim(s, bound);
    } else if s != [] && bound <= s[0].era {
      assert forall i :: 0 <= i < |s| ==> bound <= s[i].era;
    }
  }

  /** The stored vector, decoded for the duration of one call. */
  class Delegation {
    var stakes: Stakes

    constructor (stakes: Stakes)
      ensures this.stakes == stakes
    {
      this.stakes := stakes;
    }

    method Stake(era: nat, amount: nat) returns (r: Result<(), StakeError>)
      modifies this
      ensures match Staked(old(stakes), era, amount)
              case Ok(t) => r.Ok? && stakes == t
              case Err(e) => r == Err(e) && stakes == old(stakes)
    {
      if |stakes| > 0 {
        var last := stakes[|stakes| - 1];
        if last.era > era {
          return Err(UnexpectedEra);
        }
        var newAmount := last.amount + amount;
        if era == last.era {
          stakes := stakes[|stakes| - 1 := EraStake(newAmount, era)];
        } else {
          stakes := stakes + [EraStake(newAmount, era)];
        }
      } else {
        stakes := [EraStake(amount, era)];
      }
      r := Ok(());
    }

    method Unstake(era: nat, amount: nat) returns (r: Result<(), StakeError>)
      modifies this
      ensures match Unstaked(old(stakes), era, amount)
              case Ok(t) => r.Ok? && stakes == t
              case Err(e) => r == Err(e) && stakes == old(stakes)
    {
      if |stakes| > 0 {
        var last := stakes[|stakes| - 1];
        if last.era > era {
          return Err(UnexpectedEra);
        }
        var newAmount := SaturatingSub(last.amount, amount);
        if era == last.era {
          stakes := stakes[|stakes| - 1 := EraStake(newAmount, era)];
        } else {
          stakes := stakes + [EraStake(newAmount, era)];
        }
        if |stakes| > 0 && stakes[0].amount == 0 {
          stakes := stakes[1..];
        }
      }
      r := Ok(());
    }

    method Claim() returns (era: nat, amount: nat)
      modifies this
      ensures ClaimResult(stakes, era, amount) == Claimed(old(stakes))
    {
      if |stakes| > 0 {
        var head := stakes[0];
        if |stakes| == 1 || stakes[1].era > head.era + 1 {
          stakes := stakes[0 := EraStake(head.amount, head.era + 1)];
        } else {
          stakes := stakes[1..];
        }
        if |stakes| > 0 && stakes[0].amount == 0 {
          stakes := stakes[1..];
        }
        return head.era, head.amount;
      }
      return 0, 0;
    }
  }
}
