/** What sessions, registrations and departures keep: deposits, order, a floor, and patience. */
module ValidatorProofs {
  import Arithmetic
  import Currency
  import opened ValidatorSpec

  // ---- The session kick, declaratively

  predicate Distinct(cs: Candidates) {
    forall i, j :: 0 <= i < j < |cs| ==> cs[i].who != cs[j].who
  }

  /** The candidates that stay when the first stale ones, up to the budget, go. */
  function Survivors(cfg: ValidatorConfig, vs: Validators, now: nat, cs: Candidates, budget: nat): Candidates {
    if cs == [] then []
    else if Stale(cfg, vs, now, cs[0].who) && budget > 0 then Survivors(cfg, vs, now, cs[1..], budget - 1)
    else [cs[0]] + Survivors(cfg, vs, now, cs[1..], budget)
  }

  function StaleCount(cfg: ValidatorConfig, vs: Validators, now: nat, cs: Candidates): nat {
    if cs == [] then 0 else (if Stale(cfg, vs, now, cs[0].who) then 1 else 0) + StaleCount(cfg, vs, now, cs[1..])
  }

  /** Exactly the smaller of the number of stale candidates and the budget is removed. */
  lemma {:induction false} SurvivorsCount(cfg: ValidatorConfig, vs: Validators, now: nat, cs: Candidates, budget: nat)
    ensures |Survivors(cfg, vs, now, cs, budget)| + Arithmetic.Min(StaleCount(cfg, vs, now, cs), budget) == |cs|
  {
    if cs != [] {
      var stale := Stale(cfg, vs, now, cs[0].who) && budget > 0;
      SurvivorsCount(cfg, vs, now, cs[1..], if stale then budget - 1 else budget);
    }
  }

  /** A candidate goes exactly if it is stale and fewer stale ones than the budget stand before it. */
  lemma {:induction false} SurvivorsExactly(cfg: ValidatorConfig, vs: Validators, now: nat, cs: Candidates,
                                            budget: nat, i: nat)
    requires Distinct(cs) && i < |cs|
    ensures cs[i] in Survivors(cfg, vs, now, cs, budget) <==>
              !(Stale(cfg, vs, now, cs[i].who) && StaleCount(cfg, vs, now, cs[..i]) < budget)
  {
    var stale := Stale(cfg, vs, now, cs[0].who) && budget > 0;
    var rest := if stale then budget - 1 else budget;
    SurvivorsWithin(cfg, vs, now, cs[1..], rest);
    if i == 0 {
      assert cs[..0] == [];
      assert forall j :: 0 <= j < |cs[1..]| ==> cs[1..][j].who != cs[0].who;
    } else {
      SurvivorsExactly(cfg, vs, now, cs[1..], rest, i - 1);
      assert cs[..i][1..] == cs[1..][..i - 1];
      assert cs[i].who != cs[0].who;
    }
  }

  lemma {:induction false} SurvivorsWithin(cfg: ValidatorConfig, vs: Validators, now: nat, cs: Candidates, budget: nat)
    ensures forall c :: c in Survivors(cfg, vs, now, cs, budget) ==> c in cs
  {
    if cs != [] {
      var stale := Stale(cfg, vs, now, cs[0].who) && budget > 0;
      SurvivorsWithin(cfg, vs, now, cs[1..], if stale then budget - 1 else budget);
    }
  }

  function Names(cs: Candidates): (names: seq<Currency.AccountId>)
    ensures |names| == |cs| && forall i :: 0 <= i < |cs| ==> names[i] == cs[i].who
  {
    if cs == [] then [] else [cs[0].who] + Names(cs[1..])
  }

  lemma {:induction false} NamesConcat(a: Candidates, b: Candidates)
    ensures Names(a + b) == Names(a) + Names(b)
  {
    if a == [] {
      assert a + b == b;
    } else {
      assert (a + b)[1..] == a[1..] + b;
      NamesConcat(a[1..], b);
    }
  }

  function Budget(cfg: ValidatorConfig, n: nat): nat {
    Arithmetic.SaturatingSub(n, cfg.minCandidates)
  }

  /** Visiting one more candidate than a prefix, of which the survivors are known. */
  lemma {:induction false} SurvivorsAppend(cfg: ValidatorConfig, vs: Validators, now: nat, cs: Candidates,
                                           c: CandidateInfo, budget: nat)
    ensures var kept := Survivors(cfg, vs, now, cs, budget);
            Survivors(cfg, vs, now, cs + [c], budget)
            == if Stale(cfg, vs, now, c.who) && StaleCount(cfg, vs, now, cs) < budget then kept else kept + [c]
  {
    if cs == [] {
      assert cs + [c] == [c];
      assert [c][1..] == [];
    } else {
      var stale := Stale(cfg, vs, now, cs[0].who) && budget > 0;
      SurvivorsAppend(cfg, vs, now, cs[1..], c, if stale then budget - 1 else budget);
      assert (cs + [c])[1..] == cs[1..] + [c];
    }
  }

  /** Midway through the kick the stored list is the survivors so far, then all not visited yet. */
  ghost predicate Midway(vs: Validators, k: Kicked, kept: Candidates, rest: Candidates) {
    && k.world.vs.candidates == kept + rest
    && k.survivors == Names(kept)
    && k.world.vs == vs.(candidates := k.world.vs.candidates, lastAuthoredBlock := k.world.vs.lastAuthoredBlock)
    && (forall c :: c in kept || c in rest ==> LastBlock(k.world.vs, c.who) == LastBlock(vs, c.who))
  }

  lemma {:induction false} PositionAfter(a: Candidates, c: CandidateInfo, b: Candidates)
    requires forall i :: 0 <= i < |a| ==> a[i].who != c.who
    ensures Position(a + ([c] + b), c.who) == |a|
  {
    if a == [] {
      assert a + ([c] + b) == [c] + b;
    } else {
      assert (a + ([c] + b))[1..] == a[1..] + ([c] + b);
      PositionAfter(a[1..], c, b);
    }
  }

  lemma RemoveAfter(a: Candidates, c: CandidateInfo, b: Candidates)
    ensures RemoveAt(a + ([c] + b), |a|) == a + b
  {
  }

  lemma KeepOne(cfg: ValidatorConfig, vs: Validators, now: nat, k: Kicked, kept: Candidates, c: CandidateInfo,
                rest: Candidates)
    requires Midway(vs, k, kept, [c] + rest)
    requires !Stale(cfg, vs, now, c.who) || |kept| + 1 + |rest| <= cfg.minCandidates
    ensures Midway(vs, KickOne(cfg, k, now, c.who), kept + [c], rest)
  {
    assert c in [c] + rest;
    assert kept + ([c] + rest) == (kept + [c]) + rest;
    NamesConcat(kept, [c]);
    assert Names([c]) == [c.who];
  }

  lemma RemoveOne(cfg: ValidatorConfig, vs: Validators, now: nat, k: Kicked, kept: Candidates, c: CandidateInfo,
                  rest: Candidates)
    requires Midway(vs, k, kept, [c] + rest)
    requires Stale(cfg, vs, now, c.who) && |kept| + 1 + |rest| > cfg.minCandidates
    requires forall x :: x in kept || x in rest ==> x.who != c.who
    ensures TryRemoveCandidate(cfg, k.world, c.who, true).Ok?
    ensures Midway(vs, KickOne(cfg, k, now, c.who), kept, rest)
  {
    assert c in [c] + rest;
    forall i | 0 <= i < |kept| ensures kept[i].who != c.who {
      assert kept[i] in kept;
    }
    PositionAfter(kept, c, rest);
    RemoveAfter(kept, c, rest);
    forall x | x in kept || x in rest
      ensures LastBlock(KickOne(cfg, k, now, c.who).world.vs, x.who) == LastBlock(vs, x.who)
    {
      assert x in kept || x in [c] + rest;
    }
  }

  /** The state of the kick after n candidates of the snapshot. */
  ghost predicate KickedSoFar(cfg: ValidatorConfig, vs: Validators, now: nat, n: nat, k: Kicked)
    requires n <= |vs.candidates|
  {
    Midway(vs, k, Survivors(cfg, vs, now, vs.candidates[..n], Budget(cfg, |vs.candidates|)), vs.candidates[n..])
  }

  /** One visit keeps or removes the next candidate, and the removal never fails. */
  lemma KickNext(cfg: ValidatorConfig, vs: Validators, now: nat, n: nat, k: Kicked)
    requires Distinct(vs.candidates) && n < |vs.candidates|
    requires KickedSoFar(cfg, vs, now, n, k)
    ensures KickedSoFar(cfg, vs, now, n + 1, KickOne(cfg, k, now, vs.candidates[n].who))
  {
    var cs := vs.candidates;
    var c := cs[n];
    var rest := cs[n + 1..];
    var budget := Budget(cfg, |cs|);
    var kept := Survivors(cfg, vs, now, cs[..n], budget);
    assert cs[..n + 1] == cs[..n] + [c];
    assert cs[n..] == [c] + rest;
    SurvivorsAppend(cfg, vs, now, cs[..n], c, budget);
    SurvivorsCount(cfg, vs, now, cs[..n], budget);
    if Stale(cfg, vs, now, c.who) && StaleCount(cfg, vs, now, cs[..n]) < budget {
      SurvivorsWithin(cfg, vs, now, cs[..n], budget);
      forall x | x in kept || x in rest ensures x.who != c.who {
        assert x in cs[..n] || x in rest;
      }
      RemoveOne(cfg, vs, now, k, kept, c, rest);
    } else {
      KeepOne(cfg, vs, now, k, kept, c, rest);
    }
  }

  lemma NothingKicked(w: World)
    ensures Midway(w.vs, Kicked(w, []), [], w.vs.candidates)
  {
    assert [] + w.vs.candidates == w.vs.candidates;
  }

  lemma NothingVisited(cfg: ValidatorConfig, w: World, now: nat)
    ensures KickedSoFar(cfg, w.vs, now, 0, Kicked(w, []))
  {
    NothingKicked(w);
    assert w.vs.candidates[..0] == [] && w.vs.candidates[0..] == w.vs.candidates;
  }

  lemma {:induction false} KickFirstSoFar(cfg: ValidatorConfig, w: World, now: nat, n: nat)
    requires Distinct(w.vs.candidates) && n <= |w.vs.candidates|
    ensures KickedSoFar(cfg, w.vs, now, n, KickFirst(cfg, w, now, w.vs.candidates, n))
  {
    if n == 0 {
      NothingVisited(cfg, w, now);
    } else {
      var k := KickFirst(cfg, w, now, w.vs.candidates, n - 1);
      KickFirstSoFar(cfg, w, now, n - 1);
      KickNext(cfg, w.vs, now, n - 1, k);
      assert KickFirst(cfg, w, now, w.vs.candidates, n) == KickOne(cfg, k, now, w.vs.candidates[n - 1].who);
    }
  }

  /**
    A new session stores exactly the survivors, in order, and returns them after the invulnerables:
    the first stale candidates go, as long as more than the minimum remain, and nobody else.
   */
  lemma SessionKick(cfg: ValidatorConfig, w: World, now: nat)
    requires Distinct(w.vs.candidates)
    ensures var (next, validators) := NewSession(cfg, w, now);
            var kept := Survivors(cfg, w.vs, now, w.vs.candidates, Budget(cfg, |w.vs.candidates|));
            && next.vs.candidates == kept
            && validators == w.vs.invulnerables + Names(kept)
            && next.vs == w.vs.(candidates := kept, lastAuthoredBlock := next.vs.lastAuthoredBlock)
            && forall c :: c in kept ==> LastBlock(next.vs, c.who) == LastBlock(w.vs, c.who)
  {
    var cs := w.vs.candidates;
    KickFirstSoFar(cfg, w, now, |cs|);
    assert cs[..|cs|] == cs && cs[|cs|..] == [];
  }
}
