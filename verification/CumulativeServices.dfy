/** The three cumulative endpoints as services with running totals. */
module CumulativeServices {
  import opened Transfers
  import opened Tables
  import opened DayCache
  import opened Transparency
  import opened Endpoints
  import opened CumulativeRuns
  import opened CumulativeLimits
  import C = Cumulative
  import L = LockedValue

  /** Amounts transferred to each chain. */
  function ToService(skip: set<nat>, release: nat): Service<Inner> {
    Service(ToEndpoint(skip), Look, (c: string, x: string) => To(c, x),
            (prev: Table, day: Table) => C.Accumulate(C.ToTotals(skip), prev, day), (t: Table) => t, false, release)
  }

  /** Amounts received by address. */
  function AddressService(skip: set<nat>, release: nat): Service<Inner> {
    Service(AddressEndpoint(skip), Look, (c: string, x: string) => Address(c, x),
            (prev: Table, day: Table) => C.Accumulate(C.AddressTotals(skip), prev, day), (t: Table) => t, true, release)
  }

  /** Balances locked on each chain. */
  function LockedService(skip: set<nat>, tokens: set<string>, release: nat): Service<L.Assets> {
    Service(LockedEndpoint(skip, tokens), L.AmountAt, (c: string, x: string) => Locked(c, x, tokens),
            L.Moved, L.Copied, true, release)
  }

  lemma ToLawful(skip: set<nat>, release: nat)
    ensures Lawful(ToService(skip, release))
  {
    var v := ToService(skip, release);
    forall t: Table, rows ensures TablesMean(v, t, rows) {
      if Same(v.cfg, t, v.cfg.compute(rows)) { SameTo(skip, t, rows); }
    }
    forall t: Table, c, x ensures BlankMeansZero(v, t, c, x) {
      assert Get(BLANK, x) == 0.0;
    }
    forall prev: Table, day: Table, c, x ensures MoveAdds(v, prev, day, c, x) {
      ToMoves(skip, prev, day, c, x);
    }
  }

  lemma ToMoves(skip: set<nat>, prev: Table, day: Table, c: string, x: string)
    ensures Look(C.Accumulate(C.ToTotals(skip), prev, day), c, x) == if c in day then Look(prev, c, x) + Look(day, c, x) else 0.0
  {
    assert C.Empty(C.ToTotals(skip));
    C.AccumulateMeaning(C.ToTotals(skip), prev, day, c, x);
  }

  lemma AddressLawful(skip: set<nat>, release: nat)
    ensures Lawful(AddressService(skip, release))
  {
    var v := AddressService(skip, release);
    forall t: Table, rows ensures TablesMean(v, t, rows) {
      if Same(v.cfg, t, v.cfg.compute(rows)) { SameAddress(skip, t, rows); }
    }
    forall prev: Table, day: Table, c, x ensures MoveAdds(v, prev, day, c, x) {
      AddressMoves(skip, prev, day, c, x);
    }
  }

  lemma AddressMoves(skip: set<nat>, prev: Table, day: Table, c: string, x: string)
    ensures Look(C.Accumulate(C.AddressTotals(skip), prev, day), c, x)
         == if c in day then Look(prev, c, x) + Look(day, c, x) else 0.0
  {
    assert C.Empty(C.AddressTotals(skip));
    C.AccumulateMeaning(C.AddressTotals(skip), prev, day, c, x);
  }

  lemma LockedLawful(skip: set<nat>, tokens: set<string>, release: nat)
    ensures Lawful(LockedService(skip, tokens, release))
  {
    var v := LockedService(skip, tokens, release);
    forall t: L.LockedTable, rows ensures TablesMean(v, t, rows) {
      if Same(v.cfg, t, v.cfg.compute(rows)) { SameLocked(skip, tokens, t, rows); }
    }
    forall prev: L.LockedTable, day: L.LockedTable, c, x ensures MoveAdds(v, prev, day, c, x) {
      L.MovedAmount(prev, day, c, x);
    }
    forall t: L.LockedTable, c, x ensures CopyKeeps(v, t, c, x) {
      L.CopiedReads(t, c, x);
    }
  }

  // ----- exactly when their totals are right -----

  /** The transfer of value one, under any key. */
  function OneAt(key: string): Row { ONE.(key := key) }

  /** Amounts by chain: right in all runs without a midnight inside a call if and only if ""
      and "*" are not mixed, and with such midnights only if nobody asks. */
  lemma ToTotalsRightIff(skip: set<nat>, release: nat, sc: Scope)
    requires release !in skip
    ensures RightInCalmRuns(ToService(skip, release), sc) <==> Unmixed(sc)
    ensures RightInAllRuns(ToService(skip, release), sc) <==> sc.asked == iset{}
  {
    var v := ToService(skip, release);
    ToLawful(skip, release);
    forall key ensures v.cfg.key(OneAt(key)) == key && Weight(v.cell("2", "A"), OneAt(key)) != 0.0 {
      assert "2"[0] != ANY[0] && "A"[0] != ANY[0];
    }
    TotalsRightIff(v, sc, OneAt, "2", "A");
    RightDespiteMidnightsIff(v, sc, OneAt, "2", "A");
  }

  /** The same for amounts by address. */
  lemma AddressTotalsRightIff(skip: set<nat>, release: nat, sc: Scope)
    requires release !in skip
    ensures RightInCalmRuns(AddressService(skip, release), sc) <==> Unmixed(sc)
    ensures RightInAllRuns(AddressService(skip, release), sc) <==> sc.asked == iset{}
  {
    var v := AddressService(skip, release);
    AddressLawful(skip, release);
    assert Shows(v, OneAt, "2", "0y");
    TotalsRightIff(v, sc, OneAt, "2", "0y");
    RightDespiteMidnightsIff(v, sc, OneAt, "2", "0y");
  }

  /** The same for locked value, where `token` is any token that is not excluded. The
      endpoint takes no prefix: it always asks for "". */
  lemma LockedTotalsRightIff(skip: set<nat>, tokens: set<string>, token: string, release: nat, sc: Scope)
    requires release !in skip && token !in tokens && token != ""
    ensures RightInCalmRuns(LockedService(skip, tokens, release), sc) <==> Unmixed(sc)
    ensures RightInAllRuns(LockedService(skip, tokens, release), sc) <==> sc.asked == iset{}
  {
    var v := LockedService(skip, tokens, release);
    LockedLawful(skip, tokens, release);
    var rowAt := (key: string) => ONE.(key := key, tokenAddress := token);
    forall key ensures v.cfg.key(rowAt(key)) == key && Weight(v.cell("1", token), rowAt(key)) != 0.0 {
      assert "1"[0] != "2"[0];
    }
    TotalsRightIff(v, sc, rowAt, "1", token);
    RightDespiteMidnightsIff(v, sc, rowAt, "1", token);
  }

  /** So the locked-value endpoint is right in every run without a midnight inside a call. */
  lemma LockedTotalsRight(skip: set<nat>, tokens: set<string>, release: nat)
    ensures RightInCalmRuns(LockedService(skip, tokens, release), Scope(iset{""}, iset{""}))
  {
    LockedLawful(skip, tokens, release);
    UnmixedIsRight(LockedService(skip, tokens, release), Scope(iset{""}, iset{""}));
  }

  /** A whole run: where a total for "" is cached, a call for "*" takes it over and reads one,
      although no key starts with "*". */
  lemma StarTotalLeaks() returns (run: seq<Event>)
    ensures var v := AddressService({}, 0); var sc := Scope(iset{""}, iset{"", "*"});
      var w0 := Loaded2(v, ONE, AddressTable([ONE]));
      RunOf(v, sc, w0, run) && CalmRun(v, w0, run)
      && var w := After(v, w0, run);
         Ongoing(w, 0) && RequestOf(w, 0).prefix == "*" && 0 in w.calls[0].results
         && Look(w.calls[0].results[0], "2", "0y") == 1.0
         && Total(Address("2", "0y"), RowsUpTo(v, w.days, "*", 1)) == 0.0
  {
    var v, sc := AddressService({}, 0), Scope(iset{""}, iset{"", "*"});
    AddressLawful({}, 0);
    OneRow(v.cfg, ONE, "");
    OneRow(v.cfg, ONE, "*");
    run := MixedRun(v, sc, ONE, "*", "");
    var w := After(v, Loaded2(v, ONE, AddressTable([ONE])), run);
    RowsOfOne(v, w.days, ONE, "*");
    assert ONE.key[0] != "*"[0];
    AddressTableMeaning([ONE], "2", "0y");
    OneByAddress();
  }
}
