/**
 The reconciler: a loop that adds up signed amounts per currency in wrapping 64-bit
 arithmetic and reports drift when a total is not zero.
 */
module Reconciler {
  import opened Ledger
  import opened Protocol
  import opened Balances

  lemma WrapAdd(a: int, b: int)
    ensures Wrap64(Wrap64(a) + b) == Wrap64(a + b)
  {
    var k := (Wrap64(a) - a) / TWO_64;
    assert Wrap64(a) == a + k * TWO_64;
    var m := MAX_INT64 + 1;
    assert (a + k * TWO_64 + b + m) % TWO_64 == (a + b + m) % TWO_64;
  }

  /** A wrapped total is zero exactly for the multiples of 2^64. */
  lemma WrapZero(x: int)
    ensures Wrap64(x) == 0 <==> x % TWO_64 == 0
  {
  }

  /** What the reconciler must report: some currency's wrapped total is not zero. */
  ghost predicate Drifts(es: seq<LedgerEntry>) {
    exists c :: Wrap64(SignedSum(es, TotalOf(c))) != 0
  }

  predicate Occurs(es: seq<LedgerEntry>, c: Currency) {
    exists i :: 0 <= i < |es| && es[i].amount.currency == c
  }

  lemma {:induction false} AbsentIsZero(es: seq<LedgerEntry>, c: Currency)
    requires !Occurs(es, c)
    ensures SignedSum(es, TotalOf(c)) == 0
  {
    if |es| > 0 {
      var n := |es| - 1;
      assert es[n].amount.currency != c;
      forall i | 0 <= i < n ensures es[..n][i].amount.currency != c {
        assert es[i].amount.currency != c;
      }
      AbsentIsZero(es[..n], c);
    }
  }

  /** The first loop: wrapped totals of the currencies that occur. */
  method Totals(entries: seq<LedgerEntry>) returns (totals: map<Currency, int>)
    ensures forall c :: c in totals <==> Occurs(entries, c)
    ensures forall c :: c in totals ==> totals[c] == Wrap64(SignedSum(entries, TotalOf(c)))
  {
    totals := map[];
    for i := 0 to |entries|
      invariant forall c :: c in totals <==> Occurs(entries[..i], c)
      invariant forall c :: c in totals ==> totals[c] == Wrap64(SignedSum(entries[..i], TotalOf(c)))
    {
      var e := entries[i];
      var c := e.amount.currency;
      var sum := if c in totals then totals[c] else 0;
      TotalSnoc(entries[..i], e, c, sum);
      assert entries[..i + 1] == entries[..i] + [e];
      totals := totals[c := Wrap64(sum + SignedAmount(e))];
      forall d | d != c
        ensures SignedSum(entries[..i + 1], TotalOf(d)) == SignedSum(entries[..i], TotalOf(d))
        ensures Occurs(entries[..i + 1], d) <==> Occurs(entries[..i], d)
      {
        OtherCurrency(entries[..i], e, d);
      }
      assert entries[..i + 1][i].amount.currency == c;
    }
    assert entries[..|entries|] == entries;
  }

  lemma TotalSnoc(es: seq<LedgerEntry>, e: LedgerEntry, c: Currency, sum: int)
    requires c == e.amount.currency
    requires sum == if Occurs(es, c) then Wrap64(SignedSum(es, TotalOf(c))) else 0
    ensures Wrap64(sum + SignedAmount(e)) == Wrap64(SignedSum(es + [e], TotalOf(c)))
  {
    assert (es + [e])[..|es|] == es;
    if !Occurs(es, c) {
      AbsentIsZero(es, c);
    } else {
      WrapAdd(SignedSum(es, TotalOf(c)), SignedAmount(e));
    }
  }

  lemma OtherCurrency(es: seq<LedgerEntry>, e: LedgerEntry, d: Currency)
    requires e.amount.currency != d
    ensures SignedSum(es + [e], TotalOf(d)) == SignedSum(es, TotalOf(d))
    ensures Occurs(es + [e], d) <==> Occurs(es, d)
  {
    assert (es + [e])[..|es|] == es;
    if Occurs(es, d) {
      var i :| 0 <= i < |es| && es[i].amount.currency == d;
      assert (es + [e])[i].amount.currency == d;
    }
  }

  /** reconcile: the second loop raises the drift flag for every total that is not zero. */
  method Reconcile(entries: seq<LedgerEntry>) returns (drift: bool)
    ensures drift <==> Drifts(entries)
  {
    var totals := Totals(entries);
    drift := false;
    var rest := totals.Keys;
    while rest != {}
      invariant rest <= totals.Keys
      invariant drift <==> exists c :: c in totals.Keys - rest && totals[c] != 0
      decreases |rest|
    {
      var c :| c in rest;
      if totals[c] != 0 {
        drift := true;
      }
      rest := rest - {c};
    }
    if Drifts(entries) {
      var c :| Wrap64(SignedSum(entries, TotalOf(c))) != 0;
      if !Occurs(entries, c) {
        AbsentIsZero(entries, c);
      }
      assert c in totals.Keys - rest && totals[c] != 0;
    }
  }

  /** Drift goes unreported exactly when every total is a multiple of 2^64. */
  lemma NoReportIff(es: seq<LedgerEntry>)
    ensures !Drifts(es) <==> forall c :: SignedSum(es, TotalOf(c)) % TWO_64 == 0
  {
    forall c ensures Wrap64(SignedSum(es, TotalOf(c))) == 0 <==> SignedSum(es, TotalOf(c)) % TWO_64 == 0 {
      WrapZero(SignedSum(es, TotalOf(c)));
    }
  }

  /**
   No false alarm, in any run and for any order in which the entries are read: the
   reconciler reports drift exactly if the opening ledger already drifted.
   */
  lemma DriftOnlyFromTheStart(g: Regime, s0: System, acts: seq<Action>, s: System, entries: seq<LedgerEntry>)
    requires Init(s0) && Run(g, s0, acts, s) && multiset(entries) == multiset(s.book.ledger)
    ensures Drifts(entries) <==> Drifts(s.book.opening)
  {
    forall c ensures SignedSum(entries, TotalOf(c)) == SignedSum(s.book.opening, TotalOf(c)) {
      SumPermutation(entries, s.book.ledger, TotalOf(c));
      TotalsAreConserved(g, s0, acts, s, c);
    }
  }
}
