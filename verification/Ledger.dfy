/**
 The double-entry ledger: money, entries, balanced postings, and the one
 aggregation (a signed sum over selected entries) behind every balance, every
 reconciliation total and every per-transfer effect.
 */
module Ledger {

  /** Accounts and transfers are UUIDs; only their identity matters. */
  type AccountId = nat
  type TransferId = nat

  /** ISO-4217 codes; the engine has clearing accounts for two of them. */
  datatype Code = IDR | USD | Other(code: string)

  /** Each code is written in one way only. */
  type Currency = c: Code | c.Other? ==> c.code != "IDR" && c.code != "USD" witness IDR

  /** The empty code, which Validate refuses. */
  const NO_CURRENCY: Currency := Other("")

  const MAX_INT64: int := 0x7FFF_FFFF_FFFF_FFFF
  const TWO_64: int := 0x1_0000_0000_0000_0000

  predicate IsInt64(x: int) {
    -MAX_INT64 - 1 <= x <= MAX_INT64
  }

  /** Two's-complement wrap-around of a 64-bit signed integer. */
  function Wrap64(x: int): (r: int)
    ensures IsInt64(r)
    ensures (r - x) % TWO_64 == 0
  {
    (x + MAX_INT64 + 1) % TWO_64 - MAX_INT64 - 1
  }

  datatype Option<+T> = None | Some(value: T)

  datatype Result<+T> = Ok(value: T) | Err

  /** Amounts count the smallest unit of the currency. */
  datatype Money = Money(amount: int, currency: Currency) {
    /** money.Validate, for an int64 amount. */
    predicate Valid() {
      0 <= amount <= MAX_INT64 && currency != NO_CURRENCY
    }
  }

  /** The clearing account of a currency; a currency without one maps to the nil UUID. */
  function FloatAccount(currency: Currency): AccountId {
    match currency
    case IDR => 1
    case USD => 2
    case Other(_) => 0
  }

  datatype EntryType = Debit | Credit

  /** The four postings a transfer can cause. */
  datatype Kind =
    | Reserve   // source -> float: the debit reserve
    | Pay       // float -> destination: the credit
    | Clawback  // destination -> float: reversal of the credit
    | Refund    // float -> source: reversal of the debit

  /** An entry's description: the saga writes kind and transfer id into it. */
  datatype Memo = ForTransfer(kind: Kind, id: TransferId) | Text(text: string)

  datatype LedgerEntry = LedgerEntry(account: AccountId, entryType: EntryType, amount: Money, memo: Memo)

  /** The amount with the sign implied by the entry type; stored amounts are never negative. */
  function SignedAmount(e: LedgerEntry): int {
    if e.entryType == Debit then -e.amount.amount else e.amount.amount
  }

  datatype Posting = Posting(debit: LedgerEntry, credit: LedgerEntry) {
    function Entries(): seq<LedgerEntry> {
      [debit, credit]
    }

    /** A compensating posting with the two accounts exchanged. */
    function Reversal(): Result<Posting> {
      NewPosting(credit.account, debit.account, debit.amount, Text("REVERSAL"))
    }
  }

  /** Debits `src` and credits `dst`; refuses invalid or zero amounts and a transfer to oneself. */
  function NewPosting(src: AccountId, dst: AccountId, amount: Money, memo: Memo): (r: Result<Posting>)
    ensures r.Ok? <==> amount.Valid() && amount.amount != 0 && src != dst
    ensures r.Ok? ==> SignedAmount(r.value.debit) + SignedAmount(r.value.credit) == 0
  {
    if !amount.Valid() || amount.amount == 0 || src == dst then Err else
    var debit := LedgerEntry(src, Debit, amount, memo);
    var credit := LedgerEntry(dst, Credit, amount, memo);
    if SignedAmount(debit) + SignedAmount(credit) != 0 then Err else
    Ok(Posting(debit, credit))
  }

  /** Selects the entries of a currency, optionally of one account, optionally of one transfer. */
  datatype Query = Query(transfer: Option<TransferId>, account: Option<AccountId>, currency: Currency)

  function BalanceOf(account: AccountId, currency: Currency): Query {
    Query(None, Some(account), currency)
  }

  function TotalOf(currency: Currency): Query {
    Query(None, None, currency)
  }

  function NetOf(id: TransferId, account: AccountId, currency: Currency): Query {
    Query(Some(id), Some(account), currency)
  }

  predicate Selects(q: Query, e: LedgerEntry) {
    && e.amount.currency == q.currency
    && (q.account.Some? ==> e.account == q.account.value)
    && (q.transfer.Some? ==> e.memo.ForTransfer? && e.memo.id == q.transfer.value)
  }

  function Share(e: LedgerEntry, q: Query): int {
    if Selects(q, e) then SignedAmount(e) else 0
  }

  /** The signed sum of the selected entries. */
  function SignedSum(es: seq<LedgerEntry>, q: Query): int {
    if |es| == 0 then 0 else SignedSum(es[..|es| - 1], q) + Share(es[|es| - 1], q)
  }

  function Balance(es: seq<LedgerEntry>, account: AccountId, currency: Currency): int {
    SignedSum(es, BalanceOf(account, currency))
  }

  lemma {:induction false} SumConcat(a: seq<LedgerEntry>, b: seq<LedgerEntry>, q: Query)
    ensures SignedSum(a + b, q) == SignedSum(a, q) + SignedSum(b, q)
  {
    if |b| == 0 {
      assert a + b == a;
    } else {
      var b' := b[..|b| - 1];
      assert (a + b)[..|a + b| - 1] == a + b';
      SumConcat(a, b', q);
    }
  }

  lemma SumPair(x: LedgerEntry, y: LedgerEntry, q: Query)
    ensures SignedSum([x, y], q) == Share(x, q) + Share(y, q)
  {
    assert [x, y][..1] == [x];
    assert SignedSum([x], q) == Share(x, q);
  }

  /** What a posting does to one account. */
  function Move(src: AccountId, dst: AccountId, amount: int, account: AccountId): int {
    (if account == dst then amount else 0) - (if account == src then amount else 0)
  }

  /** A posting moves its amount from source to destination and changes no other balance and no total. */
  lemma PostingMoves(src: AccountId, dst: AccountId, amount: Money, memo: Memo, account: AccountId, currency: Currency)
    requires NewPosting(src, dst, amount, memo).Ok?
    ensures var es := NewPosting(src, dst, amount, memo).value.Entries();
            && SignedSum(es, BalanceOf(account, currency))
               == (if currency == amount.currency then Move(src, dst, amount.amount, account) else 0)
            && SignedSum(es, TotalOf(currency)) == 0
  {
    var p := NewPosting(src, dst, amount, memo).value;
    SumPair(p.debit, p.credit, BalanceOf(account, currency));
    SumPair(p.debit, p.credit, TotalOf(currency));
  }

  /** A posting and its reversal, placed anywhere in any ledger, leave every balance and every total as they were. */
  lemma ReversalUndoes(a: seq<LedgerEntry>, b: seq<LedgerEntry>, c: seq<LedgerEntry>,
                       src: AccountId, dst: AccountId, amount: Money, memo: Memo,
                       account: AccountId, currency: Currency)
    requires NewPosting(src, dst, amount, memo).Ok?
    ensures var p := NewPosting(src, dst, amount, memo).value;
            && p.Reversal().Ok?
            && var r := p.Reversal().value;
               && SignedSum(a + p.Entries() + b + r.Entries() + c, BalanceOf(account, currency))
                  == SignedSum(a + b + c, BalanceOf(account, currency))
               && SignedSum(a + p.Entries() + b + r.Entries() + c, TotalOf(currency))
                  == SignedSum(a + b + c, TotalOf(currency))
  {
    var p := NewPosting(src, dst, amount, memo).value;
    var r := p.Reversal().value;
    PostingMoves(src, dst, amount, memo, account, currency);
    PostingMoves(dst, src, amount, Text("REVERSAL"), account, currency);
    Scatter(a, p.Entries(), b, r.Entries(), c, BalanceOf(account, currency));
    Scatter(a, p.Entries(), b, r.Entries(), c, TotalOf(currency));
  }

  lemma Scatter(a: seq<LedgerEntry>, p: seq<LedgerEntry>, b: seq<LedgerEntry>, r: seq<LedgerEntry>,
                c: seq<LedgerEntry>, q: Query)
    ensures SignedSum(a + p + b + r + c, q) == SignedSum(a + b + c, q) + SignedSum(p, q) + SignedSum(r, q)
  {
    SumConcat(a + p + b + r, c, q);
    SumConcat(a + p + b, r, q);
    SumConcat(a + p, b, q);
    SumConcat(a, p, q);
    SumConcat(a + b, c, q);
    SumConcat(a, b, q);
  }

  // ---- Order does not matter ----

  lemma {:induction false} SumRemove(es: seq<LedgerEntry>, i: nat, q: Query)
    requires i < |es|
    ensures SignedSum(es, q) == SignedSum(es[..i] + es[i + 1..], q) + Share(es[i], q)
  {
    assert es == es[..i] + [es[i]] + es[i + 1..];
    SumConcat(es[..i] + [es[i]], es[i + 1..], q);
    SumConcat(es[..i], [es[i]], q);
    SumConcat(es[..i], es[i + 1..], q);
    assert [es[i]][..0] == [];
  }

  lemma RemoveOne(es: seq<LedgerEntry>, i: nat)
    requires i < |es|
    ensures multiset(es[..i] + es[i + 1..]) == multiset(es) - multiset{es[i]}
  {
    assert es == es[..i] + [es[i]] + es[i + 1..];
  }

  /** Signed sums do not depend on the order in which entries are read. */
  lemma {:induction false} SumPermutation(a: seq<LedgerEntry>, b: seq<LedgerEntry>, q: Query)
    requires multiset(a) == multiset(b)
    ensures SignedSum(a, q) == SignedSum(b, q)
    decreases |a|
  {
    if |a| == 0 {
      assert |multiset(a)| == |multiset(b)| == |b|;
    } else {
      var n := |a| - 1;
      assert a[n] in multiset(b);
      var i :| 0 <= i < |b| && b[i] == a[n];
      RemoveOne(a, n);
      RemoveOne(b, i);
      assert a[..n] + a[n + 1..] == a[..n];
      SumRemove(b, i, q);
      SumPermutation(a[..n], b[..i] + b[i + 1..], q);
    }
  }

  // ---- Balances add up to the total ----

  predicate Distinct<T(==)>(s: seq<T>) {
    forall i, j :: 0 <= i < j < |s| ==> s[i] != s[j]
  }

  function SumOfBalances(es: seq<LedgerEntry>, accounts: seq<AccountId>, currency: Currency): int {
    if |accounts| == 0 then 0
    else SumOfBalances(es, accounts[..|accounts| - 1], currency) + Balance(es, accounts[|accounts| - 1], currency)
  }

  lemma BalanceSnoc(es: seq<LedgerEntry>, e: LedgerEntry, account: AccountId, currency: Currency)
    ensures Balance(es + [e], account, currency)
            == Balance(es, account, currency) + (if e.account == account then Share(e, TotalOf(currency)) else 0)
  {
    assert (es + [e])[..|es|] == es;
  }

  lemma {:induction false} BalancesSplitLast(es: seq<LedgerEntry>, e: LedgerEntry, accounts: seq<AccountId>,
                                             currency: Currency)
    requires Distinct(accounts)
    ensures SumOfBalances(es + [e], accounts, currency)
            == SumOfBalances(es, accounts, currency)
               + (if e.account in accounts then Share(e, TotalOf(currency)) else 0)
  {
    if |accounts| > 0 {
      var n := |accounts| - 1;
      BalancesSplitLast(es, e, accounts[..n], currency);
      BalanceSnoc(es, e, accounts[n], currency);
      assert accounts == accounts[..n] + [accounts[n]];
    }
  }

  /** Summing GetBalance over all accounts gives the reconciler's total of the currency. */
  lemma {:induction false} BalancesSumToTotal(es: seq<LedgerEntry>, accounts: seq<AccountId>, currency: Currency)
    requires Distinct(accounts)
    requires forall i :: 0 <= i < |es| ==> es[i].account in accounts
    ensures SumOfBalances(es, accounts, currency) == SignedSum(es, TotalOf(currency))
  {
    if |es| == 0 {
      NoEntriesNoBalances(accounts, currency);
    } else {
      var n := |es| - 1;
      BalancesSumToTotal(es[..n], accounts, currency);
      BalancesSplitLast(es[..n], es[n], accounts, currency);
      assert es == es[..n] + [es[n]];
    }
  }

  lemma {:induction false} NoEntriesNoBalances(accounts: seq<AccountId>, currency: Currency)
    ensures SumOfBalances([], accounts, currency) == 0
  {
    if |accounts| > 0 {
      NoEntriesNoBalances(accounts[..|accounts| - 1], currency);
    }
  }
}
