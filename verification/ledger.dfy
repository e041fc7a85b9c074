/** The supplier ledger: what the page shows as a supplier's balance
    (`getSupplierBalance`) and a business's total debt (`getTotalDebt`). */
module Ledger {
  import opened Common
  import opened Records

  function OfSupplier(id: Id): Transaction -> bool { (t: Transaction) => t.supplierId == id }
  function OfKind(k: TxKind): Transaction -> bool { (t: Transaction) => t.kind == k }
  function TxAmount(t: Transaction): int { t.amount }

  /** The balance exactly as the page computes it: keep the supplier's
      transactions, then sum the purchases and subtract the sum of the payments.
      Positive means money is owed to the supplier. */
  function SupplierBalance(id: Id, ts: seq<Transaction>): (r: int)
    ensures (forall t :: t in ts ==> t.supplierId != id) ==> r == 0
    ensures (forall t :: t in ts && t.supplierId == id ==> t.kind == Purchase && t.amount >= 0) ==> r >= 0
  {
    var tx := Filter(ts, OfSupplier(id));
    var purchases := Filter(tx, OfKind(Purchase));
    var payments := Filter(tx, OfKind(Payment));
    assert |tx| > 0 ==> tx[0] in tx;
    assert |payments| > 0 ==> payments[0] in payments;
    SumOfNonNegative(purchases, TxAmount);
    SumOf(purchases, TxAmount) - SumOf(payments, TxAmount)
  }

  /** What one transaction does to supplier `id`'s balance. */
  function SignedEffect(id: Id, t: Transaction): int
  {
    if t.supplierId != id then 0
    else
      match t.kind
      case Purchase => t.amount
      case Payment => -t.amount
  }

  function EffectOn(id: Id): Transaction -> int { (t: Transaction) => SignedEffect(id, t) }

  /** One more transaction moves the balance by exactly its signed effect. */
  lemma BalanceStep(id: Id, ts: seq<Transaction>, t: Transaction)
    ensures SupplierBalance(id, ts + [t]) == SupplierBalance(id, ts) + SignedEffect(id, t)
  {
    var tx := Filter(ts, OfSupplier(id));
    var extra := if t.supplierId == id then [t] else [];
    FilterAppend(ts, [t], OfSupplier(id));
    FilterSingleton(t, OfSupplier(id));
    assert Filter(ts + [t], OfSupplier(id)) == tx + extra;
    FilterAppend(tx, extra, OfKind(Purchase));
    FilterAppend(tx, extra, OfKind(Payment));
    SumOfAppend(Filter(tx, OfKind(Purchase)), Filter(extra, OfKind(Purchase)), TxAmount);
    SumOfAppend(Filter(tx, OfKind(Payment)), Filter(extra, OfKind(Payment)), TxAmount);
    if t.supplierId == id {
      FilterSingleton(t, OfKind(Purchase));
      FilterSingleton(t, OfKind(Payment));
      SumOfSingleton(t, TxAmount);
    }
  }

  /** The balance is the single-pass signed sum over ALL transactions. */
  lemma {:induction false} BalanceIsSignedSum(id: Id, ts: seq<Transaction>)
    ensures SupplierBalance(id, ts) == SumOf(ts, EffectOn(id))
    decreases |ts|
  {
    if |ts| > 0 {
      var init := ts[..|ts| - 1];
      assert ts == init + [ts[|ts| - 1]];
      BalanceIsSignedSum(id, init);
      BalanceStep(id, init, ts[|ts| - 1]);
    }
  }

  function EntryOf(id: Id, k: TxKind): Transaction -> bool { (t: Transaction) => t.supplierId == id && t.kind == k }
  function MaskedAmount(id: Id, k: TxKind): Transaction -> int { (t: Transaction) => if t.supplierId == id && t.kind == k then t.amount else 0 }

  /** The balance is the sum of the supplier's purchases minus the sum of its payments. */
  lemma BalanceIsPurchasesMinusPayments(id: Id, ts: seq<Transaction>)
    ensures SupplierBalance(id, ts)
         == SumOf(Filter(ts, EntryOf(id, Purchase)), TxAmount) - SumOf(Filter(ts, EntryOf(id, Payment)), TxAmount)
  {
    BalanceIsSignedSum(id, ts);
    SumOfFilter(ts, EntryOf(id, Purchase), TxAmount, MaskedAmount(id, Purchase));
    SumOfFilter(ts, EntryOf(id, Payment), TxAmount, MaskedAmount(id, Payment));
    SumOfAdd(ts, MaskedAmount(id, Purchase), EffectOn(id), MaskedAmount(id, Payment));
  }

  /** Transactions of other suppliers never affect a balance. */
  lemma BalanceOnlyOwnTransactions(id: Id, ts: seq<Transaction>)
    ensures SupplierBalance(id, ts) == SupplierBalance(id, Filter(ts, OfSupplier(id)))
  {
    BalanceIsSignedSum(id, ts);
    BalanceIsSignedSum(id, Filter(ts, OfSupplier(id)));
    SumOfFilter(ts, OfSupplier(id), EffectOn(id), EffectOn(id));
  }

  /** ALIM 500 + ALIM 300 + ODEME 200 to one supplier gives it a balance of 600. */
  lemma BalanceExample(id: Id, t1: Transaction, t2: Transaction, t3: Transaction)
    requires t1.supplierId == id && t1.kind == Purchase && t1.amount == 500
    requires t2.supplierId == id && t2.kind == Purchase && t2.amount == 300
    requires t3.supplierId == id && t3.kind == Payment && t3.amount == 200
    ensures SupplierBalance(id, [t1, t2, t3]) == 600
  {
    var ts := [t1, t2, t3];
    BalanceIsSignedSum(id, ts);
    assert SumOf(ts, EffectOn(id)) == 600 by {
      assert ts[..2] == [t1, t2] && ts[..2][..1] == [t1] && ts[..2][..1][..0] == [];
      assert SumOf([t1], EffectOn(id)) == 500;
      assert SumOf([t1, t2], EffectOn(id)) == 800;
    }
  }

  function InBusiness(bid: Id): Supplier -> bool { (s: Supplier) => s.businessId == bid }

  /** `getBusinessSuppliers()`: the suppliers of the selected business, in list
      order; none at all when no business is selected. */
  function BusinessSuppliers(selected: Option<Business>, sups: seq<Supplier>): (r: seq<Supplier>)
    ensures forall s :: s in r <==> selected.Some? && s in sups && s.businessId == selected.value.id
    ensures |r| <= |sups|
    ensures Subsequence(r, sups)
  {
    match selected
    case None => []
    case Some(b) => Filter(sups, InBusiness(b.id))
  }

  function BalanceIn(ts: seq<Transaction>): Supplier -> int { (s: Supplier) => SupplierBalance(s.id, ts) }

  /** `getTotalDebt()`: the sum of the balances of the selected business's suppliers. */
  function TotalDebt(selected: Option<Business>, sups: seq<Supplier>, ts: seq<Transaction>): (r: int)
    ensures selected.None? ==> r == 0
  {
    SumOf(BusinessSuppliers(selected, sups), BalanceIn(ts))
  }

  /** A supplier adds its balance to the total debt of its own business and nothing to any other. */
  lemma TotalDebtAddSupplier(b: Business, sups: seq<Supplier>, s: Supplier, ts: seq<Transaction>)
    ensures TotalDebt(Some(b), sups + [s], ts)
         == TotalDebt(Some(b), sups, ts) + (if s.businessId == b.id then SupplierBalance(s.id, ts) else 0)
  {
    FilterAppend(sups, [s], InBusiness(b.id));
    FilterSingleton(s, InBusiness(b.id));
    SumOfAppend(Filter(sups, InBusiness(b.id)), Filter([s], InBusiness(b.id)), BalanceIn(ts));
    if s.businessId == b.id {
      SumOfSingleton(s, BalanceIn(ts));
    }
  }

  /** The total debt depends on the suppliers' ids and owning businesses only:
      changing a name, phone or notes never changes it. */
  lemma {:induction false} TotalDebtDependsOnIdsOnly(b: Business, sups: seq<Supplier>, sups': seq<Supplier>, ts: seq<Transaction>)
    requires |sups| == |sups'|
    requires forall i :: 0 <= i < |sups| ==> sups[i].id == sups'[i].id && sups[i].businessId == sups'[i].businessId
    ensures TotalDebt(Some(b), sups, ts) == TotalDebt(Some(b), sups', ts)
    decreases |sups|
  {
    if |sups| > 0 {
      var n := |sups| - 1;
      assert sups == sups[..n] + [sups[n]];
      assert sups' == sups'[..n] + [sups'[n]];
      TotalDebtDependsOnIdsOnly(b, sups[..n], sups'[..n], ts);
      TotalDebtAddSupplier(b, sups[..n], sups[n], ts);
      TotalDebtAddSupplier(b, sups'[..n], sups'[n], ts);
    }
  }

  /** No two suppliers share an id (the backend's primary key). */
  predicate UniqueIds(sups: seq<Supplier>)
  {
    forall i, j :: 0 <= i < j < |sups| ==> sups[i].id != sups[j].id
  }

  lemma {:induction false} FilterKeepsUniqueIds(sups: seq<Supplier>, p: Supplier -> bool)
    requires UniqueIds(sups)
    ensures UniqueIds(Filter(sups, p))
    decreases |sups|
  {
    if |sups| > 0 {
      var init := sups[..|sups| - 1];
      var last := sups[|sups| - 1];
      assert sups == init + [last];
      FilterKeepsUniqueIds(init, p);
      var f := Filter(init, p);
      if p(last) {
        forall x | x in f
          ensures x.id != last.id
        {
          var k :| 0 <= k < |init| && init[k] == x;
          assert sups[k] == x;
        }
        var r := f + [last];
        forall i, j | 0 <= i < j < |r|
          ensures r[i].id != r[j].id
        {
          if j == |r| - 1 {
            assert r[i] in f;
          } else {
            assert r[i] == f[i] && r[j] == f[j];
          }
        }
      }
    }
  }

  /** Transaction `t` belongs to one of the suppliers in `sups`. */
  predicate OwnedBy(sups: seq<Supplier>, t: Transaction)
  {
    exists s :: s in sups && s.id == t.supplierId
  }

  function EffectFor(t: Transaction): Supplier -> int { (s: Supplier) => SignedEffect(s.id, t) }

  /** What a transaction adds to the debt owed to the suppliers `sups`. */
  function DebtEffect(sups: seq<Supplier>): Transaction -> int
  {
    (t: Transaction) => if OwnedBy(sups, t) then SignedEffect(t.supplierId, t) else 0
  }

  /** With unique ids, at most one supplier is hit by a transaction. */
  lemma {:induction false} EffectHitsOneSupplier(sups: seq<Supplier>, t: Transaction)
    requires UniqueIds(sups)
    ensures SumOf(sups, EffectFor(t)) == DebtEffect(sups)(t)
    decreases |sups|
  {
    if |sups| > 0 {
      var init := sups[..|sups| - 1];
      var last := sups[|sups| - 1];
      assert sups == init + [last];
      EffectHitsOneSupplier(init, t);
      if last.id == t.supplierId {
        assert !OwnedBy(init, t) by {
          forall s | s in init
            ensures s.id != t.supplierId
          {
            var k :| 0 <= k < |init| && init[k] == s;
            assert sups[k] == s;
          }
        }
        assert OwnedBy(sups, t);
      } else {
        assert OwnedBy(sups, t) <==> OwnedBy(init, t);
      }
    }
  }

  /** With unique supplier ids, the total debt of a business is the signed sum of
      exactly those transactions whose supplier belongs to it. */
  lemma {:induction false} TotalDebtByTransactions(b: Business, sups: seq<Supplier>, ts: seq<Transaction>)
    requires UniqueIds(sups)
    ensures TotalDebt(Some(b), sups, ts) == SumOf(ts, DebtEffect(BusinessSuppliers(Some(b), sups)))
    decreases |ts|
  {
    var bs := BusinessSuppliers(Some(b), sups);
    FilterKeepsUniqueIds(sups, InBusiness(b.id));
    if |ts| == 0 {
      SumOfZero(bs, BalanceIn(ts));
    } else {
      var init := ts[..|ts| - 1];
      var t := ts[|ts| - 1];
      assert ts == init + [t];
      forall s | s in bs
        ensures BalanceIn(ts)(s) == BalanceIn(init)(s) + EffectFor(t)(s)
      {
        BalanceStep(s.id, init, t);
      }
      SumOfAdd(bs, BalanceIn(ts), BalanceIn(init), EffectFor(t));
      TotalDebtByTransactions(b, sups, init);
      EffectHitsOneSupplier(bs, t);
    }
  }
}
