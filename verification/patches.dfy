/** The local patches the page applies to its in-memory collections once the
    backend call succeeded: the filters of `confirmDeleteStep2` and the
    by-id map-replace of `handleEditSupplier`. A backend call that throws is
    the `failed` flag: no patch is applied then. */
module Patches {
  import opened Common
  import opened Records
  import opened Ledger

  /** The `type` of a pending deletion. */
  datatype TargetKind = SupplierTarget | TransactionTarget | ReportTarget | CashMovementTarget

  /** What a pending deletion points at: the `type` and `id` of `deleteConfirm`. */
  datatype Target = Target(kind: TargetKind, id: Id)

  /** The collections the page holds, and the supplier open in the detail pane.
      A report's expenses are nested in it, as loaded. */
  datatype Store = Store(
    suppliers: seq<Supplier>,
    transactions: seq<Transaction>,
    reports: seq<DailyReport>,
    cashMovements: seq<CashMovement>,
    selectedSupplier: Option<Supplier>)

  function SupplierIdIsNot(id: Id): Supplier -> bool { (s: Supplier) => s.id != id }
  function TxSupplierIsNot(id: Id): Transaction -> bool { (t: Transaction) => t.supplierId != id }
  function TxIdIsNot(id: Id): Transaction -> bool { (t: Transaction) => t.id != id }
  function ReportIdIsNot(id: Id): DailyReport -> bool { (r: DailyReport) => r.id != id }
  function MovementIdIsNot(id: Id): CashMovement -> bool { (c: CashMovement) => c.id != id }

  /** The patch `confirmDeleteStep2` applies for each kind of target. A supplier
      takes its transactions with it and closes the detail pane; a report takes
      its nested expenses with it; everything else is kept, in order. */
  function DeleteFromStore(s: Store, t: Target): (r: Store)
    ensures t.kind == SupplierTarget ==>
      && (forall x :: x in r.suppliers <==> x in s.suppliers && x.id != t.id)
      && (forall x :: x in r.transactions <==> x in s.transactions && x.supplierId != t.id)
      && Subsequence(r.suppliers, s.suppliers) && Subsequence(r.transactions, s.transactions)
      && r.reports == s.reports && r.cashMovements == s.cashMovements && r.selectedSupplier.None?
    ensures t.kind == TransactionTarget ==>
      && (forall x :: x in r.transactions <==> x in s.transactions && x.id != t.id)
      && Subsequence(r.transactions, s.transactions)
      && r.(transactions := s.transactions) == s
    ensures t.kind == ReportTarget ==>
      && (forall x :: x in r.reports <==> x in s.reports && x.id != t.id)
      && Subsequence(r.reports, s.reports)
      && r.(reports := s.reports) == s
    ensures t.kind == CashMovementTarget ==>
      && (forall x :: x in r.cashMovements <==> x in s.cashMovements && x.id != t.id)
      && Subsequence(r.cashMovements, s.cashMovements)
      && r.(cashMovements := s.cashMovements) == s
  {
    match t.kind
    case SupplierTarget =>
      s.(suppliers := Filter(s.suppliers, SupplierIdIsNot(t.id)),
         transactions := Filter(s.transactions, TxSupplierIsNot(t.id)),
         selectedSupplier := None)
    case TransactionTarget =>
      s.(transactions := Filter(s.transactions, TxIdIsNot(t.id)))
    case ReportTarget =>
      s.(reports := Filter(s.reports, ReportIdIsNot(t.id)))
    case CashMovementTarget =>
      s.(cashMovements := Filter(s.cashMovements, MovementIdIsNot(t.id)))
  }

  /** Deleting a supplier leaves every other supplier's balance as it was. */
  lemma DeleteSupplierKeepsOtherBalances(s: Store, x: Id, y: Id)
    requires x != y
    ensures SupplierBalance(y, DeleteFromStore(s, Target(SupplierTarget, x)).transactions)
         == SupplierBalance(y, s.transactions)
  {
    var ts' := Filter(s.transactions, TxSupplierIsNot(x));
    BalanceIsSignedSum(y, s.transactions);
    BalanceIsSignedSum(y, ts');
    SumOfFilter(s.transactions, TxSupplierIsNot(x), EffectOn(y), EffectOn(y));
  }

  /** `x` is one of business `b`'s suppliers. */
  predicate SupplierOfBusiness(sups: seq<Supplier>, x: Id, b: Business)
  {
    exists sup :: sup in sups && sup.id == x && sup.businessId == b.id
  }

  function EffectIf(c: bool, x: Id): Transaction -> int
  {
    (t: Transaction) => if c then SignedEffect(x, t) else 0
  }

  /** Deleting a supplier lowers its business's total debt by exactly that
      supplier's balance, and leaves every other business's total debt alone. */
  lemma DeleteSupplierDebt(s: Store, x: Id, b: Business)
    requires UniqueIds(s.suppliers)
    ensures
      var r := DeleteFromStore(s, Target(SupplierTarget, x));
      TotalDebt(Some(b), r.suppliers, r.transactions)
        == TotalDebt(Some(b), s.suppliers, s.transactions)
           - (if SupplierOfBusiness(s.suppliers, x, b) then SupplierBalance(x, s.transactions) else 0)
  {
    var ts := s.transactions;
    var sups' := Filter(s.suppliers, SupplierIdIsNot(x));
    var ts' := Filter(ts, TxSupplierIsNot(x));
    var bs := BusinessSuppliers(Some(b), s.suppliers);
    var bs' := BusinessSuppliers(Some(b), sups');
    var c := SupplierOfBusiness(s.suppliers, x, b);
    FilterKeepsUniqueIds(s.suppliers, SupplierIdIsNot(x));
    TotalDebtByTransactions(b, s.suppliers, ts);
    TotalDebtByTransactions(b, sups', ts');
    var masked := (t: Transaction) => if TxSupplierIsNot(x)(t) then DebtEffect(bs')(t) else 0;
    SumOfFilter(ts, TxSupplierIsNot(x), DebtEffect(bs'), masked);
    forall t | t in ts
      ensures DebtEffect(bs)(t) == masked(t) + EffectIf(c, x)(t)
    {
      if t.supplierId != x {
        assert OwnedBy(bs', t) <==> OwnedBy(bs, t) by {
          if OwnedBy(bs, t) {
            var sup :| sup in bs && sup.id == t.supplierId;
            assert sup in bs';
          }
        }
      } else {
        assert OwnedBy(bs, t) <==> c by {
          if c {
            var sup :| sup in s.suppliers && sup.id == x && sup.businessId == b.id;
            assert sup in bs;
          }
        }
      }
    }
    SumOfAdd(ts, DebtEffect(bs), masked, EffectIf(c, x));
    BalanceIsSignedSum(x, ts);
    if c {
      SumOfCongruent(ts, EffectIf(c, x), EffectOn(x));
    } else {
      SumOfZero(ts, EffectIf(c, x));
    }
  }

  // ----- editing a supplier -----

  /** The supplier form: name, phone and notes. */
  datatype SupplierForm = SupplierForm(name: string, phone: string, notes: string)

  /** The supplier list and the supplier open in the detail pane. */
  datatype SupplierView = SupplierView(suppliers: seq<Supplier>, selected: Option<Supplier>)

  function WithForm(s: Supplier, form: SupplierForm): Supplier
  {
    s.(name := form.name, phone := form.phone, notes := form.notes)
  }

  /** The guard of `handleEditSupplier` passed and the backend update did not throw. */
  predicate EditApplies(editing: Option<Supplier>, form: SupplierForm, failed: bool)
  {
    editing.Some? && form.name != "" && !failed
  }

  /** `handleEditSupplier`: nothing changes when no supplier is being edited, the
      name field is empty, or the backend update throws; otherwise every
      supplier with the edited id, and the open supplier if it has that id,
      takes the form's name, phone and notes, and nothing else changes. */
  function EditSupplier(v: SupplierView, editing: Option<Supplier>, form: SupplierForm, failed: bool): (r: SupplierView)
    ensures !EditApplies(editing, form, failed) ==> r == v
    ensures |r.suppliers| == |v.suppliers|
    ensures forall i :: 0 <= i < |v.suppliers| ==>
              r.suppliers[i].id == v.suppliers[i].id && r.suppliers[i].businessId == v.suppliers[i].businessId
    ensures EditApplies(editing, form, failed) ==>
              forall i :: 0 <= i < |v.suppliers| ==>
                if v.suppliers[i].id == editing.value.id
                then r.suppliers[i] == WithForm(v.suppliers[i], form)
                else r.suppliers[i] == v.suppliers[i]
    ensures r.selected == if EditApplies(editing, form, failed) && v.selected.Some? && v.selected.value.id == editing.value.id
                          then Some(WithForm(v.selected.value, form))
                          else v.selected
  {
    if !EditApplies(editing, form, failed) then v
    else
      var id := editing.value.id;
      var sups := seq(|v.suppliers|, i requires 0 <= i < |v.suppliers| =>
                        if v.suppliers[i].id == id then WithForm(v.suppliers[i], form) else v.suppliers[i]);
      var selected := if v.selected.Some? && v.selected.value.id == id then Some(WithForm(v.selected.value, form))
                      else v.selected;
      SupplierView(sups, selected)
  }

  /** Editing a supplier never changes any business's total debt. */
  lemma EditSupplierKeepsDebt(v: SupplierView, editing: Option<Supplier>, form: SupplierForm, failed: bool,
                              b: Business, ts: seq<Transaction>)
    ensures TotalDebt(Some(b), EditSupplier(v, editing, form, failed).suppliers, ts)
         == TotalDebt(Some(b), v.suppliers, ts)
  {
    TotalDebtDependsOnIdsOnly(b, EditSupplier(v, editing, form, failed).suppliers, v.suppliers, ts);
  }

  /** Submitting the same form twice has the effect of submitting it once. */
  lemma EditSupplierIdempotent(v: SupplierView, editing: Option<Supplier>, form: SupplierForm, failed: bool)
    ensures EditSupplier(EditSupplier(v, editing, form, failed), editing, form, failed)
         == EditSupplier(v, editing, form, failed)
  {
  }
}
