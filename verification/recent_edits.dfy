/** The "recent edits" box under each page (`getRecentEdits`): the five most
    recently edited records of one kind, newest first, each with its editor.
    A record counts as edited when it carries an editor name; amounts stay
    numbers here, the display text (`formatMoney`) is not modelled. */
module RecentEdits {
  import opened Common
  import opened Records

  /** The page asking: `'transactions'`, `'reports'` or `'cash'`. */
  datatype EditPage = TransactionsPage | ReportsPage | CashPage

  /** The description line of an entry. A cash movement that is not `IN` is
      shown as a payment, whatever its type. */
  datatype EditSummary =
    | PurchaseEdit(amount: Amount)
    | PaymentEdit(amount: Amount)
    | ReportEdit
    | CashInEdit(amount: Amount)
    | CashPaymentEdit(amount: Amount)

  /** One entry: when it was last edited, by whom, what, and the record's own date. */
  datatype RecentEdit = RecentEdit(at: int, editor: string, what: EditSummary, itemDate: Date)

  /** How many entries the box shows. */
  const MaxShown := 5

  function FromTransaction(t: Transaction): RecentEdit
  {
    RecentEdit(t.updatedAt, t.updatedByName,
               if t.kind == Purchase then PurchaseEdit(t.amount) else PaymentEdit(t.amount), t.date)
  }

  function FromReport(r: DailyReport): RecentEdit
  {
    RecentEdit(r.updatedAt, r.updatedByName, ReportEdit, r.date)
  }

  function FromMovement(c: CashMovement): RecentEdit
  {
    RecentEdit(c.updatedAt, c.updatedByName,
               if c.kind == In then CashInEdit(c.amount) else CashPaymentEdit(c.amount), c.date)
  }

  /** The record carries an editor name. */
  predicate TxEdited(t: Transaction) { t.updatedByName != "" }
  predicate ReportEdited(r: DailyReport) { r.updatedByName != "" }
  predicate MovementEdited(c: CashMovement) { c.updatedByName != "" }

  /** `s.map(f)`: the images of the elements, in order. */
  function MapSeq<T, U>(s: seq<T>, f: T -> U): (r: seq<U>)
    ensures |r| == |s|
    ensures forall i :: 0 <= i < |s| ==> r[i] == f(s[i])
  {
    seq(|s|, i requires 0 <= i < |s| => f(s[i]))
  }

  /** Every element of `s` has its image in `s.map(f)`. */
  lemma MapHasImages<T, U>(s: seq<T>, f: T -> U)
    ensures forall x :: x in s ==> f(x) in MapSeq(s, f)
  {
    forall x | x in s ensures f(x) in MapSeq(s, f) {
      var i :| 0 <= i < |s| && s[i] == x;
      assert MapSeq(s, f)[i] == f(x);
    }
  }

  /** The entries of the transactions page: one per transaction with an editor name. */
  function TransactionItems(ts: seq<Transaction>): (r: seq<RecentEdit>)
    ensures forall t :: t in ts && t.updatedByName != "" ==> FromTransaction(t) in r
    ensures forall i :: 0 <= i < |r| ==>
              exists t :: t in ts && t.updatedByName != "" && r[i] == FromTransaction(t)
  {
    var f := Filter(ts, TxEdited);
    var r := MapSeq(f, FromTransaction);
    assert forall t :: t in ts && t.updatedByName != "" ==> FromTransaction(t) in r by {
      MapHasImages(f, FromTransaction);
      forall t | t in ts && t.updatedByName != "" ensures t in f {
        assert TxEdited(t);
      }
    }
    assert forall i :: 0 <= i < |r| ==>
             exists t :: t in ts && t.updatedByName != "" && r[i] == FromTransaction(t) by {
      forall i | 0 <= i < |r|
        ensures exists t :: t in ts && t.updatedByName != "" && r[i] == FromTransaction(t)
      {
        assert f[i] in f;
        assert TxEdited(f[i]);
        assert r[i] == FromTransaction(f[i]);
      }
    }
    r
  }

  /** The entries of the reports page: one per report with an editor name. */
  function ReportItems(rs: seq<DailyReport>): (r: seq<RecentEdit>)
    ensures forall x :: x in rs && x.updatedByName != "" ==> FromReport(x) in r
    ensures forall i :: 0 <= i < |r| ==>
              exists x :: x in rs && x.updatedByName != "" && r[i] == FromReport(x)
  {
    var f := Filter(rs, ReportEdited);
    var r := MapSeq(f, FromReport);
    assert forall x :: x in rs && x.updatedByName != "" ==> FromReport(x) in r by {
      MapHasImages(f, FromReport);
      forall x | x in rs && x.updatedByName != "" ensures x in f {
        assert ReportEdited(x);
      }
    }
    assert forall i :: 0 <= i < |r| ==>
             exists x :: x in rs && x.updatedByName != "" && r[i] == FromReport(x) by {
      forall i | 0 <= i < |r|
        ensures exists x :: x in rs && x.updatedByName != "" && r[i] == FromReport(x)
      {
        assert f[i] in f;
        assert ReportEdited(f[i]);
        assert r[i] == FromReport(f[i]);
      }
    }
    r
  }

  /** The entries of the cash page: one per cash movement with an editor name. */
  function CashItems(cs: seq<CashMovement>): (r: seq<RecentEdit>)
    ensures forall c :: c in cs && c.updatedByName != "" ==> FromMovement(c) in r
    ensures forall i :: 0 <= i < |r| ==>
              exists c :: c in cs && c.updatedByName != "" && r[i] == FromMovement(c)
  {
    var f := Filter(cs, MovementEdited);
    var r := MapSeq(f, FromMovement);
    assert forall c :: c in cs && c.updatedByName != "" ==> FromMovement(c) in r by {
      MapHasImages(f, FromMovement);
      forall c | c in cs && c.updatedByName != "" ensures c in f {
        assert MovementEdited(c);
      }
    }
    assert forall i :: 0 <= i < |r| ==>
             exists c :: c in cs && c.updatedByName != "" && r[i] == FromMovement(c) by {
      forall i | 0 <= i < |r|
        ensures exists c :: c in cs && c.updatedByName != "" && r[i] == FromMovement(c)
      {
        assert f[i] in f;
        assert MovementEdited(f[i]);
        assert r[i] == FromMovement(f[i]);
      }
    }
    r
  }

  /** The unsorted entries of one page; each carries its editor's name. */
  function Items(page: EditPage, ts: seq<Transaction>, rs: seq<DailyReport>, cs: seq<CashMovement>): (r: seq<RecentEdit>)
    ensures forall e :: e in r ==> e.editor != ""
  {
    match page
    case TransactionsPage => TransactionItems(ts)
    case ReportsPage => ReportItems(rs)
    case CashPage => CashItems(cs)
  }

  /** Newest first. */
  predicate NewestFirst(s: seq<RecentEdit>)
  {
    forall i, j :: 0 <= i < j < |s| ==> s[i].at >= s[j].at
  }

  /** An entry at least as new as the head of a newest-first list can go in front. */
  lemma PrependNewest(y: RecentEdit, s: seq<RecentEdit>)
    requires NewestFirst(s) && (|s| == 0 || y.at >= s[0].at)
    ensures NewestFirst([y] + s)
  {
    var r := [y] + s;
    forall i, j | 0 <= i < j < |r| ensures r[i].at >= r[j].at {
      assert r[j] == s[j - 1];
      if i > 0 {
        assert r[i] == s[i - 1];
      } else {
        assert s[0].at >= s[j - 1].at;
      }
    }
  }

  /** Put `x` into a newest-first list after every entry at least as new, so that
      of two equally new entries the one inserted later comes later. */
  function Insert(x: RecentEdit, s: seq<RecentEdit>): (r: seq<RecentEdit>)
    requires NewestFirst(s)
    ensures NewestFirst(r)
    ensures multiset(r) == multiset(s) + multiset{x}
    ensures |r| == |s| + 1
    ensures r[0] == x || (|s| > 0 && r[0] == s[0])
  {
    if |s| == 0 then [x]
    else if s[0].at >= x.at then
      var rest := Insert(x, s[1..]);
      assert s == [s[0]] + s[1..];
      assert multiset(s) == multiset{s[0]} + multiset(s[1..]);
      PrependNewest(s[0], rest);
      [s[0]] + rest
    else
      PrependNewest(x, s);
      [x] + s
  }

  /** `items.sort((a, b) => b.date - a.date)`: the entries newest first, the
      same entries as given. */
  function SortNewestFirst(s: seq<RecentEdit>): (r: seq<RecentEdit>)
    ensures NewestFirst(r)
    ensures multiset(r) == multiset(s)
    ensures |r| == |s|
  {
    if |s| == 0 then []
    else
      assert s == s[..|s| - 1] + [s[|s| - 1]];
      Insert(s[|s| - 1], SortNewestFirst(s[..|s| - 1]))
  }

  /** Cutting a newest-first list after `k` entries leaves out only entries that
      are no newer than any kept one. */
  lemma TakeKeepsNewest(s: seq<RecentEdit>, k: nat)
    requires NewestFirst(s) && k <= |s|
    ensures multiset(s[..k]) <= multiset(s)
    ensures multiset(s[k..]) == multiset(s) - multiset(s[..k])
    ensures forall x, y :: x in multiset(s[k..]) && y in s[..k] ==> x.at <= y.at
  {
    assert s == s[..k] + s[k..];
    forall x, y | x in multiset(s[k..]) && y in s[..k]
      ensures x.at <= y.at
    {
      var i :| 0 <= i < |s[k..]| && s[k..][i] == x;
      var j :| 0 <= j < k && s[..k][j] == y;
      assert s[j] == y && s[k + i] == x;
    }
  }

  /** The first `k` entries of `items` once sorted newest first: as many as
      there are up to `k`, newest first, taken from `items`, and no entry left
      out is newer than a kept one. */
  function Newest(items: seq<RecentEdit>, k: nat): (r: seq<RecentEdit>)
    ensures |r| == if |items| < k then |items| else k
    ensures NewestFirst(r)
    ensures multiset(r) <= multiset(items)
    ensures forall x, y :: x in multiset(items) - multiset(r) && y in r ==> x.at <= y.at
  {
    var sorted := SortNewestFirst(items);
    var n := if |sorted| < k then |sorted| else k;
    TakeKeepsNewest(sorted, n);
    var r := sorted[..n];
    assert multiset(items) - multiset(r) == multiset(sorted[n..]);
    r
  }

  /** `getRecentEdits(type)`: at most five entries, newest first, each an edited
      record of the page's kind; an edited record is left out only when five
      entries at least as new are shown. */
  function RecentEdits(page: EditPage, ts: seq<Transaction>, rs: seq<DailyReport>, cs: seq<CashMovement>): (r: seq<RecentEdit>)
    ensures |r| == if |Items(page, ts, rs, cs)| < MaxShown then |Items(page, ts, rs, cs)| else MaxShown
    ensures NewestFirst(r)
    ensures multiset(r) <= multiset(Items(page, ts, rs, cs))
    ensures forall e :: e in r ==> e.editor != ""
    ensures forall x, y :: x in multiset(Items(page, ts, rs, cs)) - multiset(r) && y in r ==> x.at <= y.at
  {
    var items := Items(page, ts, rs, cs);
    var r := Newest(items, MaxShown);
    assert forall e :: e in r ==> e in multiset(items);
    r
  }

  /** With no more entries than the box holds, all of them are shown. */
  lemma FewEditsAllShown(items: seq<RecentEdit>, k: nat)
    requires |items| <= k
    ensures multiset(Newest(items, k)) == multiset(items)
  {
    var r := Newest(items, k);
    assert multiset(items) - multiset(r) == multiset{} by {
      assert |multiset(items) - multiset(r)| == |multiset(items)| - |multiset(r)|;
    }
  }

  /** A transaction without an editor name, such as a freshly inserted one (put
      in front of the list), never changes the box, wherever it stands. */
  lemma UnsignedTransactionIgnored(ts1: seq<Transaction>, t: Transaction, ts2: seq<Transaction>,
                                   rs: seq<DailyReport>, cs: seq<CashMovement>)
    requires t.updatedByName == ""
    ensures RecentEdits(TransactionsPage, ts1 + [t] + ts2, rs, cs) == RecentEdits(TransactionsPage, ts1 + ts2, rs, cs)
  {
    FilterSkipsRejected(ts1, t, ts2, TxEdited);
  }

  /** Every entry of the transactions box is an edited transaction; and an
      edited transaction is either shown or crowded out by five entries at
      least as new. */
  lemma TransactionEditShownOrOutdated(ts: seq<Transaction>, rs: seq<DailyReport>, cs: seq<CashMovement>, t: Transaction)
    requires t in ts && t.updatedByName != ""
    ensures forall e :: e in RecentEdits(TransactionsPage, ts, rs, cs) ==>
              exists u :: u in ts && u.updatedByName != "" && e == FromTransaction(u)
    ensures || FromTransaction(t) in RecentEdits(TransactionsPage, ts, rs, cs)
            || (&& |RecentEdits(TransactionsPage, ts, rs, cs)| == MaxShown
                && forall e :: e in RecentEdits(TransactionsPage, ts, rs, cs) ==> t.updatedAt <= e.at)
  {
    var items := TransactionItems(ts);
    var r := Newest(items, MaxShown);
    assert RecentEdits(TransactionsPage, ts, rs, cs) == r;
    forall e | e in r
      ensures exists u :: u in ts && u.updatedByName != "" && e == FromTransaction(u)
    {
      assert e in multiset(items);
      var i :| 0 <= i < |items| && items[i] == e;
    }
    var x := FromTransaction(t);
    if x !in r {
      assert x in multiset(items) - multiset(r) by {
        assert x in items;
      }
      if |items| < MaxShown {
        FewEditsAllShown(items, MaxShown);
        assert false;
      }
    }
  }
}
