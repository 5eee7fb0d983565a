/**
 Invoice line items: request validation, and the server-side total. The database multiplies and
 adds; a product or a sum that does not fit a bigint aborts the whole insert.
 */
module LineItems {
  import opened Common

  datatype LineItem = LineItem(description: Text, quantity: Cents, unitAmount: Cents)

  predicate Valid(li: LineItem) {
    !IsBlank(li.description) && li.quantity > 0 && li.unitAmount >= 0
  }

  /** What an invoice with these items is worth, in exact integers. */
  function Total(items: seq<LineItem>): int
  {
    if items == [] then 0
    else Total(items[..|items| - 1]) + items[|items| - 1].quantity * items[|items| - 1].unitAmount
  }

  predicate Acceptable(items: seq<LineItem>) {
    items != [] && forall i :: 0 <= i < |items| ==> Valid(items[i])
  }

  lemma {:induction false} TotalIsMonotone(items: seq<LineItem>, n: nat)
    requires n <= |items|
    requires forall i :: 0 <= i < |items| ==> items[i].quantity > 0 && items[i].unitAmount >= 0
    ensures 0 <= Total(items[..n]) <= Total(items)
    decreases |items|
  {
    if n == |items| {
      assert items[..n] == items;
      if items != [] {
        TotalIsMonotone(items[..n - 1], n - 1);
        assert items[..n - 1][..n - 1] == items[..n - 1];
        AmountIsNonNegative(items[n - 1]);
      }
    } else {
      var front := items[..|items| - 1];
      TotalIsMonotone(front, n);
      assert front[..n] == items[..n];
      AmountIsNonNegative(items[|items| - 1]);
    }
  }

  lemma AmountIsNonNegative(li: LineItem)
    requires li.quantity > 0 && li.unitAmount >= 0
    ensures 0 <= li.quantity * li.unitAmount
  {
  }

  datatype FieldIssue = NoItems | BlankDescription(i: nat) | BadQuantity(i: nat) | NegativeUnit(i: nat)

  /** The issues that item `i` is reported with, in order. */
  function ItemIssues(li: LineItem, i: nat): seq<FieldIssue> {
    (if IsBlank(li.description) then [BlankDescription(i)] else [])
    + (if li.quantity <= 0 then [BadQuantity(i)] else [])
    + (if li.unitAmount < 0 then [NegativeUnit(i)] else [])
  }

  predicate Reported(items: seq<LineItem>, issue: FieldIssue) {
    match issue
    case NoItems => items == []
    case BlankDescription(i) => i < |items| && IsBlank(items[i].description)
    case BadQuantity(i) => i < |items| && items[i].quantity <= 0
    case NegativeUnit(i) => i < |items| && items[i].unitAmount < 0
  }

  /** Where an issue belongs in the report: by item, and within one by field. */
  function Place(issue: FieldIssue): int {
    match issue
    case NoItems => -1
    case BlankDescription(i) => 3 * i
    case BadQuantity(i) => 3 * i + 1
    case NegativeUnit(i) => 3 * i + 2
  }

  predicate InOrder(issues: seq<FieldIssue>) {
    forall i, j :: 0 <= i < j < |issues| ==> Place(issues[i]) < Place(issues[j])
  }

  /** The report names every fault of the list and its first `n` items, nothing else, each once and in order. */
  ghost predicate ReportsFirst(issues: seq<FieldIssue>, items: seq<LineItem>, n: nat) {
    InOrder(issues) && forall e :: e in issues <==> (e.NoItems? || e.i < n) && Reported(items, e)
  }

  ghost predicate ReportsExactly(issues: seq<FieldIssue>, items: seq<LineItem>) {
    InOrder(issues) && forall e :: e in issues <==> Reported(items, e)
  }

  lemma ItemIsReported(items: seq<LineItem>, n: nat, e: FieldIssue)
    requires n < |items|
    ensures e in ItemIssues(items[n], n) <==> !e.NoItems? && e.i == n && Reported(items, e)
  {
  }

  lemma InOrderConcat(p: seq<FieldIssue>, q: seq<FieldIssue>, place: int)
    requires InOrder(p) && InOrder(q)
    requires (forall e :: e in p ==> Place(e) < place) && (forall e :: e in q ==> place <= Place(e))
    ensures InOrder(p + q)
  {
    forall i, j | 0 <= i < j < |p + q| ensures Place((p + q)[i]) < Place((p + q)[j]) {
      assert i < |p| ==> (p + q)[i] in p;
      assert j >= |p| ==> (p + q)[j] in q;
    }
  }

  lemma ReportsNext(issues: seq<FieldIssue>, items: seq<LineItem>, n: nat)
    requires n < |items| && ReportsFirst(issues, items, n)
    ensures ReportsFirst(issues + ItemIssues(items[n], n), items, n + 1)
  {
    var more := ItemIssues(items[n], n);
    forall e ensures e in issues + more <==> (e.NoItems? || e.i < n + 1) && Reported(items, e) {
      ItemIsReported(items, n, e);
      assert e in issues + more <==> e in issues || e in more;
    }
    InOrderConcat(issues, more, 3 * n);
  }

  lemma NothingReportedIffAcceptable(issues: seq<FieldIssue>, items: seq<LineItem>)
    requires ReportsExactly(issues, items)
    ensures issues == [] <==> Acceptable(items)
  {
    if issues == [] {
      assert NoItems !in issues;
      forall i | 0 <= i < |items| ensures Valid(items[i]) {
        assert BlankDescription(i) !in issues && BadQuantity(i) !in issues && NegativeUnit(i) !in issues;
      }
    } else {
      assert issues[0] in issues;
    }
  }

  /** `validate_line_items`: no report means acceptable. */
  method ValidateLineItems(items: seq<LineItem>) returns (issues: seq<FieldIssue>)
    ensures issues == [] <==> Acceptable(items)
    ensures ReportsExactly(issues, items)
  {
    issues := [];
    if items == [] {
      issues := [NoItems];
    }
    for i := 0 to |items|
      invariant ReportsFirst(issues, items, i)
    {
      ReportsNext(issues, items, i);
      issues := issues + ItemIssues(items[i], i);
    }
    NothingReportedIffAcceptable(issues, items);
  }

  /**
   The line-item inserts and `sync_total`: the stored total is the exact sum, and the inserts go
   through exactly when that sum fits the column. `None` is an aborted transaction.
   */
  method StoreLineItems(items: seq<LineItem>) returns (total: Option<Cents>)
    requires Acceptable(items)
    ensures total.Some? <==> Total(items) <= I64_MAX
    ensures total.Some? ==> total.value == Total(items) >= 0
  {
    var sum := 0;
    for pos := 0 to |items|
      invariant sum == Total(items[..pos])
      invariant 0 <= sum
    {
      assert items[..pos + 1][..pos] == items[..pos];
      TotalIsMonotone(items, pos);
      TotalIsMonotone(items, pos + 1);
      var amount := items[pos].quantity * items[pos].unitAmount;
      if amount > I64_MAX {
        return None;
      }
      sum := sum + amount;
    }
    assert items[..|items|] == items;
    if sum > I64_MAX {
      return None;
    }
    return Some(sum);
  }
}
