/** The invoice ledger of the billing screen: numbered invoices, newest
    first, the due/collected aggregates and the search filter. Amounts are
    whole currency units; the form's amount text is taken already converted. */
module Billing {
  import opened Seqs
  import opened Text

  datatype InvoiceStatus = Paid | Unpaid | Overdue

  datatype Invoice = Invoice(
    id: string,
    client: string,
    amount: int,
    date: string,
    status: InvoiceStatus,
    payMethod: string)

  /** The new-invoice form; its status choice is Paid or Unpaid. */
  datatype InvoiceForm = InvoiceForm(
    client: string,
    amount: int,
    date: string,
    payMethod: string,
    status: InvoiceStatus)

  function Amount(i: Invoice): int
  {
    i.amount
  }

  function IsPaid(): Invoice -> bool
  {
    (i: Invoice) => i.status == Paid
  }

  /** Unpaid and Overdue invoices are both due. */
  function IsDue(): Invoice -> bool
  {
    (i: Invoice) => i.status != Paid
  }

  datatype BillingStats = BillingStats(totalDue: int, totalCollected: int, count: nat)

  /** `stats`: the sum over due invoices, the sum over paid ones, and the count. */
  function Stats(invoices: seq<Invoice>): (s: BillingStats)
    ensures s.count == |invoices|
    ensures s.totalDue + s.totalCollected == Sum(invoices, Amount)
  {
    SumSplit(invoices, IsDue(), IsPaid(), Amount);
    BillingStats(Sum(Filter(invoices, IsDue()), Amount), Sum(Filter(invoices, IsPaid()), Amount), |invoices|)
  }

  /** `INV-${1000 + n + 1}` for a ledger of n invoices. */
  function InvoiceId(n: nat): (id: string)
    ensures "INV-" <= id && id[4..] == Decimal(1001 + n)
  {
    "INV-" + Decimal(1000 + n + 1)
  }

  /** Different ledger lengths give different invoice numbers. */
  lemma InvoiceIdInjective(m: nat, n: nat)
    ensures InvoiceId(m) == InvoiceId(n) <==> m == n
  {
    if InvoiceId(m) == InvoiceId(n) {
      assert Decimal(1001 + m) == InvoiceId(m)[4..] == InvoiceId(n)[4..] == Decimal(1001 + n);
      DecimalInjective(1001 + m, 1001 + n);
    }
  }

  /** The invoice `handleSubmit` creates for a ledger. */
  function NewInvoice(invoices: seq<Invoice>, f: InvoiceForm): (i: Invoice)
    ensures i.id == InvoiceId(|invoices|)
    ensures i.client == f.client && i.amount == f.amount && i.date == f.date
    ensures i.status == f.status && i.payMethod == f.payMethod
  {
    Invoice(InvoiceId(|invoices|), f.client, f.amount, f.date, f.status, f.payMethod)
  }

  /** The ledger as submissions leave it: newest first, the invoice at
      position i numbered after the |invoices| - 1 - i older ones. */
  predicate SequentialIds(invoices: seq<Invoice>)
  {
    forall i :: 0 <= i < |invoices| ==> invoices[i].id == InvoiceId(|invoices| - 1 - i)
  }

  /** Prepending the new invoice keeps the numbering. */
  lemma SubmitKeepsSequential(invoices: seq<Invoice>, f: InvoiceForm)
    requires SequentialIds(invoices)
    ensures SequentialIds([NewInvoice(invoices, f)] + invoices)
  {
    var r := [NewInvoice(invoices, f)] + invoices;
    assert forall i :: 1 <= i < |r| ==> r[i] == invoices[i - 1];
  }

  /** A numbered ledger has pairwise distinct ids. */
  lemma SequentialIdsDistinct(invoices: seq<Invoice>)
    requires SequentialIds(invoices)
    ensures forall i, j :: 0 <= i < j < |invoices| ==> invoices[i].id != invoices[j].id
  {
    forall i, j | 0 <= i < j < |invoices|
      ensures invoices[i].id != invoices[j].id
    {
      InvoiceIdInjective(|invoices| - 1 - i, |invoices| - 1 - j);
    }
  }

  /** The first invoice of an empty ledger is INV-1001. */
  lemma FirstInvoiceId()
    ensures InvoiceId(0) == "INV-1001"
  {
    DecimalFourDigits(1001);
    assert Digits(1001, 4) == "1001";
  }

  /** Three submissions from an empty ledger: numbered ledger, newest first, INV-1001 last. */
  lemma ThreeSubmissions(a: InvoiceForm, b: InvoiceForm, c: InvoiceForm)
    ensures var l1 := [NewInvoice([], a)];
            var l2 := [NewInvoice(l1, b)] + l1;
            var l3 := [NewInvoice(l2, c)] + l2;
            && SequentialIds(l3)
            && l3[0].id == InvoiceId(2) && l3[1].id == InvoiceId(1) && l3[2].id == "INV-1001"
  {
    FirstInvoiceId();
    var l1 := [NewInvoice([], a)];
    SubmitKeepsSequential([], a);
    SubmitKeepsSequential(l1, b);
    SubmitKeepsSequential([NewInvoice(l1, b)] + l1, c);
  }

  /** A new Paid invoice raises the collected total by its amount and leaves the due total alone. */
  lemma PaidInvoiceCollected(invoices: seq<Invoice>, f: InvoiceForm)
    requires f.status == Paid
    ensures Stats([NewInvoice(invoices, f)] + invoices).totalCollected == Stats(invoices).totalCollected + f.amount
    ensures Stats([NewInvoice(invoices, f)] + invoices).totalDue == Stats(invoices).totalDue
    ensures Stats([NewInvoice(invoices, f)] + invoices).count == Stats(invoices).count + 1
  {
    var n := NewInvoice(invoices, f);
    FilterAppend([n], invoices, IsPaid());
    FilterAppend([n], invoices, IsDue());
    assert [n][1..] == [];
    SumAppend([n], Filter(invoices, IsPaid()), Amount);
  }

  /** A new Unpaid invoice raises the due total by its amount and leaves the collected total alone. */
  lemma UnpaidInvoiceDue(invoices: seq<Invoice>, f: InvoiceForm)
    requires f.status != Paid
    ensures Stats([NewInvoice(invoices, f)] + invoices).totalDue == Stats(invoices).totalDue + f.amount
    ensures Stats([NewInvoice(invoices, f)] + invoices).totalCollected == Stats(invoices).totalCollected
  {
    var n := NewInvoice(invoices, f);
    FilterAppend([n], invoices, IsPaid());
    FilterAppend([n], invoices, IsDue());
    assert [n][1..] == [];
    SumAppend([n], Filter(invoices, IsDue()), Amount);
  }

  /** `statusFilter`: `All` or one status. */
  datatype StatusFilter = AllStatuses | OnlyStatus(status: InvoiceStatus)

  /** Client name (case-insensitive) or invoice id contains the query, and the status matches. */
  predicate InvoiceMatches(filter: StatusFilter, query: string, i: Invoice)
  {
    && (Contains(Lower(i.client), Lower(query)) || Contains(i.id, query))
    && (filter.AllStatuses? || i.status == filter.status)
  }

  function InvoiceMatcher(filter: StatusFilter, query: string): Invoice -> bool
  {
    i => InvoiceMatches(filter, query, i)
  }

  /** `filteredInvoices`: the matching invoices in ledger order. */
  function FilteredInvoices(invoices: seq<Invoice>, filter: StatusFilter, query: string): (r: seq<Invoice>)
    ensures IsSubseq(r, invoices)
    ensures forall i :: i in r <==> i in invoices && InvoiceMatches(filter, query, i)
    ensures filter == AllStatuses && query == "" ==> r == invoices
  {
    assert query == "" ==> forall k :: 0 <= k < |invoices| ==> Contains(invoices[k].id, query);
    Filter(invoices, InvoiceMatcher(filter, query))
  }

  /** The invoice ledger shared with the rest of the console. */
  class Ledger {
    var invoices: seq<Invoice>

    /** The console starts with no invoices. */
    constructor ()
      ensures invoices == [] && SequentialIds(invoices)
    {
      invoices := [];
    }

    /** `handleSubmit`: prepends one invoice numbered after the ledger length. */
    method Submit(f: InvoiceForm)
      modifies this
      ensures invoices == [NewInvoice(old(invoices), f)] + old(invoices)
      ensures SequentialIds(old(invoices)) ==> SequentialIds(invoices)
    {
      if SequentialIds(invoices) {
        SubmitKeepsSequential(invoices, f);
      }
      invoices := [NewInvoice(invoices, f)] + invoices;
    }
  }
}
