/** The stock-allocation domain: an order line asks for a quantity of one SKU,
    and a batch holds a running count of the units of one SKU still available. */
module Model {

  datatype Option<T> = None | Some(value: T)

  /** A calendar day, as a day number. A batch's eta is stored and never read. */
  type Date = int

  /** A request to ship `qty` units of `sku` for order `orderid`.
      Equality is field-wise (a plain record), and `qty` is not validated. */
  datatype OrderLine = OrderLine(orderid: string, sku: string, qty: int)

  /** The eligibility rule shared by Batch.CanAllocate and by the runs below:
      the SKUs match and enough units are available. */
  predicate Allocatable(batchSku: string, available: int, line: OrderLine)
  {
    batchSku == line.sku && available >= line.qty
  }

  /** A batch of stock. Only `available` is ever changed after construction. */
  class Batch {
    var reference: string
    var sku: string
    var available: int
    var eta: Option<Date>

    constructor (reference: string, sku: string, qty: int, eta: Option<Date> := None)
      ensures this.reference == reference && this.sku == sku && this.eta == eta
      ensures available == qty
    {
      this.reference := reference;
      this.sku := sku;
      this.available := qty;
      this.eta := eta;
    }

    /** Deducts the line's quantity, without checking that the batch can take it. */
    method Allocate(line: OrderLine)
      modifies this`available
      ensures available == old(available) - line.qty
      ensures reference == old(reference) && sku == old(sku) && eta == old(eta)
      ensures old(CanAllocate(line)) ==> available >= 0
      ensures sku == line.sku && old(available) < line.qty ==> available < 0
    {
      available := available - line.qty;
    }

    predicate CanAllocate(line: OrderLine)
      reads this
      ensures sku != line.sku ==> !CanAllocate(line)
      ensures sku == line.sku ==> (CanAllocate(line) <==> available >= line.qty)
    {
      Allocatable(sku, available, line)
    }

    /** The count this returns is exactly the threshold CanAllocate applies
        to lines of the batch's SKU. */
    function AvailableQuantity(): (q: int)
      reads this
      ensures forall line: OrderLine :: line.sku == sku ==> (CanAllocate(line) <==> line.qty <= q)
    {
      available
    }
  }

  /** Sum of the quantities of `lines`. */
  function TotalQty(lines: seq<OrderLine>): int
  {
    if lines == [] then 0 else lines[0].qty + TotalQty(lines[1..])
  }

  /** The available quantity after Batch.Allocate has been called with each of
      `lines` in turn, starting from `available`. */
  function AvailableAfter(available: int, lines: seq<OrderLine>): int
    decreases |lines|
  {
    if lines == [] then available else AvailableAfter(available - lines[0].qty, lines[1..])
  }

  /** Every call of Batch.Allocate in the run was preceded by a CanAllocate
      that held, for a batch of SKU `batchSku` starting at `available`. */
  predicate GuardedRun(batchSku: string, available: int, lines: seq<OrderLine>)
    decreases |lines|
  {
    lines == [] ||
    (Allocatable(batchSku, available, lines[0]) &&
     GuardedRun(batchSku, available - lines[0].qty, lines[1..]))
  }

  /** Allocating one more line after a run deducts that line's quantity. */
  lemma {:induction false} AvailableAfterSnoc(available: int, lines: seq<OrderLine>, line: OrderLine)
    ensures AvailableAfter(available, lines + [line]) == AvailableAfter(available, lines) - line.qty
    decreases |lines|
  {
    if lines == [] {
      assert [line][1..] == [];
      assert AvailableAfter(available - line.qty, []) == available - line.qty;
    } else {
      assert (lines + [line])[1..] == lines[1..] + [line];
      AvailableAfterSnoc(available - lines[0].qty, lines[1..], line);
    }
  }

  /** A run of allocations deducts exactly the total quantity of its lines. */
  lemma {:induction false} AvailableAfterDeductsTotal(available: int, lines: seq<OrderLine>)
    ensures AvailableAfter(available, lines) == available - TotalQty(lines)
    decreases |lines|
  {
    if lines != [] {
      AvailableAfterDeductsTotal(available - lines[0].qty, lines[1..]);
    }
  }

  /** Allocation is not idempotent: allocating the same line twice deducts it twice. */
  lemma AllocatingTwiceDeductsTwice(available: int, line: OrderLine)
    ensures AvailableAfter(available, [line, line]) == available - 2 * line.qty
    ensures line.qty != 0 ==> AvailableAfter(available, [line, line]) != AvailableAfter(available, [line])
  {
    assert [line, line][1..] == [line];
    assert [line][1..] == [];
    assert AvailableAfter(available, [line]) == AvailableAfter(available - line.qty, []);
    assert AvailableAfter(available, [line, line]) == AvailableAfter(available - line.qty, [line]);
    assert AvailableAfter(available - line.qty, [line]) == AvailableAfter(available - line.qty - line.qty, []);
  }

  /** The lines of a guarded run all carry the batch's SKU. */
  lemma {:induction false} GuardedRunMatchesSku(batchSku: string, available: int, lines: seq<OrderLine>)
    requires GuardedRun(batchSku, available, lines)
    ensures forall i :: 0 <= i < |lines| ==> lines[i].sku == batchSku
    decreases |lines|
  {
    if lines != [] {
      GuardedRunMatchesSku(batchSku, available - lines[0].qty, lines[1..]);
      forall i | 0 <= i < |lines| ensures lines[i].sku == batchSku {
        if i > 0 { assert lines[i] == lines[1..][i - 1]; }
      }
    }
  }

  /** A prefix of a guarded run is guarded. */
  lemma {:induction false} GuardedRunPrefix(batchSku: string, available: int, lines: seq<OrderLine>, k: nat)
    requires k <= |lines|
    requires GuardedRun(batchSku, available, lines)
    ensures GuardedRun(batchSku, available, lines[..k])
    decreases k
  {
    if k > 0 {
      assert lines[..k][1..] == lines[1..][..k - 1];
      GuardedRunPrefix(batchSku, available - lines[0].qty, lines[1..], k - 1);
    }
  }

  /** The last state of a guarded run that starts non-negative is non-negative. */
  lemma {:induction false} GuardedRunEndsNonNegative(batchSku: string, available: int, lines: seq<OrderLine>)
    requires available >= 0
    requires GuardedRun(batchSku, available, lines)
    ensures AvailableAfter(available, lines) >= 0
    decreases |lines|
  {
    if lines != [] {
      GuardedRunEndsNonNegative(batchSku, available - lines[0].qty, lines[1..]);
    }
  }

  /** The invariant: if every allocation is preceded by a CanAllocate that
      held, the available quantity is never negative along the run. The guard
      is needed: Batch.Allocate checks nothing, so a line of the batch's SKU
      asking for more than is available drives the count below zero. */
  lemma GuardedRunNeverNegative(batchSku: string, available: int, lines: seq<OrderLine>)
    requires available >= 0
    requires GuardedRun(batchSku, available, lines)
    ensures forall k :: 0 <= k <= |lines| ==> AvailableAfter(available, lines[..k]) >= 0
  {
    forall k | 0 <= k <= |lines| ensures AvailableAfter(available, lines[..k]) >= 0 {
      GuardedRunPrefix(batchSku, available, lines, k);
      GuardedRunEndsNonNegative(batchSku, available, lines[..k]);
    }
  }
}
