/** The unit tests of the batch model, as client methods whose postconditions
    give the outcome the code as written produces. `today` is the caller's
    current date. */
module ModelTests {
  import opened Model

  /** A batch of `batchQty` and a line of `lineQty`, both for `sku`. */
  method MakeBatchAndLine(sku: string, batchQty: int, lineQty: int, today: Date)
    returns (batch: Batch, line: OrderLine)
    ensures fresh(batch)
    ensures batch.reference == "batch-001" && batch.sku == sku
    ensures batch.available == batchQty && batch.eta == Some(today)
    ensures line == OrderLine("order-001", sku, lineQty)
  {
    batch := new Batch("batch-001", sku, batchQty, Some(today));
    line := OrderLine("order-001", sku, lineQty);
  }

  method AllocatingReducesAvailableQuantity(today: Date) returns (available: int)
    ensures available == 17
  {
    var batch := new Batch("batch-001", "hat", 20, Some(today));
    var line := OrderLine("order-ref", "hat", 3);
    batch.Allocate(line);
    available := batch.AvailableQuantity();
  }

  method CanAllocateIfAvailableGreaterThanRequired(today: Date) returns (ok: bool)
    ensures ok
  {
    var batch, line := MakeBatchAndLine("apple", 20, 2, today);
    ok := batch.CanAllocate(line);
  }

  method CannotAllocateIfAvailableSmallerThanRequired(today: Date) returns (ok: bool)
    ensures !ok
  {
    var batch, line := MakeBatchAndLine("apple", 2, 20, today);
    ok := batch.CanAllocate(line);
  }

  method CanAllocateIfAvailableEqualToRequired(today: Date) returns (ok: bool)
    ensures ok
  {
    var batch, line := MakeBatchAndLine("apple", 20, 20, today);
    ok := batch.CanAllocate(line);
  }

  method CannotAllocateIfSkusDoNotMatch(today: Date) returns (ok: bool)
    ensures !ok
  {
    var batch := new Batch("batch-001", "apple", 100, Some(today));
    var line := OrderLine("order-123", "cat", 10);
    ok := batch.CanAllocate(line);
  }

  /** The same line allocated twice is deducted twice: 20 - 2 - 2 leaves 16,
      not the 18 an idempotent allocation would leave. */
  method AllocatingTwiceIsNotIdempotent(today: Date) returns (available: int)
    ensures available == 16
  {
    var batch, line := MakeBatchAndLine("apple", 20, 2, today);
    batch.Allocate(line);
    batch.Allocate(line);
    available := batch.AvailableQuantity();
  }

  /** Two successive allocations deduct the sum of both quantities, as the
      run function AvailableAfter says. */
  method AllocateBoth(batch: Batch, first: OrderLine, second: OrderLine)
    modifies batch
    ensures batch.available == AvailableAfter(old(batch.available), [first, second])
    ensures batch.available == old(batch.available) - (first.qty + second.qty)
    ensures batch.reference == old(batch.reference) && batch.sku == old(batch.sku)
    ensures batch.eta == old(batch.eta)
  {
    batch.Allocate(first);
    batch.Allocate(second);
    assert [first, second][1..] == [second];
    assert [second][1..] == [];
    ghost var start := old(batch.available);
    assert AvailableAfter(start, [first, second]) == AvailableAfter(start - first.qty, [second]);
    assert AvailableAfter(start - first.qty, [second]) == AvailableAfter(start - first.qty - second.qty, []);
  }

  /** Allocating each of `lines` in turn leaves the count AvailableAfter gives,
      which ties the lemmas about runs to Batch.Allocate. */
  method AllocateAll(batch: Batch, lines: seq<OrderLine>)
    modifies batch
    ensures batch.available == AvailableAfter(old(batch.available), lines)
    ensures batch.reference == old(batch.reference) && batch.sku == old(batch.sku)
    ensures batch.eta == old(batch.eta)
  {
    var i := 0;
    while i < |lines|
      invariant 0 <= i <= |lines|
      invariant batch.available == AvailableAfter(old(batch.available), lines[..i])
      invariant batch.reference == old(batch.reference) && batch.sku == old(batch.sku)
      invariant batch.eta == old(batch.eta)
    {
      AvailableAfterSnoc(old(batch.available), lines[..i], lines[i]);
      assert lines[..i + 1] == lines[..i] + [lines[i]];
      batch.Allocate(lines[i]);
      i := i + 1;
    }
    assert lines[..i] == lines;
  }
}
