# Batch stock allocation

This project models the domain core of a small inventory-allocation exercise.
An `OrderLine` asks for `qty` units of a SKU for an order. A `Batch` is a batch
of stock of one SKU. It has a reference, an optional eta and a running count of
the units still available. The batch answers whether it can take a line
(`can_allocate`). It deducts a line's quantity (`allocate`) and reports the count
(`available_quantity`).

Layout:

- `model.dfy`, module `Model`: the `OrderLine` record as a datatype and `Batch` as
  a class. The class has one mutable count, `available`, beside its identity fields.
  `Allocate` changes only that count; its frame is `modifies this`available`.
  `CanAllocate` and `AvailableQuantity` are functions that only read the object,
  so calling them changes no field. The module also has the value-level view of a
  sequence of allocations against one batch (`AvailableAfter`, `GuardedRun`). The
  lemmas about that view prove the invariant: if every allocation is preceded by a
  `CanAllocate` that held, the count never goes negative.
- `test_model.dfy`, module `ModelTests`: the unit tests of `test_model.py` as
  client methods. Each postcondition states the outcome that the code as written
  produces.

The model follows the code of `model.py` where it differs from what
`test_model.py` expects:

- There is no `deallocate`. The test at `test_model.py:38-41` calls it.
- `allocate` is not idempotent. The test at `test_model.py:43-47` expects a second
  allocation of the same line to change nothing, leaving 18 of 20. The code
  deducts twice and leaves 16. `ModelTests.AllocatingTwiceIsNotIdempotent` and
  `Model.AllocatingTwiceDeductsTwice` state what the code does.

## Model

| member | source | states |
|---|---|---|
| `Model.Batch.constructor` | model.py:14-18 | the new batch stores reference, SKU and eta unchanged (eta defaults to none), and its available quantity is the `qty` passed in |
| `Model.Batch.Allocate` | model.py:20-21 | the available quantity drops by exactly `line.qty` and nothing else changes; if `can_allocate` held just before, the count is non-negative afterwards; with matching SKUs and too little stock the count goes negative, because nothing is checked |
| `Model.Batch.CanAllocate` | model.py:23-24 | false whenever the batch's SKU differs from the line's, whatever the quantities; with matching SKUs, true exactly when the available quantity is at least `line.qty`, equality included |
| `Model.Batch.AvailableQuantity` | model.py:26-28 | returns the batch's count, which is exactly the threshold `can_allocate` applies to lines of the batch's SKU; as a function it only reads the object and changes nothing |
| `Model.AvailableAfterSnoc` | model.py:20-21 | one more allocation after a run deducts exactly that line's quantity from the run's result |
| `Model.AvailableAfterDeductsTotal` | model.py:20-21 | allocating a sequence of lines one after another deducts exactly the sum of their quantities |
| `Model.AllocatingTwiceDeductsTwice` | model.py:20-21 | allocating the same line twice deducts its quantity twice, so for a non-zero quantity the second call is not a no-op |
| `Model.GuardedRunMatchesSku` | model.py:23-24 | in a run where each allocation was preceded by a true `can_allocate`, every line has the batch's SKU |
| `Model.GuardedRunPrefix` | model.py:23-24 | every prefix of such a guarded run is itself guarded |
| `Model.GuardedRunEndsNonNegative` | model.py:20-24 | a guarded run that starts from a non-negative count ends with a non-negative count |
| `Model.GuardedRunNeverNegative` | model.py:20-24 | along a guarded run from a non-negative count, the available quantity is non-negative after every allocation |
| `ModelTests.MakeBatchAndLine` | test_model.py:59-63 | builds a fresh batch "batch-001" dated today and a line "order-001", both for the given SKU, with the given quantities |
| `ModelTests.AllocatingReducesAvailableQuantity` | test_model.py:11-15 | a batch of 20 hats that is allocated a line of 3 has 17 left |
| `ModelTests.CanAllocateIfAvailableGreaterThanRequired` | test_model.py:18-20 | 20 available and 2 required: can allocate |
| `ModelTests.CannotAllocateIfAvailableSmallerThanRequired` | test_model.py:23-25 | 2 available and 20 required: cannot allocate |
| `ModelTests.CanAllocateIfAvailableEqualToRequired` | test_model.py:28-30 | 20 available and 20 required: can allocate |
| `ModelTests.CannotAllocateIfSkusDoNotMatch` | test_model.py:33-36 | an "apple" batch of 100 cannot take a "cat" line of 10 |
| `ModelTests.AllocatingTwiceIsNotIdempotent` | test_model.py:43-47 | allocating a line of 2 twice to a batch of 20 leaves 16, not the 18 the test expects |
| `ModelTests.AllocateBoth` | model.py:20-21 | two successive allocations deduct the sum of both quantities and agree with `AvailableAfter`; reference, SKU and eta are unchanged |
| `ModelTests.AllocateAll` | model.py:20-21 | calling `allocate` with each line of a sequence in turn leaves the count `AvailableAfter` gives, so the lemmas about runs hold of the class; reference, SKU and eta are unchanged |

## Left out

- `eta` is kept as an optional day number. The code stores it and never reads it, so no date arithmetic or ordering is modelled. The tests' `date.today()` is a parameter `today` of each test method.
- Batch-preference selection across several batches and the out-of-stock failure are not in `model.py`. The tests for them (`test_model.py:50-55`) only fail with "todo". Neither is modelled.
- `deallocate` does not exist in `model.py`, so the test at `test_model.py:38-41` that calls it is not modelled.
- `OrderLine` uses structural equality on all three fields, as the dataclass does (model.py:6-10).
- Python's dynamic typing is not modelled: quantities are unbounded integers, and `qty` is not checked to be positive, as in the code.
