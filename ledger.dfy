/** The status-flag lending ledger of app.py: an inventory table (product to
    quantity) and an outgoing log whose entries carry a "Not Returned" or
    "Returned" status. Issuing appends an entry and takes one item out of
    stock; returning flips the first matching pending entry and puts the item
    back. The pending view and the per-student history are filters of the log. */
module StockLedger {

  /** The Status column of the outgoing log. */
  datatype Status = NotReturned | Returned

  /** One row of the outgoing log: Roll No, Name, Product, Date, Status. */
  datatype Entry = Entry(roll: string, name: string, product: string, date: string, status: Status)

  /** The two tables the program keeps: inventory (product names are unique
      keys) and the outgoing log, in file order. */
  datatype Books = Books(inventory: map<string, int>, log: seq<Entry>)

  /** What the outgoing form reports: success, or "Not enough stock". */
  datatype IssueOutcome = Issued | NotEnoughStock

  /** An operation a user can submit through one of the two forms. */
  datatype Op =
    | IssueOp(roll: string, name: string, product: string, date: string)
    | ReturnOp(roll: string, product: string)

  datatype Option<T> = None | Some(value: T)

  // ---------------------------------------------------------------------------
  // Inventory

  predicate StockNonNegative(inventory: map<string, int>)
  {
    forall p :: p in inventory ==> inventory[p] >= 0
  }

  /** The table written when no inventory file exists yet. */
  function SeedInventory(): (inv: map<string, int>)
    ensures StockNonNegative(inv)
    ensures inv.Keys == {"Microscope", "Beaker", "Test Tube", "Pipette", "Slide"}
    ensures inv["Microscope"] == 10
  {
    map["Microscope" := 10, "Beaker" := 50, "Test Tube" := 100, "Pipette" := 40, "Slide" := 200]
  }

  // ---------------------------------------------------------------------------
  // Log queries

  /** Keeps the entries satisfying `keep`, in log order (a boolean mask over
      the rows of the log). */
  function Filter(log: seq<Entry>, keep: Entry -> bool): (r: seq<Entry>)
    ensures |r| <= |log|
    ensures forall e :: e in r <==> e in log && keep(e)
  {
    if log == [] then []
    else (if keep(log[0]) then [log[0]] else []) + Filter(log[1..], keep)
  }

  /** Filtering distributes over concatenation: the relative order of kept
      entries is the order of the log. */
  lemma {:induction false} FilterConcat(a: seq<Entry>, b: seq<Entry>, keep: Entry -> bool)
    ensures Filter(a + b, keep) == Filter(a, keep) + Filter(b, keep)
  {
    if a == [] {
      assert a + b == b;
    } else {
      assert (a + b)[0] == a[0];
      assert (a + b)[1..] == a[1..] + b;
      FilterConcat(a[1..], b, keep);
    }
  }

  /** The dashboard's "Students with Pending Returns" table. */
  function PendingView(log: seq<Entry>): (r: seq<Entry>)
    ensures forall e :: e in r <==> e in log && e.status == NotReturned
  {
    Filter(log, (x: Entry) => x.status == NotReturned)
  }

  /** The dashboard's search: every entry of one roll number, whatever its status. */
  function History(log: seq<Entry>, roll: string): (r: seq<Entry>)
    ensures forall e :: e in r <==> e in log && e.roll == roll
  {
    Filter(log, (x: Entry) => x.roll == roll)
  }

  /** The incoming tab's list of a student's outstanding entries. */
  function StudentPending(log: seq<Entry>, roll: string): (r: seq<Entry>)
    ensures forall e :: e in r <==> e in log && e.roll == roll && e.status == NotReturned
  {
    Filter(log, (x: Entry) => x.roll == roll && x.status == NotReturned)
  }

  /** Both dashboard views keep log order: a view of a log extended by one
      entry is the old view, followed by that entry exactly when it is kept. */
  lemma ViewsFollowLogOrder(log: seq<Entry>, e: Entry, roll: string)
    ensures PendingView(log + [e]) == PendingView(log) + (if e.status == NotReturned then [e] else [])
    ensures History(log + [e], roll) == History(log, roll) + (if e.roll == roll then [e] else [])
  {
    FilterConcat(log, [e], (x: Entry) => x.status == NotReturned);
    FilterConcat(log, [e], (x: Entry) => x.roll == roll);
  }

  /** The products of a sequence of entries, in order. */
  function Products(entries: seq<Entry>): (r: seq<string>)
    ensures |r| == |entries|
    ensures forall i :: 0 <= i < |entries| ==> r[i] == entries[i].product
  {
    if entries == [] then [] else [entries[0].product] + Products(entries[1..])
  }

  predicate IsPendingFor(e: Entry, roll: string, product: string)
  {
    e.roll == roll && e.product == product && e.status == NotReturned
  }

  predicate HasPending(log: seq<Entry>, roll: string, product: string)
  {
    exists i :: 0 <= i < |log| && IsPendingFor(log[i], roll, product)
  }

  /** What the incoming tab offers for a roll number: nothing when the roll
      field is empty or the student has no pending entry ("No pending items
      found"), otherwise the products of the student's pending entries. */
  function ReturnChoices(log: seq<Entry>, roll: string): (r: Option<seq<string>>)
    ensures r.Some? <==> roll != "" && exists p :: HasPending(log, roll, p)
    ensures r.Some? ==> forall p :: p in r.value <==> HasPending(log, roll, p)
  {
    var items := StudentPending(log, roll);
    var choices := Products(items);
    assert forall p :: p in choices <==> HasPending(log, roll, p) by {
      forall p ensures p in choices <==> HasPending(log, roll, p) {
        if p in choices {
          var j :| 0 <= j < |choices| && choices[j] == p;
          assert items[j] in items;
          var i :| 0 <= i < |log| && log[i] == items[j];
          assert IsPendingFor(log[i], roll, p);
        }
        if HasPending(log, roll, p) {
          var i :| 0 <= i < |log| && IsPendingFor(log[i], roll, p);
          assert log[i] in items;
          var j :| 0 <= j < |items| && items[j] == log[i];
          assert choices[j] == p;
        }
      }
    }
    if roll == "" || items == [] then
      None
    else
      assert HasPending(log, roll, items[0].product) by {
        assert items[0] in items;
        var i :| 0 <= i < |log| && log[i] == items[0];
        assert IsPendingFor(log[i], roll, items[0].product);
      }
      Some(choices)
  }

  /** The index of the first entry of `roll` for `product` that is still
      pending: the row the incoming form marks as returned. */
  function FirstPendingIndex(log: seq<Entry>, roll: string, product: string): (i: nat)
    requires HasPending(log, roll, product)
    ensures i < |log| && IsPendingFor(log[i], roll, product)
    ensures forall j :: 0 <= j < i ==> !IsPendingFor(log[j], roll, product)
  {
    if IsPendingFor(log[0], roll, product) then 0
    else
      assert HasPending(log[1..], roll, product) by {
        var k :| 0 <= k < |log| && IsPendingFor(log[k], roll, product);
        assert log[1..][k - 1] == log[k];
      }
      1 + FirstPendingIndex(log[1..], roll, product)
  }

  /** How many entries for `product` carry `status`. */
  function Count(log: seq<Entry>, product: string, status: Status): (n: nat)
    ensures n <= |log|
  {
    if log == [] then 0
    else
      var last := log[|log| - 1];
      Count(log[..|log| - 1], product, status) + (if last.product == product && last.status == status then 1 else 0)
  }

  lemma CountAppend(log: seq<Entry>, e: Entry, product: string, status: Status)
    ensures Count(log + [e], product, status)
         == Count(log, product, status) + (if e.product == product && e.status == status then 1 else 0)
  {
    assert (log + [e])[..|log|] == log;
  }

  /** Flipping one pending entry to Returned moves exactly one unit of its
      product from the pending count to the returned count. */
  lemma {:induction false} CountFlip(log: seq<Entry>, i: nat, product: string)
    requires i < |log| && log[i].status == NotReturned
    ensures var flipped := log[i := log[i].(status := Returned)];
      var hit := if log[i].product == product then 1 else 0;
      && Count(flipped, product, NotReturned) == Count(log, product, NotReturned) - hit
      && Count(flipped, product, Returned) == Count(log, product, Returned) + hit
  {
    var flipped := log[i := log[i].(status := Returned)];
    var n := |log|;
    if i == n - 1 {
      assert flipped[..n - 1] == log[..n - 1];
    } else {
      CountFlip(log[..n - 1], i, product);
      assert flipped[..n - 1] == log[..n - 1][i := log[i].(status := Returned)];
      assert flipped[n - 1] == log[n - 1];
    }
  }

  // ---------------------------------------------------------------------------
  // Operations on the books

  /** Submitting the outgoing form: the chosen product (always one of the
      inventory, since the form offers only those) is issued when its quantity
      is positive; otherwise nothing changes. */
  function IssueStep(b: Books, roll: string, name: string, product: string, date: string): (r: (Books, IssueOutcome))
    requires product in b.inventory
    ensures r.1 == Issued <==> b.inventory[product] > 0
    ensures r.1 == NotEnoughStock ==> r.0 == b
    ensures r.1 == Issued ==> r.0.log == b.log + [Entry(roll, name, product, date, NotReturned)]
    ensures r.1 == Issued ==>
      && r.0.inventory.Keys == b.inventory.Keys
      && r.0.inventory[product] == b.inventory[product] - 1
      && forall p :: p in b.inventory && p != product ==> r.0.inventory[p] == b.inventory[p]
  {
    if b.inventory[product] > 0 then
      (Books(b.inventory[product := b.inventory[product] - 1],
             b.log + [Entry(roll, name, product, date, NotReturned)]),
       Issued)
    else
      (b, NotEnoughStock)
  }

  /** Submitting the incoming form: the first pending entry of `roll` for
      `product` becomes Returned and the product's quantity, if the product is
      in the inventory, goes up by one. */
  function ReturnStep(b: Books, roll: string, product: string): (r: Books)
    requires HasPending(b.log, roll, product)
    ensures |r.log| == |b.log|
    ensures var i := FirstPendingIndex(b.log, roll, product);
      && r.log[i] == b.log[i].(status := Returned)
      && forall j :: 0 <= j < |b.log| && j != i ==> r.log[j] == b.log[j]
    ensures r.inventory.Keys == b.inventory.Keys
    ensures product in b.inventory ==> r.inventory[product] == b.inventory[product] + 1
    ensures forall p :: p in b.inventory && p != product ==> r.inventory[p] == b.inventory[p]
  {
    var i := FirstPendingIndex(b.log, roll, product);
    var log' := b.log[i := b.log[i].(status := Returned)];
    if product in b.inventory then
      Books(b.inventory[product := b.inventory[product] + 1], log')
    else
      Books(b.inventory, log')
  }

  /** The effect of one submitted operation. The forms cannot submit an issue
      of a product outside the inventory or a return the student has nothing
      pending for, so such an operation changes nothing. */
  function Apply(b: Books, op: Op): Books
  {
    match op
    case IssueOp(roll, name, product, date) =>
      if product in b.inventory then IssueStep(b, roll, name, product, date).0 else b
    case ReturnOp(roll, product) =>
      if HasPending(b.log, roll, product) then ReturnStep(b, roll, product) else b
  }

  function Run(b: Books, ops: seq<Op>): Books
    decreases |ops|
  {
    if ops == [] then b else Run(Apply(b, ops[0]), ops[1..])
  }

  // ---------------------------------------------------------------------------
  // Properties

  /** For every product of the inventory, its quantity plus its number of
      pending entries is the same in `b` and `b'`. */
  predicate StockConserved(b: Books, b': Books)
  {
    && b'.inventory.Keys == b.inventory.Keys
    && forall p :: p in b.inventory ==>
         b'.inventory[p] + Count(b'.log, p, NotReturned) == b.inventory[p] + Count(b.log, p, NotReturned)
  }

  lemma IssueConservesStock(b: Books, roll: string, name: string, product: string, date: string)
    requires product in b.inventory
    ensures StockConserved(b, IssueStep(b, roll, name, product, date).0)
  {
    var e := Entry(roll, name, product, date, NotReturned);
    forall p | p in b.inventory {
      CountAppend(b.log, e, p, NotReturned);
    }
  }

  lemma ReturnConservesStock(b: Books, roll: string, product: string)
    requires HasPending(b.log, roll, product)
    ensures StockConserved(b, ReturnStep(b, roll, product))
  {
    var i := FirstPendingIndex(b.log, roll, product);
    var r := ReturnStep(b, roll, product);
    assert r.log == b.log[i := b.log[i].(status := Returned)];
    forall p | p in b.inventory {
      CountFlip(b.log, i, p);
    }
  }

  lemma ApplyConservesStock(b: Books, op: Op)
    ensures StockConserved(b, Apply(b, op))
  {
    match op
    case IssueOp(roll, name, product, date) =>
      if product in b.inventory { IssueConservesStock(b, roll, name, product, date); }
    case ReturnOp(roll, product) =>
      if HasPending(b.log, roll, product) { ReturnConservesStock(b, roll, product); }
  }

  /** Quantity plus pending entries, per product, survives any sequence of
      submitted operations. */
  lemma {:induction false} RunConservesStock(b: Books, ops: seq<Op>)
    ensures StockConserved(b, Run(b, ops))
    decreases |ops|
  {
    if ops != [] {
      ApplyConservesStock(b, ops[0]);
      RunConservesStock(Apply(b, ops[0]), ops[1..]);
    }
  }

  /** Starting from non-negative quantities, no sequence of issues and returns
      drives a quantity below zero. */
  lemma {:induction false} RunKeepsStockNonNegative(b: Books, ops: seq<Op>)
    requires StockNonNegative(b.inventory)
    ensures StockNonNegative(Run(b, ops).inventory)
    decreases |ops|
  {
    if ops != [] {
      var b1 := Apply(b, ops[0]);
      assert StockNonNegative(b1.inventory);
      RunKeepsStockNonNegative(b1, ops[1..]);
    }
  }

  /** Issuing an item and then returning the same product for the same roll
      gives back the original quantity, leaves the product's pending count as
      it was and adds one Returned entry for it. */
  lemma IssueThenReturn(b: Books, roll: string, name: string, product: string, date: string)
    requires product in b.inventory && b.inventory[product] > 0
    ensures var b1 := IssueStep(b, roll, name, product, date).0;
      && HasPending(b1.log, roll, product)
      && var b2 := ReturnStep(b1, roll, product);
      && b2.inventory == b.inventory
      && |b2.log| == |b.log| + 1
      && Count(b2.log, product, NotReturned) == Count(b.log, product, NotReturned)
      && Count(b2.log, product, Returned) == Count(b.log, product, Returned) + 1
  {
    var e := Entry(roll, name, product, date, NotReturned);
    var b1 := IssueStep(b, roll, name, product, date).0;
    assert b1.log == b.log + [e];
    assert IsPendingFor(b1.log[|b.log|], roll, product);
    var i := FirstPendingIndex(b1.log, roll, product);
    var b2 := ReturnStep(b1, roll, product);
    assert b2.log == b1.log[i := b1.log[i].(status := Returned)];
    assert b2.inventory == b.inventory by {
      assert b2.inventory.Keys == b.inventory.Keys;
      forall p | p in b.inventory ensures b2.inventory[p] == b.inventory[p] {
        if p == product {
          assert b1.inventory[p] == b.inventory[p] - 1;
        }
      }
    }
    CountAppend(b.log, e, product, NotReturned);
    CountAppend(b.log, e, product, Returned);
    CountFlip(b1.log, i, product);
  }

  /** A return leaves no pending entry behind when it consumes the only one. */
  lemma ReturnOfOnlyPending(b: Books, roll: string, product: string)
    requires HasPending(b.log, roll, product)
    requires forall j, k :: 0 <= j < k < |b.log| && IsPendingFor(b.log[j], roll, product) ==> !IsPendingFor(b.log[k], roll, product)
    ensures !HasPending(ReturnStep(b, roll, product).log, roll, product)
  {
    var i := FirstPendingIndex(b.log, roll, product);
    var r := ReturnStep(b, roll, product);
    forall k | 0 <= k < |r.log| ensures !IsPendingFor(r.log[k], roll, product) {
      if k < i {
      } else if k > i {
        assert IsPendingFor(b.log[i], roll, product);
      }
    }
  }

  /** On the seed inventory, issuing a microscope leaves 9 with one pending
      entry; returning it brings the quantity back to 10, marks the entry
      Returned and leaves nothing for the incoming form to offer. */
  lemma SeedScenario(date: string)
    ensures var b := Books(SeedInventory(), []);
      var (b1, outcome) := IssueStep(b, "22BCS001", "Rahul", "Microscope", date);
      && outcome == Issued
      && b1.inventory["Microscope"] == 9
      && b1.log == [Entry("22BCS001", "Rahul", "Microscope", date, NotReturned)]
      && HasPending(b1.log, "22BCS001", "Microscope")
      && var b2 := ReturnStep(b1, "22BCS001", "Microscope");
      && b2.inventory["Microscope"] == 10
      && b2.log == [Entry("22BCS001", "Rahul", "Microscope", date, Returned)]
      && ReturnChoices(b2.log, "22BCS001") == None
  {
    var b := Books(SeedInventory(), []);
    var b1 := IssueStep(b, "22BCS001", "Rahul", "Microscope", date).0;
    assert IsPendingFor(b1.log[0], "22BCS001", "Microscope");
    var b2 := ReturnStep(b1, "22BCS001", "Microscope");
    assert |b2.log| == 1 && b2.log[0].status == Returned;
    assert forall p :: !HasPending(b2.log, "22BCS001", p);
  }

  // ---------------------------------------------------------------------------
  // The program's state

  /** The two tables, updated in place by the outgoing and incoming forms. */
  class Ledger {
    var inventory: map<string, int>
    var log: seq<Entry>

    function State(): Books
      reads this
    {
      Books(inventory, log)
    }

    /** The first start: the seed inventory and an empty outgoing log. */
    constructor Seeded()
      ensures inventory == SeedInventory() && log == []
    {
      inventory := SeedInventory();
      log := [];
    }

    /** Later starts: both tables as read back from their files. */
    constructor Load(inventory: map<string, int>, log: seq<Entry>)
      ensures this.inventory == inventory && this.log == log
    {
      this.inventory := inventory;
      this.log := log;
    }

    method Issue(roll: string, name: string, product: string, date: string) returns (outcome: IssueOutcome)
      requires product in inventory
      modifies this
      ensures (State(), outcome) == IssueStep(old(State()), roll, name, product, date)
      ensures StockConserved(old(State()), State())
      ensures old(StockNonNegative(inventory)) ==> StockNonNegative(inventory)
    {
      IssueConservesStock(State(), roll, name, product, date);
      if inventory[product] > 0 {
        log := log + [Entry(roll, name, product, date, NotReturned)];
        inventory := inventory[product := inventory[product] - 1];
        outcome := Issued;
      } else {
        outcome := NotEnoughStock;
      }
    }

    method Return(roll: string, product: string)
      requires HasPending(log, roll, product)
      modifies this
      ensures State() == ReturnStep(old(State()), roll, product)
      ensures StockConserved(old(State()), State())
      ensures old(StockNonNegative(inventory)) ==> StockNonNegative(inventory)
    {
      ReturnConservesStock(State(), roll, product);
      var idx := FirstPendingIndex(log, roll, product);
      log := log[idx := log[idx].(status := Returned)];
      if product in inventory {
        inventory := inventory[product := inventory[product] + 1];
      }
    }
  }
}
