/** The two-log lab register of streamlit_app.py: an append-only outgoing log,
    an append-only returned log, and the "Not Yet Returned" report that
    reconciles them by grouping, summing, left-joining and subtracting. */
module LabRegister {

  /** A row of the outgoing log: Date, Roll No, Name, Product, Quantity. */
  datatype OutRow = OutRow(date: string, roll: string, name: string, product: string, qty: int)

  /** A row of the returned log: Date, Roll No, Product, Quantity. */
  datatype ReturnRow = ReturnRow(date: string, roll: string, product: string, qty: int)

  /** The columns the issued summary is grouped by. */
  datatype GroupKey = GroupKey(roll: string, name: string, product: string)

  /** The columns the returned summary is grouped by, and the merge key. */
  datatype JoinKey = JoinKey(roll: string, product: string)

  /** Quantity_issued, Quantity_returned and Pending of one report row. */
  datatype ReportRow = ReportRow(issued: int, returned: int, pending: int)

  /** The report shows either "No outgoing records yet." or a table with one
      row per issued group still pending. */
  datatype Report = NoOutgoingRecords | Table(rows: map<GroupKey, ReportRow>)

  function KeyOf(o: OutRow): GroupKey
  {
    GroupKey(o.roll, o.name, o.product)
  }

  function JoinOf(k: GroupKey): JoinKey
  {
    JoinKey(k.roll, k.product)
  }

  function ReturnKeyOf(r: ReturnRow): JoinKey
  {
    JoinKey(r.roll, r.product)
  }

  // ---------------------------------------------------------------------------
  // Reference definitions: per-group totals, read straight off the logs

  /** True when some outgoing row belongs to group `k`. */
  predicate Issues(outgoing: seq<OutRow>, k: GroupKey)
  {
    exists i :: 0 <= i < |outgoing| && KeyOf(outgoing[i]) == k
  }

  /** Total quantity issued to group `k`. */
  function IssuedTotal(outgoing: seq<OutRow>, k: GroupKey): int
  {
    if outgoing == [] then 0
    else (if KeyOf(outgoing[0]) == k then outgoing[0].qty else 0) + IssuedTotal(outgoing[1..], k)
  }

  /** Total quantity returned for `j`, zero when nothing was returned for it. */
  function ReturnedTotal(returned: seq<ReturnRow>, j: JoinKey): int
  {
    if returned == [] then 0
    else (if ReturnKeyOf(returned[0]) == j then returned[0].qty else 0) + ReturnedTotal(returned[1..], j)
  }

  /** What is still out for group `k`: its issued total minus the returned
      total of its roll number and product. */
  function Pending(outgoing: seq<OutRow>, returned: seq<ReturnRow>, k: GroupKey): int
  {
    IssuedTotal(outgoing, k) - ReturnedTotal(returned, JoinOf(k))
  }

  /** Appending an outgoing row raises exactly its own group's total, by its quantity. */
  lemma {:induction false} IssuedTotalAppend(outgoing: seq<OutRow>, o: OutRow, k: GroupKey)
    ensures IssuedTotal(outgoing + [o], k) == IssuedTotal(outgoing, k) + (if KeyOf(o) == k then o.qty else 0)
  {
    if outgoing != [] {
      assert (outgoing + [o])[1..] == outgoing[1..] + [o];
      IssuedTotalAppend(outgoing[1..], o, k);
    }
  }

  /** Appending a returned row raises exactly its own roll and product's total. */
  lemma {:induction false} ReturnedTotalAppend(returned: seq<ReturnRow>, r: ReturnRow, j: JoinKey)
    ensures ReturnedTotal(returned + [r], j) == ReturnedTotal(returned, j) + (if ReturnKeyOf(r) == j then r.qty else 0)
  {
    if returned != [] {
      assert (returned + [r])[1..] == returned[1..] + [r];
      ReturnedTotalAppend(returned[1..], r, j);
    }
  }

  // ---------------------------------------------------------------------------
  // The report

  /** Group the outgoing log by roll number, name and product and sum the
      quantities. */
  function GroupIssued(outgoing: seq<OutRow>): (m: map<GroupKey, int>)
    ensures forall k :: k in m <==> Issues(outgoing, k)
    ensures forall k :: k in m ==> m[k] == IssuedTotal(outgoing, k)
  {
    if outgoing == [] then map[]
    else
      var init := outgoing[..|outgoing| - 1];
      var last := outgoing[|outgoing| - 1];
      assert outgoing == init + [last];
      var m := GroupIssued(init);
      var k := KeyOf(last);
      var m' := m[k := (if k in m then m[k] else 0) + last.qty];
      assert forall g :: g in m' <==> Issues(outgoing, g) by {
        forall g ensures g in m' <==> Issues(outgoing, g) {
          if Issues(init, g) {
            var i :| 0 <= i < |init| && KeyOf(init[i]) == g;
            assert KeyOf(outgoing[i]) == g;
          }
          if Issues(outgoing, g) && g != k {
            var i :| 0 <= i < |outgoing| && KeyOf(outgoing[i]) == g;
            assert KeyOf(init[i]) == g;
          }
          assert KeyOf(outgoing[|outgoing| - 1]) == k;
        }
      }
      assert forall g :: g in m' ==> m'[g] == IssuedTotal(outgoing, g) by {
        forall g | g in m' ensures m'[g] == IssuedTotal(outgoing, g) {
          IssuedTotalAppend(init, last, g);
          if g !in m {
            assert !Issues(init, g);
            IssuedTotalOfStranger(init, g);
          }
        }
      }
      m'
  }

  /** A group with no outgoing row has issued total zero. */
  lemma {:induction false} IssuedTotalOfStranger(outgoing: seq<OutRow>, k: GroupKey)
    requires !Issues(outgoing, k)
    ensures IssuedTotal(outgoing, k) == 0
  {
    if outgoing != [] {
      assert KeyOf(outgoing[0]) != k;
      assert !Issues(outgoing[1..], k) by {
        forall i | 0 <= i < |outgoing| - 1 ensures KeyOf(outgoing[1..][i]) != k {
          assert outgoing[1..][i] == outgoing[i + 1];
        }
      }
      IssuedTotalOfStranger(outgoing[1..], k);
    }
  }

  /** Group the returned log by roll number and product and sum the
      quantities; a key left out has total zero, as `fillna(0)` assumes. */
  function GroupReturned(returned: seq<ReturnRow>): (m: map<JoinKey, int>)
    ensures forall j :: ReturnedTotal(returned, j) == (if j in m then m[j] else 0)
  {
    if returned == [] then map[]
    else
      var init := returned[..|returned| - 1];
      var last := returned[|returned| - 1];
      assert returned == init + [last];
      var m := GroupReturned(init);
      var j := ReturnKeyOf(last);
      var m' := m[j := (if j in m then m[j] else 0) + last.qty];
      assert forall g :: ReturnedTotal(returned, g) == (if g in m' then m'[g] else 0) by {
        forall g ensures ReturnedTotal(returned, g) == (if g in m' then m'[g] else 0) {
          ReturnedTotalAppend(init, last, g);
        }
      }
      m'
  }

  /** Merge the issued summary with the returned summary on roll number and
      product, keeping every issued group and reading a missing return as 0. */
  function LeftJoin(issued: map<GroupKey, int>, returned: map<JoinKey, int>): map<GroupKey, ReportRow>
  {
    map k | k in issued ::
      var back := if JoinOf(k) in returned then returned[JoinOf(k)] else 0;
      ReportRow(issued[k], back, issued[k] - back)
  }

  /** Keep the merged rows whose Pending is positive. */
  function KeepPositive(merged: map<GroupKey, ReportRow>): map<GroupKey, ReportRow>
  {
    map k | k in merged && merged[k].pending > 0 :: merged[k]
  }

  /** The "Not Yet Returned" report. Each row is an issued group whose issued
      total exceeds the returned total of its roll number and product, and it
      shows both totals and their difference. */
  function NotYetReturned(outgoing: seq<OutRow>, returned: seq<ReturnRow>): (r: Report)
    ensures r.NoOutgoingRecords? <==> outgoing == []
    ensures r.Table? ==> forall k :: k in r.rows <==> Issues(outgoing, k) && Pending(outgoing, returned, k) > 0
    ensures r.Table? ==> forall k :: k in r.rows ==>
      r.rows[k] == ReportRow(IssuedTotal(outgoing, k), ReturnedTotal(returned, JoinOf(k)), Pending(outgoing, returned, k))
  {
    if outgoing == [] then NoOutgoingRecords
    else Table(KeepPositive(LeftJoin(GroupIssued(outgoing), GroupReturned(returned))))
  }

  // ---------------------------------------------------------------------------
  // Properties of the report

  /** Returns are matched on roll number and product only, so every name
      group of one roll number and product is charged the same returned total. */
  lemma SharedReturnedTotal(outgoing: seq<OutRow>, returned: seq<ReturnRow>, k1: GroupKey, k2: GroupKey)
    requires NotYetReturned(outgoing, returned).Table?
    requires k1 in NotYetReturned(outgoing, returned).rows && k2 in NotYetReturned(outgoing, returned).rows
    requires k1.roll == k2.roll && k1.product == k2.product
    ensures NotYetReturned(outgoing, returned).rows[k1].returned == NotYetReturned(outgoing, returned).rows[k2].returned
  {
  }

  /** Appending a return of positive quantity lowers the pending value of
      exactly the groups of its roll number and product, by its quantity, so
      no group's pending value goes up and no group joins the report. */
  lemma AppendReturnLowersPending(outgoing: seq<OutRow>, returned: seq<ReturnRow>, x: ReturnRow)
    requires x.qty >= 1
    ensures forall k :: Pending(outgoing, returned + [x], k)
                     == Pending(outgoing, returned, k) - (if JoinOf(k) == ReturnKeyOf(x) then x.qty else 0)
    ensures forall k :: Pending(outgoing, returned + [x], k) <= Pending(outgoing, returned, k)
    ensures outgoing != [] ==>
      NotYetReturned(outgoing, returned + [x]).rows.Keys <= NotYetReturned(outgoing, returned).rows.Keys
  {
    forall k ensures Pending(outgoing, returned + [x], k)
      == Pending(outgoing, returned, k) - (if JoinOf(k) == ReturnKeyOf(x) then x.qty else 0)
    {
      ReturnedTotalAppend(returned, x, JoinOf(k));
    }
  }

  /** Appending an outgoing row raises its own group's pending value by its
      quantity and leaves every other group's alone. */
  lemma AppendOutgoingRaisesOwnGroup(outgoing: seq<OutRow>, returned: seq<ReturnRow>, o: OutRow)
    ensures Issues(outgoing + [o], KeyOf(o))
    ensures forall k :: Pending(outgoing + [o], returned, k)
                     == Pending(outgoing, returned, k) + (if KeyOf(o) == k then o.qty else 0)
  {
    assert (outgoing + [o])[|outgoing|] == o;
    forall k ensures Pending(outgoing + [o], returned, k)
      == Pending(outgoing, returned, k) + (if KeyOf(o) == k then o.qty else 0)
    {
      IssuedTotalAppend(outgoing, o, k);
    }
  }

  /** A return whose roll number and product match no issued group does not
      change the report: returns are never checked against the outgoing log. */
  lemma UnmatchedReturnIsIgnored(outgoing: seq<OutRow>, returned: seq<ReturnRow>, x: ReturnRow)
    requires forall i :: 0 <= i < |outgoing| ==> JoinOf(KeyOf(outgoing[i])) != ReturnKeyOf(x)
    ensures NotYetReturned(outgoing, returned + [x]) == NotYetReturned(outgoing, returned)
  {
    if outgoing != [] {
      var before := NotYetReturned(outgoing, returned).rows;
      var after := NotYetReturned(outgoing, returned + [x]).rows;
      forall k | Issues(outgoing, k)
        ensures ReturnedTotal(returned + [x], JoinOf(k)) == ReturnedTotal(returned, JoinOf(k))
      {
        var i :| 0 <= i < |outgoing| && KeyOf(outgoing[i]) == k;
        ReturnedTotalAppend(returned, x, JoinOf(k));
      }
      assert after.Keys == before.Keys;
      assert after == before;
    }
  }

  // ---------------------------------------------------------------------------
  // Seed data

  /** The outgoing rows written when no outgoing file exists yet. */
  function SeedOutgoing(): seq<OutRow>
  {
    [ OutRow("2025-08-20", "22BCS001", "Rahul", "Microscope", 1),
      OutRow("2025-08-21", "22BCS002", "Priya", "Beaker", 2) ]
  }

  /** The returned rows written when no returned file exists yet. */
  function SeedReturned(): seq<ReturnRow>
  {
    [ ReturnRow("2025-08-22", "22BCS001", "Microscope", 1) ]
  }

  /** The per-group totals of the seed data. */
  lemma SeedTotals()
    ensures forall k :: Issues(SeedOutgoing(), k) ==>
      k == GroupKey("22BCS001", "Rahul", "Microscope") || k == GroupKey("22BCS002", "Priya", "Beaker")
    ensures Pending(SeedOutgoing(), SeedReturned(), GroupKey("22BCS001", "Rahul", "Microscope")) == 0
    ensures IssuedTotal(SeedOutgoing(), GroupKey("22BCS002", "Priya", "Beaker")) == 2
    ensures ReturnedTotal(SeedReturned(), JoinKey("22BCS002", "Beaker")) == 0
    ensures Issues(SeedOutgoing(), GroupKey("22BCS002", "Priya", "Beaker"))
  {
    var o, r := SeedOutgoing(), SeedReturned();
    var rahul := GroupKey("22BCS001", "Rahul", "Microscope");
    var priya := GroupKey("22BCS002", "Priya", "Beaker");
    assert KeyOf(o[0]) == rahul && KeyOf(o[1]) == priya;
    assert rahul != priya;
    assert o[1..] == [o[1]] && o[1..][1..] == [] && r[1..] == [];
    assert IssuedTotal(o, rahul) == 1;
    assert ReturnKeyOf(r[0]) == JoinOf(rahul) && ReturnKeyOf(r[0]) != JoinOf(priya);
  }

  /** On the seed data Rahul's microscope is back and Priya still holds two
      beakers, which is the only reported row. */
  lemma SeedReport()
    ensures NotYetReturned(SeedOutgoing(), SeedReturned())
      == Table(map[GroupKey("22BCS002", "Priya", "Beaker") := ReportRow(2, 0, 2)])
  {
    var priya := GroupKey("22BCS002", "Priya", "Beaker");
    var report := NotYetReturned(SeedOutgoing(), SeedReturned());
    SeedTotals();
    assert report.rows.Keys == {priya};
    assert report.rows[priya] == ReportRow(2, 0, 2);
  }

  // ---------------------------------------------------------------------------
  // The program's state

  /** The two logs, extended by the outgoing and returned entry forms. */
  class Register {
    var outgoing: seq<OutRow>
    var returned: seq<ReturnRow>

    /** The first start: both logs seeded. */
    constructor Seeded()
      ensures outgoing == SeedOutgoing() && returned == SeedReturned()
    {
      outgoing := SeedOutgoing();
      returned := SeedReturned();
    }

    /** Later starts: both logs as read back from their files. */
    constructor Load(outgoing: seq<OutRow>, returned: seq<ReturnRow>)
      ensures this.outgoing == outgoing && this.returned == returned
    {
      this.outgoing := outgoing;
      this.returned := returned;
    }

    /** The outgoing form: its quantity field accepts whole numbers from 1;
        the date is the submission time. */
    method AddOutgoing(date: string, roll: string, name: string, product: string, qty: int)
      requires qty >= 1
      modifies this
      ensures outgoing == old(outgoing) + [OutRow(date, roll, name, product, qty)]
      ensures returned == old(returned)
      ensures forall k :: Pending(outgoing, returned, k)
                       == old(Pending(outgoing, returned, k)) + (if k == GroupKey(roll, name, product) then qty else 0)
    {
      AppendOutgoingRaisesOwnGroup(outgoing, returned, OutRow(date, roll, name, product, qty));
      outgoing := outgoing + [OutRow(date, roll, name, product, qty)];
    }

    /** The returned form: any roll number and product are accepted, whether
        or not they were ever issued. */
    method AddReturned(date: string, roll: string, product: string, qty: int)
      requires qty >= 1
      modifies this
      ensures returned == old(returned) + [ReturnRow(date, roll, product, qty)]
      ensures outgoing == old(outgoing)
      ensures forall k :: Pending(outgoing, returned, k) <= old(Pending(outgoing, returned, k))
    {
      AppendReturnLowersPending(outgoing, returned, ReturnRow(date, roll, product, qty));
      returned := returned + [ReturnRow(date, roll, product, qty)];
    }
  }
}
