/** The sales dashboard (client/src/pages/dashboards/Sales.jsx): the total of
    the fetched orders and the per-status tallies of orders and appointments,
    each a dictionary from status string to count. */
module SalesDashboard {
  import opened Catalog
  import opened Totals

  /** The JavaScript value of a row's `total_order_sales`: a number, `null`
      (the column exists but holds nothing), or `undefined` (the row has no
      such column). */
  datatype FieldValue = Number(n: real) | Null | Undefined

  /** A fetched `orders` row: the total the order screens store in
      `total_order_price`, the `total_order_sales` field the dashboard reads,
      and the status. */
  datatype SalesOrder = SalesOrder(totalOrderPrice: real, totalOrderSales: FieldValue, orderStatus: string)

  /** A fetched `appointments` row; only its status is read. */
  datatype Appointment = Appointment(appStatus: string)

  // ------------------------------------------------------------ total sales

  /** JavaScript `+` on a running number (None is NaN) and a field value:
      `null` counts as 0, adding `undefined` yields NaN, and NaN absorbs every
      later term. */
  function AddField(acc: Option<real>, x: FieldValue): Option<real>
  {
    match x
    case Number(n) => if acc.Some? then Some(acc.value + n) else None
    case Null => acc
    case Undefined => None
  }

  /** `orders.reduce((sum, order) => sum + order.total_order_sales, 0)` as written:
      0 for no rows, and a number only if no row lacks the field. */
  function TotalSalesAsWritten(orders: seq<SalesOrder>): (r: Option<real>)
    ensures |orders| == 0 ==> r == Some(0.0)
    ensures r.Some? ==> forall k :: 0 <= k < |orders| ==> !orders[k].totalOrderSales.Undefined?
  {
    if |orders| == 0 then Some(0.0)
    else AddField(TotalSalesAsWritten(orders[..|orders| - 1]), orders[|orders| - 1].totalOrderSales)
  }

  /** A row's `total_order_sales` as a number term of the sum, `null` as 0. */
  function SalesField(o: SalesOrder): real
  {
    if o.totalOrderSales.Number? then o.totalOrderSales.n else 0.0
  }

  /** The as-written total is a number exactly when no row lacks the field, and
      it is then the sum of the field with `null` counting 0; one row without
      the field makes the total NaN. */
  lemma {:induction false} TotalSalesAsWrittenDefined(orders: seq<SalesOrder>)
    ensures TotalSalesAsWritten(orders).Some?
            <==> forall k :: 0 <= k < |orders| ==> !orders[k].totalOrderSales.Undefined?
    ensures TotalSalesAsWritten(orders).Some? ==> TotalSalesAsWritten(orders).value == Sum(orders, SalesField)
  {
    if |orders| > 0 {
      var init := orders[..|orders| - 1];
      TotalSalesAsWrittenDefined(init);
      assert forall k :: 0 <= k < |init| ==> init[k] == orders[k];
    }
  }

  /** A row that has no `total_order_sales` column already turns the card into
      NaN, whereas the intended total is that row's order price. */
  lemma TotalSalesAsWrittenIsNaN(o: SalesOrder)
    requires o.totalOrderSales.Undefined?
    ensures TotalSalesAsWritten([o]).None?
    ensures TotalSales([o]) == o.totalOrderPrice
  {
    TotalSalesAsWrittenDefined([o]);
    SumSingleton(o, OrderPrice);
  }

  /** Rows whose `total_order_sales` column exists but holds `null` add
      nothing: the as-written total of such rows is 0, not NaN. */
  lemma {:induction false} TotalSalesAsWrittenNullRows(orders: seq<SalesOrder>)
    requires forall k :: 0 <= k < |orders| ==> orders[k].totalOrderSales.Null?
    ensures TotalSalesAsWritten(orders) == Some(0.0)
  {
    if |orders| > 0 {
      TotalSalesAsWrittenNullRows(orders[..|orders| - 1]);
    }
  }

  function OrderPrice(o: SalesOrder): real { o.totalOrderPrice }

  /** The sales total as evidently intended: the sum of `total_order_price`. */
  function TotalSales(orders: seq<SalesOrder>): (r: real)
    ensures |orders| == 0 ==> r == 0.0
    ensures (forall k :: 0 <= k < |orders| ==> 0.0 <= orders[k].totalOrderPrice) ==> 0.0 <= r
  {
    assert (forall k :: 0 <= k < |orders| ==> 0.0 <= orders[k].totalOrderPrice) ==> 0.0 <= Sum(orders, OrderPrice) by {
      if forall k :: 0 <= k < |orders| ==> 0.0 <= orders[k].totalOrderPrice {
        SumNonNegative(orders, OrderPrice);
      }
    }
    Sum(orders, OrderPrice)
  }

  /** The total of two batches is the sum of their totals, and it does not
      depend on the order of the rows. */
  lemma TotalSalesProperties(a: seq<SalesOrder>, b: seq<SalesOrder>)
    ensures TotalSales(a + b) == TotalSales(a) + TotalSales(b)
    ensures multiset(a) == multiset(b) ==> TotalSales(a) == TotalSales(b)
  {
    SumAppend(a, b, OrderPrice);
    if multiset(a) == multiset(b) {
      SumPermutation(a, b, OrderPrice);
    }
  }

  // ----------------------------------------------------------- status tally

  /** The keys every tally starts with, each at 0. */
  const InitialKeys: set<string> := {"pending", "completed", "cancelled"}

  /** How many entries of `statuses` are exactly `key`. */
  function Count(statuses: seq<string>, key: string): nat
  {
    if |statuses| == 0 then 0
    else Count(statuses[..|statuses| - 1], key) + (if statuses[|statuses| - 1] == key then 1 else 0)
  }

  /** A status that never occurs counts 0. */
  lemma {:induction false} CountAbsent(statuses: seq<string>, key: string)
    requires forall k :: 0 <= k < |statuses| ==> statuses[k] != key
    ensures Count(statuses, key) == 0
  {
    if |statuses| > 0 {
      CountAbsent(statuses[..|statuses| - 1], key);
    }
  }

  /** The sum of all values of a dictionary of counts. */
  ghost function MapTotal(m: map<string, int>): int
    decreases |m|
  {
    if m == map[] then 0
    else
      var k :| k in m;
      m[k] + MapTotal(m - {k})
  }

  /** The total can be split at any key. */
  lemma {:induction false} MapTotalRemove(m: map<string, int>, x: string)
    requires x in m
    ensures MapTotal(m) == m[x] + MapTotal(m - {x})
    decreases |m|
  {
    var y :| y in m && MapTotal(m) == m[y] + MapTotal(m - {y});
    if y != x {
      MapTotalRemove(m - {y}, x);
      MapTotalRemove(m - {x}, y);
      assert m - {y} - {x} == m - {x} - {y};
    }
  }

  /** Adding one to a key, or adding a new key at 1, adds one to the total. */
  lemma MapTotalIncrement(m: map<string, int>, x: string)
    ensures x in m ==> MapTotal(m[x := m[x] + 1]) == MapTotal(m) + 1
    ensures x !in m ==> MapTotal(m[x := 1]) == MapTotal(m) + 1
  {
    var n := if x in m then m[x] + 1 else 1;
    MapTotalRemove(m[x := n], x);
    if x in m {
      MapTotalRemove(m, x);
      assert m[x := n] - {x} == m - {x};
    } else {
      assert m[x := n] - {x} == m;
    }
  }

  /** One step of the tally: `(statusCounts[s] || 0) + 1` stored under `s`. */
  function Bump(counts: map<string, int>, s: string): (r: map<string, int>)
    ensures r.Keys == counts.Keys + {s}
    ensures r[s] == (if s in counts then counts[s] else 0) + 1
    ensures forall key :: key in counts && key != s ==> r[key] == counts[key]
  {
    counts[s := (if s in counts then counts[s] else 0) + 1]
  }

  /** The three initial keys at 0. */
  function InitialCounts(): (r: map<string, int>)
    ensures r.Keys == InitialKeys && forall key :: key in r ==> r[key] == 0
  {
    map["pending" := 0, "completed" := 0, "cancelled" := 0]
  }

  lemma InitialCountsTotal()
    ensures MapTotal(InitialCounts()) == 0
  {
    var m := InitialCounts();
    MapTotalRemove(m, "pending");
    MapTotalRemove(m - {"pending"}, "completed");
    MapTotalRemove(m - {"pending"} - {"completed"}, "cancelled");
    assert m - {"pending"} - {"completed"} - {"cancelled"} == map[];
  }

  /** Counting one more status adds one exactly under that status. */
  lemma CountPrefix(statuses: seq<string>, i: nat, key: string)
    requires i < |statuses|
    ensures Count(statuses[..i + 1], key) == Count(statuses[..i], key) + (if statuses[i] == key then 1 else 0)
  {
    assert statuses[..i + 1][..i] == statuses[..i];
  }

  /** A tally of the first `i` statuses, bumped at status `i`, is the tally of
      the first `i + 1`. */
  lemma TallyStep(statuses: seq<string>, i: nat, counts: map<string, int>)
    requires i < |statuses|
    requires counts.Keys == InitialKeys + (set k | 0 <= k < i :: statuses[k])
    requires forall key :: key in counts ==> counts[key] == Count(statuses[..i], key)
    requires MapTotal(counts) == i
    ensures Bump(counts, statuses[i]).Keys == InitialKeys + (set k | 0 <= k < i + 1 :: statuses[k])
    ensures forall key :: key in Bump(counts, statuses[i]) ==>
              Bump(counts, statuses[i])[key] == Count(statuses[..i + 1], key)
    ensures MapTotal(Bump(counts, statuses[i])) == i + 1
  {
    var s := statuses[i];
    var next := Bump(counts, s);
    assert (set k | 0 <= k < i + 1 :: statuses[k]) == (set k | 0 <= k < i :: statuses[k]) + {s};
    forall key | key in next
      ensures next[key] == Count(statuses[..i + 1], key)
    {
      CountPrefix(statuses, i, key);
      if key == s && s !in counts {
        CountAbsent(statuses[..i], s);
      }
    }
    MapTotalIncrement(counts, s);
  }

  /** The `forEach` tally: start from the three initial keys at 0, then for each
      status `statusCounts[s] = (statusCounts[s] || 0) + 1`. Keys are matched
      exactly. */
  method StatusCounts(statuses: seq<string>) returns (counts: map<string, int>)
    ensures counts.Keys == InitialKeys + (set k | 0 <= k < |statuses| :: statuses[k])
    ensures forall key :: key in counts ==> counts[key] == Count(statuses, key)
    ensures MapTotal(counts) == |statuses|
  {
    counts := InitialCounts();
    InitialCountsTotal();
    for i := 0 to |statuses|
      invariant counts.Keys == InitialKeys + (set k | 0 <= k < i :: statuses[k])
      invariant forall key :: key in counts ==> counts[key] == Count(statuses[..i], key)
      invariant MapTotal(counts) == i
    {
      TallyStep(statuses, i, counts);
      counts := Bump(counts, statuses[i]);
    }
    assert statuses[..|statuses|] == statuses;
  }

  /** The order tally of fetchOrders, keyed by `order_status`. */
  function OrderStatuses(orders: seq<SalesOrder>): (r: seq<string>)
    ensures |r| == |orders| && forall k :: 0 <= k < |orders| ==> r[k] == orders[k].orderStatus
  {
    seq(|orders|, k requires 0 <= k < |orders| => orders[k].orderStatus)
  }

  /** The appointment tally of fetchAppointments, keyed by `app_status`. */
  function AppointmentStatuses(appointments: seq<Appointment>): (r: seq<string>)
    ensures |r| == |appointments| && forall k :: 0 <= k < |appointments| ==> r[k] == appointments[k].appStatus
  {
    seq(|appointments|, k requires 0 <= k < |appointments| => appointments[k].appStatus)
  }

  // --------------------------------------------- status spelling (finding)

  /** ASCII lower-casing of one character. */
  function LowerChar(c: char): char
  {
    if 'A' <= c <= 'Z' then (c as int + 32) as char else c
  }

  function Lower(s: string): (r: string)
    ensures |r| == |s| && forall k :: 0 <= k < |s| ==> r[k] == LowerChar(s[k])
  {
    seq(|s|, k requires 0 <= k < |s| => LowerChar(s[k]))
  }

  /** Every status lower-cased, the key spelling the dashboard displays. */
  function LowerAll(statuses: seq<string>): (r: seq<string>)
    ensures |r| == |statuses| && forall k :: 0 <= k < |statuses| ==> r[k] == Lower(statuses[k])
  {
    seq(|statuses|, k requires 0 <= k < |statuses| => Lower(statuses[k]))
  }

  /** The status values the order screens store. */
  predicate FormStatus(s: string)
  {
    s == "Pending" || s == "Completed" || s == "Cancelled"
  }

  /** As written, a batch of orders whose statuses come from the order screens
      tallies 0 under every displayed key, while each order is counted under its
      capitalised key. */
  lemma {:induction false} DisplayedCountsAsWritten(statuses: seq<string>)
    requires forall k :: 0 <= k < |statuses| ==> FormStatus(statuses[k])
    ensures Count(statuses, "pending") == 0 && Count(statuses, "completed") == 0
            && Count(statuses, "cancelled") == 0
    ensures Count(statuses, "Pending") + Count(statuses, "Completed") + Count(statuses, "Cancelled")
            == |statuses|
  {
    if |statuses| > 0 {
      DisplayedCountsAsWritten(statuses[..|statuses| - 1]);
    }
  }

  /** The three capitalised statuses lower-case to the three displayed keys. */
  lemma LowerFormStatus(s: string)
    requires FormStatus(s)
    ensures s == "Pending" ==> Lower(s) == "pending"
    ensures s == "Completed" ==> Lower(s) == "completed"
    ensures s == "Cancelled" ==> Lower(s) == "cancelled"
  {
  }

  /** The tally as evidently intended: statuses compared case-insensitively by
      lower-casing them before counting. */
  method NormalizedStatusCounts(statuses: seq<string>) returns (counts: map<string, int>)
    ensures counts.Keys == InitialKeys + (set k | 0 <= k < |statuses| :: Lower(statuses[k]))
    ensures forall key :: key in counts ==> counts[key] == Count(LowerAll(statuses), key)
    ensures MapTotal(counts) == |statuses|
  {
    var lowered := LowerAll(statuses);
    counts := StatusCounts(lowered);
    assert (set k | 0 <= k < |lowered| :: lowered[k]) == (set k | 0 <= k < |statuses| :: Lower(statuses[k]));
  }

  /** With the normalised tally, every order from the order screens shows up
      under its displayed key. */
  lemma {:induction false} NormalizedCountsShowFormStatuses(statuses: seq<string>)
    requires forall k :: 0 <= k < |statuses| ==> FormStatus(statuses[k])
    ensures Count(LowerAll(statuses), "pending") == Count(statuses, "Pending")
    ensures Count(LowerAll(statuses), "completed") == Count(statuses, "Completed")
    ensures Count(LowerAll(statuses), "cancelled") == Count(statuses, "Cancelled")
  {
    if |statuses| > 0 {
      var init := statuses[..|statuses| - 1];
      NormalizedCountsShowFormStatuses(init);
      assert LowerAll(statuses)[..|statuses| - 1] == LowerAll(init);
      LowerFormStatus(statuses[|statuses| - 1]);
    }
  }

  // ------------------------------------------------------------- screen

  /** The dashboard's component state. */
  class SalesScreen {
    var orders: seq<SalesOrder>
    var appointments: seq<Appointment>
    var totalSales: Option<real>
    var orderStatusCounts: map<string, int>
    var appointmentStatusCounts: map<string, int>

    constructor ()
      ensures orders == [] && appointments == [] && totalSales == Some(0.0)
      ensures orderStatusCounts == map["pending" := 0, "completed" := 0, "cancelled" := 0]
      ensures appointmentStatusCounts == map["pending" := 0, "completed" := 0, "cancelled" := 0]
    {
      orders, appointments, totalSales := [], [], Some(0.0);
      orderStatusCounts := map["pending" := 0, "completed" := 0, "cancelled" := 0];
      appointmentStatusCounts := map["pending" := 0, "completed" := 0, "cancelled" := 0];
    }

    /** fetchOrders: on success keep the rows, their as-written total (NaN is
        None) and their status tally keyed by the statuses exactly as stored; on
        a fetch error nothing changes. */
    method FetchOrders(fetched: Option<seq<SalesOrder>>)
      modifies this
      ensures fetched.Some? ==> orders == fetched.value && totalSales == TotalSalesAsWritten(fetched.value)
      ensures fetched.Some? ==>
                orderStatusCounts.Keys == InitialKeys + (set k | 0 <= k < |fetched.value| :: fetched.value[k].orderStatus)
      ensures fetched.Some? ==> forall key :: key in orderStatusCounts ==>
                orderStatusCounts[key] == Count(OrderStatuses(fetched.value), key)
      ensures fetched.Some? ==> MapTotal(orderStatusCounts) == |fetched.value|
      ensures fetched.None? ==> orders == old(orders) && totalSales == old(totalSales)
                                && orderStatusCounts == old(orderStatusCounts)
      ensures appointments == old(appointments) && appointmentStatusCounts == old(appointmentStatusCounts)
    {
      if fetched.Some? {
        orders := fetched.value;
        totalSales := TotalSalesAsWritten(fetched.value);
        var statuses := OrderStatuses(fetched.value);
        orderStatusCounts := StatusCounts(statuses);
        assert (set k | 0 <= k < |statuses| :: statuses[k])
               == (set k | 0 <= k < |fetched.value| :: fetched.value[k].orderStatus);
      }
    }

    /** fetchAppointments: on success keep the rows and their status tally keyed
        by the statuses exactly as stored; on a fetch error nothing changes. */
    method FetchAppointments(fetched: Option<seq<Appointment>>)
      modifies this
      ensures fetched.Some? ==> appointments == fetched.value
      ensures fetched.Some? ==>
                appointmentStatusCounts.Keys
                == InitialKeys + (set k | 0 <= k < |fetched.value| :: fetched.value[k].appStatus)
      ensures fetched.Some? ==> forall key :: key in appointmentStatusCounts ==>
                appointmentStatusCounts[key] == Count(AppointmentStatuses(fetched.value), key)
      ensures fetched.Some? ==> MapTotal(appointmentStatusCounts) == |fetched.value|
      ensures fetched.None? ==> appointments == old(appointments)
                                && appointmentStatusCounts == old(appointmentStatusCounts)
      ensures orders == old(orders) && totalSales == old(totalSales) && orderStatusCounts == old(orderStatusCounts)
    {
      if fetched.Some? {
        appointments := fetched.value;
        var statuses := AppointmentStatuses(fetched.value);
        appointmentStatusCounts := StatusCounts(statuses);
        assert (set k | 0 <= k < |statuses| :: statuses[k])
               == (set k | 0 <= k < |fetched.value| :: fetched.value[k].appStatus);
      }
    }
  }
}
