/**
 * The order-list logic of the admin page (src/pages/AdminPage.tsx): the local status update,
 * the dashboard statistics, the status badge, and the guards on the status buttons.
 */
module Admin {
  import opened Wrappers
  import opened Types
  import opened Text

  /** An order as the page reads it from the `orders` table; the status is a plain string there. */
  datatype DatabaseOrder = DatabaseOrder(
    id: string,
    customerName: string,
    customerEmail: string,
    customerPhone: string,
    gameId: string,
    server: string,
    serviceName: string,
    serviceDescription: Option<string>,
    amount: real,
    paymentId: Option<string>,
    status: string,
    createdAt: string,
    updatedAt: string)

  // The local status update

  /**
   * `orders.map(order => order.id === orderId ? { ...order, status } : order)`: the same list in
   * the same order, where every order with that id now has the new status and nothing else changed.
   */
  function WithStatus(orders: seq<DatabaseOrder>, orderId: string, status: string): (r: seq<DatabaseOrder>)
    ensures |r| == |orders|
    ensures forall i :: 0 <= i < |orders| ==> r[i].id == orders[i].id
    ensures forall i :: 0 <= i < |orders| && orders[i].id == orderId ==> r[i].status == status
    ensures forall i :: 0 <= i < |orders| && orders[i].id != orderId ==> r[i] == orders[i]
    ensures forall i :: 0 <= i < |orders| ==> r[i] == orders[i].(status := r[i].status)
  {
    if orders == [] then []
    else
      var head := if orders[0].id == orderId then orders[0].(status := status) else orders[0];
      var rest := WithStatus(orders[1..], orderId, status);
      assert forall i :: 1 <= i < |orders| ==> ([head] + rest)[i] == rest[i - 1] && orders[i] == orders[1..][i - 1];
      [head] + rest
  }

  /** Setting a status twice is setting it once. */
  lemma WithStatusIdempotent(orders: seq<DatabaseOrder>, orderId: string, status: string)
    ensures WithStatus(WithStatus(orders, orderId, status), orderId, status) == WithStatus(orders, orderId, status)
  {
    var once := WithStatus(orders, orderId, status);
    var twice := WithStatus(once, orderId, status);
    assert forall i :: 0 <= i < |orders| ==> twice[i] == once[i];
  }

  /** An id no order carries leaves the list as it was. */
  lemma WithStatusUnknownId(orders: seq<DatabaseOrder>, orderId: string, status: string)
    requires forall i :: 0 <= i < |orders| ==> orders[i].id != orderId
    ensures WithStatus(orders, orderId, status) == orders
  {
  }

  /** What the page reports after a status update. */
  datatype UpdateOutcome = Updated(status: OrderStatus) | Failed(message: string)

  /**
   * The admin page's state: the loaded order list and the order whose details dialog was last
   * opened. The dialog keeps the order as it was when opened: a status update rewrites only the
   * list, so the dialog's copy can fall behind it.
   */
  class AdminConsole {
    var orders: seq<DatabaseOrder>
    var selectedOrder: Option<DatabaseOrder>

    /** `setOrders(data || [])` after the orders were loaded; no dialog has been opened. */
    constructor(loaded: seq<DatabaseOrder>)
      ensures orders == loaded && selectedOrder.None?
    {
      orders := loaded;
      selectedOrder := None;
    }

    /** The eye button of row `i`: `setSelectedOrder(order)` with that row's order as it is now. */
    method SelectOrder(i: int)
      requires 0 <= i < |orders|
      modifies this`selectedOrder
      ensures selectedOrder == Some(orders[i])
    {
      selectedOrder := Some(orders[i]);
    }

    /** The dialog's "Start Processing" button is enabled: `selectedOrder.status === 'pending'`. */
    predicate DialogStartProcessingEnabled()
      reads this`selectedOrder
    {
      selectedOrder.Some? && StartProcessingOffered(selectedOrder.value.status)
    }

    /** The dialog's "Mark Complete" button is enabled: `selectedOrder.status !== 'completed'`. */
    predicate DialogMarkCompleteEnabled()
      reads this`selectedOrder
    {
      selectedOrder.Some? && MarkCompleteOffered(selectedOrder.value.status)
    }

    /**
     * `updateOrderStatus(orderId, newStatus)` after the database answered: `dbError` is the
     * error it reported, if any. On an error the list is untouched and the failure message is
     * reported; otherwise the orders with that id take the new status. The dialog's order is
     * never touched.
     */
    method UpdateOrderStatus(orderId: string, newStatus: OrderStatus, dbError: Option<string>)
      returns (outcome: UpdateOutcome)
      modifies this`orders
      ensures selectedOrder == old(selectedOrder)
      ensures dbError.Some? ==> orders == old(orders)
      ensures dbError.Some? ==> outcome == Failed("Failed to update order status: " + dbError.value)
      ensures dbError.None? ==> orders == WithStatus(old(orders), orderId, StatusName(newStatus))
      ensures dbError.None? ==> outcome == Updated(newStatus)
    {
      if dbError.Some? {
        return Failed("Failed to update order status: " + dbError.value);
      }
      orders := WithStatus(orders, orderId, StatusName(newStatus));
      outcome := Updated(newStatus);
    }
  }

  // Statistics

  /** `orders.filter(order => order.status === status)`. */
  function OrdersWithStatus(orders: seq<DatabaseOrder>, status: string): (r: seq<DatabaseOrder>)
    ensures |r| <= |orders|
    ensures forall i :: 0 <= i < |r| ==> r[i].status == status && r[i] in orders
    ensures forall o :: o in orders && o.status == status ==> o in r
  {
    if orders == [] then []
    else if orders[0].status == status then [orders[0]] + OrdersWithStatus(orders[1..], status)
    else OrdersWithStatus(orders[1..], status)
  }

  /** The filter keeps every order with the status exactly as often as the list holds it, and no other. */
  lemma {:induction false} OrdersWithStatusMultiplicity(orders: seq<DatabaseOrder>, status: string)
    ensures forall o :: multiset(OrdersWithStatus(orders, status))[o]
                     == if o.status == status then multiset(orders)[o] else 0
  {
    if orders != [] {
      OrdersWithStatusMultiplicity(orders[1..], status);
      assert orders == [orders[0]] + orders[1..];
    }
  }

  /** The positions of the list whose order has the given status. */
  ghost function StatusIndices(orders: seq<DatabaseOrder>, status: string): set<int> {
    set i | 0 <= i < |orders| && orders[i].status == status
  }

  /** The filter keeps one order for each position holding that status. */
  lemma {:induction false} CountIsIndices(orders: seq<DatabaseOrder>, status: string)
    ensures |OrdersWithStatus(orders, status)| == |StatusIndices(orders, status)|
  {
    if orders != [] {
      var n := |orders| - 1;
      var init, last := orders[..n], orders[n];
      CountIsIndices(init, status);
      assert orders == init + [last];
      OrdersWithStatusAppend(init, [last], status);
      IndicesOfSnoc(init, last, status);
      assert n !in StatusIndices(init, status);
      if last.status == status {
        assert OrdersWithStatus([last], status) == [last];
      } else {
        assert OrdersWithStatus([last], status) == [];
      }
    }
  }

  /** Appending an order adds its position, when it has the status, and no other. */
  lemma IndicesOfSnoc(init: seq<DatabaseOrder>, last: DatabaseOrder, status: string)
    ensures StatusIndices(init + [last], status)
         == StatusIndices(init, status) + if last.status == status then {|init|} else {}
  {
    var xs := init + [last];
    forall i | 0 <= i < |init|
      ensures xs[i] == init[i]
    {
    }
  }

  /** `reduce((sum, order) => sum + order.amount, 0)`. */
  function SumAmounts(orders: seq<DatabaseOrder>): real {
    if orders == [] then 0.0 else SumAmounts(orders[..|orders| - 1]) + orders[|orders| - 1].amount
  }

  /** The revenue: the amounts of the completed orders, added up. */
  function Revenue(orders: seq<DatabaseOrder>): real {
    SumAmounts(OrdersWithStatus(orders, "completed"))
  }

  datatype OrderStats = OrderStats(total: nat, pending: nat, processing: nat, completed: nat, totalRevenue: real)

  /**
   * `getOrderStats()`: the number of orders; for each of the three statuses, the number of
   * positions holding exactly that status string; and the completed orders' amounts added up.
   */
  function GetOrderStats(orders: seq<DatabaseOrder>): (s: OrderStats)
    ensures s.total == |orders|
    ensures s.pending == |StatusIndices(orders, "pending")|
    ensures s.processing == |StatusIndices(orders, "processing")|
    ensures s.completed == |StatusIndices(orders, "completed")|
    ensures s.pending + s.processing + s.completed <= s.total
    ensures s.totalRevenue == SumOfShares(orders)
    ensures s.completed == 0 ==> s.totalRevenue == 0.0
  {
    CountsBound(orders);
    CountIsIndices(orders, "pending");
    CountIsIndices(orders, "processing");
    CountIsIndices(orders, "completed");
    RevenueIsSumOfShares(orders);
    OrderStats(|orders|,
               |OrdersWithStatus(orders, "pending")|,
               |OrdersWithStatus(orders, "processing")|,
               |OrdersWithStatus(orders, "completed")|,
               Revenue(orders))
  }

  /** An order whose status is one of the three counted ones. */
  predicate Counted(o: DatabaseOrder) {
    o.status == "pending" || o.status == "processing" || o.status == "completed"
  }

  /**
   * The three counts add up to at most the number of orders, and to exactly that number when
   * no order is cancelled or carries a status outside the four.
   */
  lemma {:induction false} CountsBound(orders: seq<DatabaseOrder>)
    ensures |OrdersWithStatus(orders, "pending")| + |OrdersWithStatus(orders, "processing")|
          + |OrdersWithStatus(orders, "completed")| <= |orders|
    ensures |OrdersWithStatus(orders, "pending")| + |OrdersWithStatus(orders, "processing")|
          + |OrdersWithStatus(orders, "completed")| == |orders|
        <==> forall i :: 0 <= i < |orders| ==> Counted(orders[i])
  {
    if orders != [] {
      CountsBound(orders[1..]);
      if !Counted(orders[0]) {
        assert !(forall i :: 0 <= i < |orders| ==> Counted(orders[i]));
      } else {
        assert (forall i :: 0 <= i < |orders| ==> Counted(orders[i]))
           <==> (forall i :: 0 <= i < |orders[1..]| ==> Counted(orders[1..][i]));
      }
    }
  }

  lemma {:induction false} SumAmountsAppend(xs: seq<DatabaseOrder>, ys: seq<DatabaseOrder>)
    ensures SumAmounts(xs + ys) == SumAmounts(xs) + SumAmounts(ys)
    decreases |ys|
  {
    if ys != [] {
      var last := |ys| - 1;
      assert (xs + ys)[..|xs + ys| - 1] == xs + ys[..last];
      SumAmountsAppend(xs, ys[..last]);
    } else {
      assert xs + ys == xs;
    }
  }

  lemma OrdersWithStatusAppend(xs: seq<DatabaseOrder>, ys: seq<DatabaseOrder>, status: string)
    ensures OrdersWithStatus(xs + ys, status) == OrdersWithStatus(xs, status) + OrdersWithStatus(ys, status)
  {
    if xs != [] {
      assert (xs + ys)[0] == xs[0] && (xs + ys)[1..] == xs[1..] + ys;
      OrdersWithStatusAppend(xs[1..], ys, status);
      if xs[0].status == status {
        assert [xs[0]] + (OrdersWithStatus(xs[1..], status) + OrdersWithStatus(ys, status))
            == [xs[0]] + OrdersWithStatus(xs[1..], status) + OrdersWithStatus(ys, status);
      }
    } else {
      assert xs + ys == ys;
    }
  }

  /** The revenue of two lists together is the sum of their revenues. */
  lemma RevenueAppend(xs: seq<DatabaseOrder>, ys: seq<DatabaseOrder>)
    ensures Revenue(xs + ys) == Revenue(xs) + Revenue(ys)
  {
    OrdersWithStatusAppend(xs, ys, "completed");
    SumAmountsAppend(OrdersWithStatus(xs, "completed"), OrdersWithStatus(ys, "completed"));
  }

  /** An order that is not completed, wherever it appears in the list, does not change the revenue. */
  lemma RevenueIgnoresUncompleted(xs: seq<DatabaseOrder>, ys: seq<DatabaseOrder>, o: DatabaseOrder)
    requires o.status != "completed"
    ensures Revenue(xs + [o] + ys) == Revenue(xs + ys)
  {
    RevenueAppend(xs + [o], ys);
    RevenueAppend(xs, [o]);
    RevenueAppend(xs, ys);
  }

  /** The amount an order contributes to the revenue: its amount when completed, else nothing. */
  function RevenueShare(o: DatabaseOrder): real {
    if o.status == "completed" then o.amount else 0.0
  }

  /** The revenue of a single order is its share. */
  lemma RevenueSingle(o: DatabaseOrder)
    ensures Revenue([o]) == RevenueShare(o)
  {
    assert [o][1..] == [];
    if o.status == "completed" {
      assert OrdersWithStatus([o], "completed") == [o];
      assert [o][..0] == [];
      assert SumAmounts([o]) == SumAmounts([]) + o.amount;
    } else {
      assert OrdersWithStatus([o], "completed") == [];
    }
  }

  /** The revenue never goes below zero when no order has a negative amount. */
  lemma {:induction false} RevenueNonNegative(orders: seq<DatabaseOrder>)
    requires forall i :: 0 <= i < |orders| ==> orders[i].amount >= 0.0
    ensures Revenue(orders) >= 0.0
  {
    if orders != [] {
      var last := |orders| - 1;
      assert orders == orders[..last] + [orders[last]];
      RevenueNonNegative(orders[..last]);
      RevenueAppend(orders[..last], [orders[last]]);
      RevenueSingle(orders[last]);
    }
  }

  /** Revenue as every order's share, added up in list order. */
  function SumOfShares(orders: seq<DatabaseOrder>): real {
    if orders == [] then 0.0 else SumOfShares(orders[..|orders| - 1]) + RevenueShare(orders[|orders| - 1])
  }

  /** Filtering the completed orders and adding their amounts is adding every order's share. */
  lemma {:induction false} RevenueIsSumOfShares(orders: seq<DatabaseOrder>)
    ensures Revenue(orders) == SumOfShares(orders)
  {
    if orders != [] {
      var last := |orders| - 1;
      assert orders == orders[..last] + [orders[last]];
      RevenueIsSumOfShares(orders[..last]);
      RevenueAppend(orders[..last], [orders[last]]);
      RevenueSingle(orders[last]);
    }
  }

  // The status badge

  datatype BadgeVariant = Outline | Secondary | Default | Destructive
  datatype StatusIcon = Clock | Play | CheckCircle | AlertCircle
  datatype BadgeConfig = BadgeConfig(variant: BadgeVariant, icon: StatusIcon, color: string)
  datatype Badge = Badge(config: BadgeConfig, caption: string)

  /** The badge configuration table, one entry per status. */
  function ConfigFor(status: OrderStatus): BadgeConfig {
    match status
    case Pending => BadgeConfig(Outline, Clock, "text-yellow-600")
    case Processing => BadgeConfig(Secondary, Play, "text-blue-600")
    case Completed => BadgeConfig(Default, CheckCircle, "text-green-600")
    case Cancelled => BadgeConfig(Destructive, AlertCircle, "text-red-600")
  }

  /** `statusConfig[status] || statusConfig.pending`: a known status picks its entry, anything else the pending one. */
  function BadgeConfigOf(status: string): (c: BadgeConfig)
    ensures ParseStatus(status).Some? ==> c == ConfigFor(ParseStatus(status).value)
    ensures ParseStatus(status).None? ==> c == ConfigFor(Pending)
  {
    match ParseStatus(status)
    case Some(s) => ConfigFor(s)
    case None => ConfigFor(Pending)
  }

  /** `status.charAt(0).toUpperCase() + status.slice(1)`: the status with its first character raised. */
  function StatusLabel(status: string): (l: string)
    ensures |l| == |status|
    ensures status != [] ==> l[0] == UpperChar(status[0]) && l[1..] == status[1..]
  {
    if status == [] then [] else ToUpper(status[..1]) + status[1..]
  }

  /**
   * The badge shown for an order's status: a known status gets its own configuration and any
   * other string the pending one; the caption is the status with its first character raised.
   */
  function StatusBadge(status: string): (b: Badge)
    ensures ParseStatus(status).Some? ==> b.config == ConfigFor(ParseStatus(status).value)
    ensures ParseStatus(status).None? ==> b.config == ConfigFor(Pending)
    ensures |b.caption| == |status|
    ensures status != "" ==> b.caption[0] == UpperChar(status[0]) && b.caption[1..] == status[1..]
  {
    Badge(BadgeConfigOf(status), StatusLabel(status))
  }

  /** Each status has its own badge configuration; an unknown status string looks pending. */
  lemma BadgeConfigsDistinct(s: OrderStatus, t: OrderStatus, unknown: string)
    requires unknown !in {"pending", "processing", "completed", "cancelled"}
    ensures ConfigFor(s) == ConfigFor(t) <==> s == t
    ensures BadgeConfigOf(StatusName(s)) == ConfigFor(s)
    ensures BadgeConfigOf(unknown) == BadgeConfigOf("pending")
  {
    StatusNameRoundTrip(s, unknown);
  }

  lemma PendingLabel()
    ensures StatusLabel("pending") == "Pending"
  {
    assert "pending"[1..] == "ending";
  }

  lemma ProcessingLabel()
    ensures StatusLabel("processing") == "Processing"
  {
    assert "processing"[1..] == "rocessing";
  }

  lemma CompletedLabel()
    ensures StatusLabel("completed") == "Completed"
  {
    assert "completed"[1..] == "ompleted";
  }

  lemma CancelledLabel()
    ensures StatusLabel("cancelled") == "Cancelled"
  {
    assert "cancelled"[1..] == "ancelled";
  }

  /** The four badge labels: each status name with a capital first letter. */
  lemma StatusLabels(s: OrderStatus)
    ensures StatusLabel(StatusName(s)) == match s
      case Pending => "Pending"
      case Processing => "Processing"
      case Completed => "Completed"
      case Cancelled => "Cancelled"
  {
    match s
    case Pending => PendingLabel();
    case Processing => ProcessingLabel();
    case Completed => CompletedLabel();
    case Cancelled => CancelledLabel();
  }

  // The status buttons

  /**
   * The "Start Processing" guard on a status string: the row button is shown when the list's
   * order is pending, the dialog's button enabled when the dialog's copy is.
   */
  predicate StartProcessingOffered(status: string) {
    status == "pending"
  }

  /**
   * The "Mark Complete" guard on a status string: the row button is shown, and the dialog's
   * button enabled, for an order (as each of them holds it) not yet completed.
   */
  predicate MarkCompleteOffered(status: string) {
    status != "completed"
  }

  /**
   * On the four statuses: processing can be started only from pending, and completion is
   * offered from every status but completed, cancelled included. No other transition is checked.
   */
  lemma StatusActions(s: OrderStatus)
    ensures StartProcessingOffered(StatusName(s)) <==> s == Pending
    ensures MarkCompleteOffered(StatusName(s)) <==> s != Completed
    ensures MarkCompleteOffered(StatusName(Cancelled)) && !StartProcessingOffered(StatusName(Cancelled))
  {
  }

  /** A cancelled order whose completion the database accepts is completed in the list afterwards. */
  lemma CancelledOrderCanBeCompleted(orders: seq<DatabaseOrder>, i: int)
    requires 0 <= i < |orders| && orders[i].status == StatusName(Cancelled)
    ensures MarkCompleteOffered(orders[i].status)
    ensures WithStatus(orders, orders[i].id, StatusName(Completed))[i].status == "completed"
  {
  }

  /**
   * The dialog's stale copy: open the dialog of a pending order, complete it from there. The
   * list now shows it completed, yet the dialog's copy is still pending, so "Start Processing"
   * stays enabled, and using it moves the completed order back to processing.
   */
  lemma StaleDialogReopensCompleted(orders: seq<DatabaseOrder>, i: int)
    requires 0 <= i < |orders| && orders[i].status == StatusName(Pending)
    ensures var snapshot := orders[i];
            var completed := WithStatus(orders, snapshot.id, StatusName(Completed));
            && completed[i].status == "completed"
            && !StartProcessingOffered(completed[i].status)
            && StartProcessingOffered(snapshot.status)
            && WithStatus(completed, snapshot.id, StatusName(Processing))[i].status == "processing"
  {
  }

  /**
   * The same session on the page's state: load the orders, open the dialog of pending row `i`
   * and complete its order with the database accepting. The row then shows the order completed
   * while the dialog still enables "Start Processing"; pressing it, with the database accepting
   * again, shows the order processing.
   */
  method StaleDialogSession(loaded: seq<DatabaseOrder>, i: int)
    returns (shownAfterComplete: string, dialogOffersStart: bool, shownAfterStart: string)
    requires 0 <= i < |loaded| && loaded[i].status == StatusName(Pending)
    ensures shownAfterComplete == "completed"
    ensures dialogOffersStart
    ensures shownAfterStart == "processing"
  {
    var console := new AdminConsole(loaded);
    console.SelectOrder(i);
    var completed := console.UpdateOrderStatus(loaded[i].id, Completed, None);
    shownAfterComplete := console.orders[i].status;
    dialogOffersStart := console.DialogStartProcessingEnabled();
    var started := console.UpdateOrderStatus(console.selectedOrder.value.id, Processing, None);
    shownAfterStart := console.orders[i].status;
  }
}
