/**
 * The admin panel's rules: the order list it starts from, the customer list,
 * the stock notifications, the dashboard figures, the status change, the
 * stock column and the product editor's fields. The best-seller list is in
 * the Sales module.
 */
module Admin {
  import opened Wrappers
  import opened Text
  import opened Types
  import opened Seqs
  import Sales

  const LowStockThreshold: int := 10

  // ---------------------------------------------------------------------------
  // The initial order list

  /** No two orders share an id. */
  predicate UniqueOrderIds(os: seq<Order>) {
    forall i, j :: 0 <= i < j < |os| ==> os[i].id != os[j].id
  }

  /** Some order has the id. */
  predicate HasOrderId(os: seq<Order>, id: string) {
    exists k :: 0 <= k < |os| && os[k].id == id
  }

  /** `index === self.findIndex(o => o.id === order.id)`: no earlier order has this one's id. */
  predicate IsFirstOfId(os: seq<Order>, i: nat)
    requires i < |os|
  {
    forall j :: 0 <= j < i ==> os[j].id != os[i].id
  }

  /**
   * The orders whose id did not occur earlier in the list: one order per id,
   * each taken from the list, every first occurrence kept and no id lost.
   */
  function FirstById(os: seq<Order>): (r: seq<Order>)
    ensures UniqueOrderIds(r)
    ensures forall k :: 0 <= k < |r| ==> r[k] in os
    ensures forall i :: 0 <= i < |os| && IsFirstOfId(os, i) ==> os[i] in r
    ensures forall i :: 0 <= i < |os| ==> HasOrderId(r, os[i].id)
  {
    if os == [] then []
    else
      var r := FirstById(os[..|os| - 1]);
      FirstByIdStep(os, r);
      if IsFirstOfId(os, |os| - 1) then r + [os[|os| - 1]] else r
  }

  /** The kept orders appear in the list's order, as `filter` keeps them. */
  lemma {:induction false} FirstByIdInOrder(os: seq<Order>)
    ensures IsSubsequence(FirstById(os), os)
  {
    if os != [] {
      var init := os[..|os| - 1];
      FirstByIdInOrder(init);
      SubsequenceSnoc(FirstById(init), init, os[|os| - 1]);
      assert init + [os[|os| - 1]] == os;
    }
  }

  /** What `FirstById` promises of `r`, for the orders `os`. */
  predicate FirstByIdOf(os: seq<Order>, r: seq<Order>) {
    && UniqueOrderIds(r)
    && (forall k :: 0 <= k < |r| ==> r[k] in os)
    && (forall i :: 0 <= i < |os| && IsFirstOfId(os, i) ==> os[i] in r)
    && (forall i :: 0 <= i < |os| ==> HasOrderId(r, os[i].id))
  }

  /** One more order: it is appended exactly when its id is new. */
  lemma FirstByIdStep(os: seq<Order>, r: seq<Order>)
    requires os != [] && FirstByIdOf(os[..|os| - 1], r)
    ensures FirstByIdOf(os, if IsFirstOfId(os, |os| - 1) then r + [os[|os| - 1]] else r)
  {
    if IsFirstOfId(os, |os| - 1) {
      AppendNewId(os, r);
    } else {
      SkipKnownId(os, r);
    }
  }

  lemma AppendNewId(os: seq<Order>, r: seq<Order>)
    requires os != [] && FirstByIdOf(os[..|os| - 1], r)
    requires IsFirstOfId(os, |os| - 1)
    ensures FirstByIdOf(os, r + [os[|os| - 1]])
  {
    var init := os[..|os| - 1];
    var last := os[|os| - 1];
    assert os == init + [last];
    NewIdKeepsUnique(init, last, r);
    NewIdCovers(init, last, r);
  }

  /** Appending an order whose id no earlier order has keeps ids distinct and orders taken from the list. */
  lemma NewIdKeepsUnique(init: seq<Order>, last: Order, r: seq<Order>)
    requires FirstByIdOf(init, r)
    requires forall j :: 0 <= j < |init| ==> init[j].id != last.id
    ensures UniqueOrderIds(r + [last])
    ensures forall k :: 0 <= k < |r| + 1 ==> (r + [last])[k] in init + [last]
  {
    forall k | 0 <= k < |r| ensures r[k].id != last.id {
      var j :| 0 <= j < |init| && init[j] == r[k];
    }
  }

  /** After appending, every first occurrence is kept and every id is present. */
  lemma NewIdCovers(init: seq<Order>, last: Order, r: seq<Order>)
    requires FirstByIdOf(init, r)
    requires forall j :: 0 <= j < |init| ==> init[j].id != last.id
    ensures forall i :: 0 <= i < |init| + 1 && IsFirstOfId(init + [last], i) ==> (init + [last])[i] in r + [last]
    ensures forall i :: 0 <= i < |init| + 1 ==> HasOrderId(r + [last], (init + [last])[i].id)
  {
    var os := init + [last];
    var r' := r + [last];
    forall i | 0 <= i < |os| && IsFirstOfId(os, i) ensures os[i] in r' {
      if i < |init| {
        forall j | 0 <= j < i ensures init[j].id != init[i].id {
          assert os[j] == init[j] && os[i] == init[i];
        }
        assert init[i] in r;
      }
    }
    forall i | 0 <= i < |os| ensures HasOrderId(r', os[i].id) {
      if i < |init| {
        assert os[i] == init[i];
        var k :| 0 <= k < |r| && r[k].id == init[i].id;
        assert r'[k] == r[k];
      } else {
        assert r'[|r|] == last;
      }
    }
  }

  lemma SkipKnownId(os: seq<Order>, r: seq<Order>)
    requires os != [] && FirstByIdOf(os[..|os| - 1], r)
    requires !IsFirstOfId(os, |os| - 1)
    ensures FirstByIdOf(os, r)
  {
    var init := os[..|os| - 1];
    forall k | 0 <= k < |r| ensures r[k] in os {
      var j :| 0 <= j < |init| && init[j] == r[k];
      assert os[j] == init[j];
    }
    forall i | 0 <= i < |os| && IsFirstOfId(os, i) ensures os[i] in r {
      assert i < |init|;
      assert os[i] == init[i];
      assert IsFirstOfId(init, i);
    }
    forall i | 0 <= i < |os| ensures HasOrderId(r, os[i].id) {
      if i < |init| {
        assert os[i] == init[i];
      } else {
        var j :| 0 <= j < |os| - 1 && os[j].id == os[i].id;
        assert os[j] == init[j];
      }
    }
  }

  /** The panel's built-in orders: none. */
  const MockOrders: seq<Order> := []

  /** The order list the panel starts from: the built-in orders, then the signed-in user's, without repeated ids. */
  function InitialOrders(user: Option<User>): (r: seq<Order>)
    ensures UniqueOrderIds(r)
    ensures forall k :: 0 <= k < |r| ==> user.Some? && r[k] in OrdersOf(user.value)
    ensures user.Some? ==> forall i :: 0 <= i < |OrdersOf(user.value)| ==> HasOrderId(r, OrdersOf(user.value)[i].id)
    ensures user.Some? ==> forall i :: 0 <= i < |OrdersOf(user.value)| && IsFirstOfId(OrdersOf(user.value), i) ==>
      OrdersOf(user.value)[i] in r
    ensures user.Some? ==> IsSubsequence(r, OrdersOf(user.value))
    ensures user.None? ==> r == []
  {
    var userOrders := if user.Some? then OrdersOf(user.value) else [];
    assert MockOrders + userOrders == userOrders;
    FirstByIdInOrder(userOrders);
    FirstById(MockOrders + userOrders)
  }

  /** A user history in which every id is new comes through unchanged. */
  lemma {:induction false} FirstByIdOfUnique(os: seq<Order>)
    requires UniqueOrderIds(os)
    ensures FirstById(os) == os
  {
    if os != [] {
      var init := os[..|os| - 1];
      forall i, j | 0 <= i < j < |init| ensures init[i].id != init[j].id {
        assert init[i] == os[i] && init[j] == os[j];
      }
      FirstByIdOfUnique(init);
      assert IsFirstOfId(os, |os| - 1);
      assert os == init + [os[|os| - 1]];
    }
  }

  // ---------------------------------------------------------------------------
  // Customers

  /** The panel's four sample customers (their `totalSpent` figures are not modelled). */
  const MockCustomers: seq<User> := [
    User("Carlos Vega", "carlos.v@example.com",
         Some("https://ui-avatars.com/api/?name=Carlos+V&background=8e44ad&color=FFFFFF"), None, Some([])),
    User("Ana Garcia", "ana.g@example.com",
         Some("https://ui-avatars.com/api/?name=Ana+G&background=3498db&color=FFFFFF"), None, Some([])),
    User("Martín Rojas", "martin.r@example.com",
         Some("https://ui-avatars.com/api/?name=Martin+R&background=2980b9&color=FFFFFF"), None, Some([])),
    User("Lucía Fernández", "lucia.f@example.com",
         Some("https://ui-avatars.com/api/?name=Lucia+F&background=e74c3c&color=FFFFFF"), None, Some([]))
  ]

  /** The signed-in user first, then the sample customers. */
  function Customers(user: Option<User>): (r: seq<User>)
    ensures user.None? ==> r == MockCustomers && |r| == 4
    ensures user.Some? ==> |r| == 5 && r[0] == user.value && r[1..] == MockCustomers
  {
    if user.Some? then [user.value] + MockCustomers else MockCustomers
  }

  // ---------------------------------------------------------------------------
  // Stock notifications and the stock column

  predicate IsLowStock(p: Product) {
    0 < p.stock <= LowStockThreshold
  }

  predicate IsOutOfStock(p: Product) {
    p.stock == 0
  }

  function LowStockProducts(ps: seq<Product>): seq<Product> {
    Filter(ps, IsLowStock)
  }

  function OutOfStockProducts(ps: seq<Product>): seq<Product> {
    Filter(ps, IsOutOfStock)
  }

  datatype NoticeKind = OrderNotice | UserNotice | StockLow | StockOut

  datatype Notice = Notice(id: int, kind: NoticeKind, message: string, time: string, read: bool)

  function LowStockMessage(p: Product): string {
    "El producto \"" + p.name + "\" tiene solo " + IntToString(p.stock) + " unidades restantes."
  }

  function OutOfStockMessage(p: Product): string {
    "El producto \"" + p.name + "\" se ha quedado sin stock."
  }

  /** The notices the panel ships with. */
  const FixedNotices: seq<Notice> := [
    Notice(1, OrderNotice, "Nuevo pedido #A87FF2 recibido de Ana Garcia.", "hace 5 minutos", false),
    Notice(3, UserNotice, "Nuevo usuario registrado: Lucía Fernández.", "hace 3 horas", true),
    Notice(4, OrderNotice, "El pedido #C34B1A ha sido marcado como \"Enviado\".", "ayer", true)
  ]

  /** One unread notice per low-stock product, numbered from 100. */
  function LowStockNotices(ps: seq<Product>): (r: seq<Notice>)
    ensures |r| == |LowStockProducts(ps)|
    ensures forall i :: 0 <= i < |r| ==>
      r[i] == Notice(100 + i, StockLow, LowStockMessage(LowStockProducts(ps)[i]), "justo ahora", false)
  {
    var low := LowStockProducts(ps);
    seq(|low|, i requires 0 <= i < |low| => Notice(100 + i, StockLow, LowStockMessage(low[i]), "justo ahora", false))
  }

  /** One unread notice per product out of stock, numbered from 200. */
  function OutOfStockNotices(ps: seq<Product>): (r: seq<Notice>)
    ensures |r| == |OutOfStockProducts(ps)|
    ensures forall i :: 0 <= i < |r| ==>
      r[i] == Notice(200 + i, StockOut, OutOfStockMessage(OutOfStockProducts(ps)[i]), "hace 1 hora", false)
  {
    var out := OutOfStockProducts(ps);
    seq(|out|, i requires 0 <= i < |out| => Notice(200 + i, StockOut, OutOfStockMessage(out[i]), "hace 1 hora", false))
  }

  /** The notices the panel starts with: low stock, then out of stock, then the fixed ones. */
  function InitialNotices(ps: seq<Product>): (r: seq<Notice>)
    ensures |r| == |LowStockProducts(ps)| + |OutOfStockProducts(ps)| + 3
    ensures r[|r| - 3..] == FixedNotices
    ensures forall i :: 0 <= i < |r| - 3 ==> (r[i].kind == StockLow || r[i].kind == StockOut) && !r[i].read
    ensures forall i, j :: 0 <= i < j < |r| - 3 && r[j].kind == StockLow ==> r[i].kind == StockLow
  {
    var low, out := LowStockNotices(ps), OutOfStockNotices(ps);
    StockNoticeKinds(ps);
    NoticesLayout(low, out, FixedNotices);
    low + out + FixedNotices
  }

  /** Every low-stock notice is of the low-stock kind and every out-of-stock one of its kind, none read. */
  lemma StockNoticeKinds(ps: seq<Product>)
    ensures forall i :: 0 <= i < |LowStockNotices(ps)| ==> LowStockNotices(ps)[i].kind == StockLow && !LowStockNotices(ps)[i].read
    ensures forall i :: 0 <= i < |OutOfStockNotices(ps)| ==> OutOfStockNotices(ps)[i].kind == StockOut && !OutOfStockNotices(ps)[i].read
  {
  }

  /** Low-stock notices, then out-of-stock ones, then three others: the kinds come in that order. */
  lemma NoticesLayout(low: seq<Notice>, out: seq<Notice>, fixed: seq<Notice>)
    requires |fixed| == 3
    requires forall i :: 0 <= i < |low| ==> low[i].kind == StockLow && !low[i].read
    requires forall i :: 0 <= i < |out| ==> out[i].kind == StockOut && !out[i].read
    ensures var r := low + out + fixed;
      && |r| == |low| + |out| + 3
      && r[|r| - 3..] == fixed
      && (forall i :: 0 <= i < |r| - 3 ==> (r[i].kind == StockLow || r[i].kind == StockOut) && !r[i].read)
      && (forall i, j :: 0 <= i < j < |r| - 3 && r[j].kind == StockLow ==> r[i].kind == StockLow)
  {
    var r := low + out + fixed;
    assert forall i :: 0 <= i < |low| ==> r[i] == low[i];
    assert forall i :: |low| <= i < |low| + |out| ==> r[i] == out[i - |low|];
    assert r[|r| - 3..] == fixed;
  }

  /**
   * The stock notices cover the catalog: every product with 1 to 10 units
   * has a low-stock notice and every product with none has an out-of-stock
   * notice; every stock notice names such a product.
   */
  lemma StockNoticesCover(ps: seq<Product>, p: Product)
    requires p in ps
    ensures IsLowStock(p) ==> exists i :: 0 <= i < |LowStockNotices(ps)| && LowStockNotices(ps)[i].message == LowStockMessage(p)
    ensures IsOutOfStock(p) ==> exists i :: 0 <= i < |OutOfStockNotices(ps)| && OutOfStockNotices(ps)[i].message == OutOfStockMessage(p)
    ensures forall i :: 0 <= i < |LowStockNotices(ps)| ==> IsLowStock(LowStockProducts(ps)[i]) && LowStockProducts(ps)[i] in ps
    ensures forall i :: 0 <= i < |OutOfStockNotices(ps)| ==> IsOutOfStock(OutOfStockProducts(ps)[i]) && OutOfStockProducts(ps)[i] in ps
  {
    if IsLowStock(p) {
      var low := LowStockProducts(ps);
      var k :| 0 <= k < |low| && low[k] == p;
      assert LowStockNotices(ps)[k].message == LowStockMessage(p);
    }
    if IsOutOfStock(p) {
      var out := OutOfStockProducts(ps);
      var k :| 0 <= k < |out| && out[k] == p;
      assert OutOfStockNotices(ps)[k].message == OutOfStockMessage(p);
    }
  }

  /** Notice ids are all different as long as at most a hundred products run low. */
  lemma NoticeIdsDistinct(ps: seq<Product>)
    requires |LowStockProducts(ps)| <= 100
    ensures forall i, j :: 0 <= i < j < |InitialNotices(ps)| ==> InitialNotices(ps)[i].id != InitialNotices(ps)[j].id
  {
    forall i, j | 0 <= i < j < |InitialNotices(ps)| ensures InitialNotices(ps)[i].id != InitialNotices(ps)[j].id {
      NoticeIdAt(ps, i);
      NoticeIdAt(ps, j);
    }
  }

  /** The id at each position: 100 + i among the low-stock notices, 200 + i among the out-of-stock ones, below 100 after them. */
  lemma NoticeIdAt(ps: seq<Product>, i: nat)
    requires i < |InitialNotices(ps)|
    ensures var low, out := |LowStockProducts(ps)|, |OutOfStockProducts(ps)|;
            && (i < low ==> InitialNotices(ps)[i].id == 100 + i)
            && (low <= i < low + out ==> InitialNotices(ps)[i].id == 200 + i - low)
            && (low + out <= i ==> 0 < InitialNotices(ps)[i].id < 100)
  {
    var low := LowStockNotices(ps);
    var out := OutOfStockNotices(ps);
    var all := InitialNotices(ps);
    if i < |low| {
      assert all[i] == low[i];
    } else if i < |low| + |out| {
      assert all[i] == out[i - |low|];
    } else {
      assert all[i] == FixedNotices[i - |low| - |out|];
    }
  }

  /** With more than a hundred low-stock products, the 101st shares id 200 with the first out-of-stock notice. */
  lemma NoticeIdsClash(ps: seq<Product>)
    requires |LowStockProducts(ps)| > 100 && |OutOfStockProducts(ps)| > 0
    ensures LowStockNotices(ps)[100].id == OutOfStockNotices(ps)[0].id == 200
  {
  }

  /** The stock column: colour and text. */
  datatype StockBadge = StockBadge(color: string, text: string)

  /** More than 10 green, 1 to 10 yellow, otherwise red; the count itself, or "Sin Stock" when none is left. */
  function StockBadgeOf(stock: int): (b: StockBadge)
    ensures stock > LowStockThreshold ==> b.color == "text-green-400"
    ensures 0 < stock <= LowStockThreshold ==> b.color == "text-yellow-400"
    ensures stock <= 0 ==> b == StockBadge("text-red-500", "Sin Stock")
    ensures stock > 0 ==> b.text == IntToString(stock)
  {
    var color := if stock > LowStockThreshold then "text-green-400" else if stock > 0 then "text-yellow-400" else "text-red-500";
    StockBadge(color, if stock > 0 then IntToString(stock) else "Sin Stock")
  }

  /**
   * The column agrees with the notices: yellow exactly for low stock; red
   * for no stock, and also for a negative count, which gets no notice.
   */
  lemma BadgeMatchesNotices(p: Product)
    ensures StockBadgeOf(p.stock).color == "text-yellow-400" <==> IsLowStock(p)
    ensures StockBadgeOf(p.stock).color == "text-red-500" <==> p.stock <= 0
    ensures p.stock < 0 ==> StockBadgeOf(p.stock).text == "Sin Stock" && !IsOutOfStock(p) && !IsLowStock(p)
  {
  }

  // ---------------------------------------------------------------------------
  // Dashboard figures

  predicate NotCancelled(o: Order) {
    o.status != Cancelled
  }

  function ValidOrders(os: seq<Order>): seq<Order> {
    Filter(os, NotCancelled)
  }

  function SumTotals(os: seq<Order>): real {
    if os == [] then 0.0 else os[0].total + SumTotals(os[1..])
  }

  /** `reduce((sum, order) => sum + order.total, 0)` over the orders that are not cancelled. */
  function Revenue(os: seq<Order>): real {
    SumTotals(ValidOrders(os))
  }

  lemma {:induction false} SumTotalsAppend(a: seq<Order>, b: seq<Order>)
    ensures SumTotals(a + b) == SumTotals(a) + SumTotals(b)
  {
    if a == [] {
      assert a + b == b;
    } else {
      assert (a + b)[0] == a[0];
      assert (a + b)[1..] == a[1..] + b;
      SumTotalsAppend(a[1..], b);
    }
  }

  /** Revenue adds up over consecutive parts of the list. */
  lemma RevenueAppend(a: seq<Order>, b: seq<Order>)
    ensures Revenue(a + b) == Revenue(a) + Revenue(b)
  {
    FilterAppend(a, b, NotCancelled);
    SumTotalsAppend(ValidOrders(a), ValidOrders(b));
  }

  datatype Stats = Stats(totalRevenue: real, totalOrders: nat, totalCustomers: nat, outOfStock: nat)

  /** The dashboard cards: revenue without cancelled orders, but every order counted. */
  function StatsOf(os: seq<Order>, ps: seq<Product>, customers: seq<User>): (s: Stats)
    ensures s.totalRevenue == Revenue(os) && s.totalOrders == |os|
    ensures s.totalCustomers == |customers| && s.outOfStock == |OutOfStockProducts(ps)|
  {
    Stats(Revenue(os), |os|, |customers|, |OutOfStockProducts(ps)|)
  }

  /** The average ticket: revenue over the orders that are not cancelled, or 0 when there are none. */
  function AverageTicket(os: seq<Order>): (avg: real)
    ensures |ValidOrders(os)| == 0 ==> avg == 0.0
    ensures |ValidOrders(os)| > 0 ==> avg * (|ValidOrders(os)| as real) == Revenue(os)
  {
    var n := |ValidOrders(os)|;
    if n > 0 then
      QuotientTimesDivisor(Revenue(os), n as real);
      Revenue(os) / (n as real)
    else 0.0
  }

  lemma QuotientTimesDivisor(a: real, d: real)
    requires d != 0.0
    ensures (a / d) * d == a
  {
  }

  /** With only cancelled orders there is no revenue and the average ticket is 0. */
  lemma AllCancelled(os: seq<Order>)
    requires forall i :: 0 <= i < |os| ==> os[i].status == Cancelled
    ensures ValidOrders(os) == [] && Revenue(os) == 0.0 && AverageTicket(os) == 0.0
  {
  }

  /** The dashboard's recent orders: the first five of the list. */
  function RecentOrders(os: seq<Order>): (r: seq<Order>)
    ensures |r| == Sales.Min(5, |os|) && r == os[..|r|]
  {
    os[..Sales.Min(5, |os|)]
  }

  /** The badge class of a status. Processing has none: the dashboard's badge class reads "undefined", and the orders tab's `.replace` on it throws. */
  function StatusColor(s: OrderStatus): (c: Option<string>)
    ensures c.Some? <==> IsClientStatus(s)
  {
    match s
    case Pending => Some("bg-yellow-500/20 text-yellow-400 border-yellow-500/30")
    case Shipped => Some("bg-blue-500/20 text-blue-400 border-blue-500/30")
    case Delivered => Some("bg-green-500/20 text-green-400 border-green-500/30")
    case Cancelled => Some("bg-red-500/20 text-red-400 border-red-500/30")
    case Processing => None
  }

  // ---------------------------------------------------------------------------
  // Status change

  /** `orders.map(o => o.id === orderId ? { ...o, status } : o)` */
  function ChangeStatus(os: seq<Order>, id: string, s: OrderStatus): (r: seq<Order>)
    ensures |r| == |os|
    ensures forall i :: 0 <= i < |os| && os[i].id == id ==> r[i] == os[i].(status := s)
    ensures forall i :: 0 <= i < |os| && os[i].id != id ==> r[i] == os[i]
  {
    seq(|os|, i requires 0 <= i < |os| => if os[i].id == id then os[i].(status := s) else os[i])
  }

  /** A status change keeps every id where it was, so the list keeps its distinct ids. */
  lemma ChangeStatusKeepsIds(os: seq<Order>, id: string, s: OrderStatus)
    ensures forall i :: 0 <= i < |os| ==> ChangeStatus(os, id, s)[i].id == os[i].id
    ensures UniqueOrderIds(os) ==> UniqueOrderIds(ChangeStatus(os, id, s))
  {
  }

  /** An id no order has changes nothing. */
  lemma ChangeStatusAbsent(os: seq<Order>, id: string, s: OrderStatus)
    requires !HasOrderId(os, id)
    ensures ChangeStatus(os, id, s) == os
  {
  }

  /**
   * With distinct ids, cancelling an order that was not cancelled lowers the
   * revenue by exactly its total and leaves the order count as it was.
   */
  lemma CancelLowersRevenue(os: seq<Order>, k: nat)
    requires UniqueOrderIds(os) && k < |os| && os[k].status != Cancelled
    ensures Revenue(ChangeStatus(os, os[k].id, Cancelled)) == Revenue(os) - os[k].total
    ensures |ChangeStatus(os, os[k].id, Cancelled)| == |os|
  {
    var id := os[k].id;
    var r := ChangeStatus(os, id, Cancelled);
    var pre, post := os[..k], os[k + 1..];
    assert os == pre + [os[k]] + post;
    ChangeStatusAround(pre, os[k], post, Cancelled);
    ChangeStatusAbsent(pre, id, Cancelled);
    ChangeStatusAbsent(post, id, Cancelled);
    RevenueAround(pre, os[k], post);
    RevenueAround(pre, os[k].(status := Cancelled), post);
    assert Revenue([os[k]]) == os[k].total;
    assert Revenue([os[k].(status := Cancelled)]) == 0.0;
  }

  /** A status change applies to each part of a list split around an order with the id. */
  lemma ChangeStatusAround(pre: seq<Order>, o: Order, post: seq<Order>, s: OrderStatus)
    ensures ChangeStatus(pre + [o] + post, o.id, s) ==
      ChangeStatus(pre, o.id, s) + [o.(status := s)] + ChangeStatus(post, o.id, s)
  {
  }

  /** The revenue of a list split around one order. */
  lemma RevenueAround(pre: seq<Order>, o: Order, post: seq<Order>)
    ensures Revenue(pre + [o] + post) == Revenue(pre) + Revenue([o]) + Revenue(post)
  {
    RevenueAppend(pre + [o], post);
    RevenueAppend(pre, [o]);
  }

  // ---------------------------------------------------------------------------
  // The product editor

  /** `parseInt(value) || 0`: the number typed, or 0 when it does not read as one. */
  function StockFieldValue(value: string): (n: int)
    ensures ParseInt(value).Some? ==> n == ParseInt(value).value
    ensures ParseInt(value).None? ==> n == 0
  {
    match ParseInt(value)
    case Some(v) => v
    case None => 0
  }

  /** A stock typed in decimal is read back as that stock. */
  lemma StockFieldRoundTrip(n: int)
    ensures StockFieldValue(IntToString(n)) == n
  {
    ParseIntOfIntToString(n);
  }

  /** The editor's inputs, named as in the form. */
  datatype FormField = NameField | CategoryField | PriceField | StockField | DescriptionField

  /** `handleChange`: the stock field is parsed, every other field is stored as typed. */
  function ApplyFormEdit(p: Product, field: FormField, value: string): (r: Product)
    ensures field == StockField ==> r == p.(stock := StockFieldValue(value))
    ensures field == NameField ==> r == p.(name := value)
    ensures field == CategoryField ==> r == p.(category := value)
    ensures field == PriceField ==> r == p.(price := value)
    ensures field == DescriptionField ==> r == p.(description := value)
    ensures r.id == p.id && r.imageUrl == p.imageUrl && r.features == p.features && r.reviews == p.reviews
  {
    match field
    case NameField => p.(name := value)
    case CategoryField => p.(category := value)
    case PriceField => p.(price := value)
    case StockField => p.(stock := StockFieldValue(value))
    case DescriptionField => p.(description := value)
  }

  // ---------------------------------------------------------------------------
  // The panel's tabs and the hooks each render calls

  datatype AdminView = DashboardView | ProductsView | OrdersView | CustomersView | SalesView | NotificationsView | SettingsView

  /** Hooks every render of the panel calls: the auth context, five states and the stats memo. */
  const PanelHooks: nat := 7

  /** As written, the sales case of `renderView` calls one more memo, inside the render. */
  function HooksAsWritten(v: AdminView): nat {
    if v == SalesView then PanelHooks + 1 else PanelHooks
  }

  /** With the best-seller memo called at the top of the panel, every render calls the same hooks. */
  function HooksCorrected(v: AdminView): nat {
    PanelHooks + 1
  }

  /**
   * React's rule for a component's renders: each one must call as many
   * hooks as the one before, or the render throws. True when the views in
   * `views`, shown one after another after `prev`, all render.
   */
  predicate RendersAll(hooks: AdminView -> nat, prev: AdminView, views: seq<AdminView>)
    decreases |views|
  {
    views == [] || (hooks(views[0]) == hooks(prev) && RendersAll(hooks, views[0], views[1..]))
  }

  /** As written, a sequence of tabs opened from any tab but sales renders exactly when it never opens sales. */
  lemma {:induction false} RendersAllAsWritten(prev: AdminView, views: seq<AdminView>)
    requires prev != SalesView
    ensures RendersAll(HooksAsWritten, prev, views) <==> SalesView !in views
    decreases |views|
  {
    if views != [] {
      assert views == [views[0]] + views[1..];
      if views[0] != SalesView {
        RendersAllAsWritten(views[0], views[1..]);
      }
    }
  }

  /** The panel mounts on the dashboard, so opening the sales tab makes its render throw. */
  lemma SalesTabThrowsAsWritten()
    ensures !RendersAll(HooksAsWritten, DashboardView, [SalesView])
  {
    RendersAllAsWritten(DashboardView, [SalesView]);
  }

  /** With the memo hoisted, every sequence of tabs renders. */
  lemma {:induction false} RendersAllCorrected(prev: AdminView, views: seq<AdminView>)
    ensures RendersAll(HooksCorrected, prev, views)
    decreases |views|
  {
    if views != [] {
      RendersAllCorrected(views[0], views[1..]);
    }
  }

  // ---------------------------------------------------------------------------
  // The panel's state

  /** The panel's order list, customers and notices. */
  class AdminPanel {
    var orders: seq<Order>
    var customers: seq<User>
    var notices: seq<Notice>

    constructor(user: Option<User>, products: seq<Product>)
      ensures orders == InitialOrders(user) && customers == Customers(user) && notices == InitialNotices(products)
    {
      orders := InitialOrders(user);
      customers := Customers(user);
      notices := InitialNotices(products);
    }

    /** `handleOrderStatusChange` */
    method ChangeOrderStatus(id: string, s: OrderStatus)
      modifies this
      ensures orders == ChangeStatus(old(orders), id, s)
      ensures customers == old(customers) && notices == old(notices)
    {
      orders := ChangeStatus(orders, id, s);
    }

    /** The sales tab's best sellers over the current orders. */
    method TopSellers() returns (top: seq<Sales.Tally>)
      ensures top == Sales.TopFive(Sales.TallyOrders(orders))
      ensures |top| <= 5 && Sales.SortedByCount(top)
      ensures forall k :: 0 <= k < |top| ==> top[k].count == Sales.Sold(orders, top[k].product.name)
      ensures forall k :: 0 <= k < |top| ==> Sales.SoldSome(orders, top[k].product.name)
    {
      top := Sales.TopSellingProducts(orders);
    }
  }
}
