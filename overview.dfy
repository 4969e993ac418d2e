/** The dashboard home page (app/dashboard/page.tsx): revenue and pending-order
    KPIs over the store's orders (newest first), the five most recent orders,
    and how an order's id and status are displayed. */
module Overview {
  import opened Common
  import opened Orders

  /** `orders || []`: a null result is no orders. */
  function AllOrders(orders: Option<seq<Order>>): (s: seq<Order>)
    ensures orders.None? ==> s == []
    ensures orders.Some? ==> s == orders.value
  {
    if orders.Some? then orders.value else []
  }

  /** Statuses whose amounts count as revenue. */
  predicate IsRevenue(status: OrderStatus)
  {
    status in {Paid, Shipped}
  }

  /** `filter(['paid', 'shipped'].includes(o.status)).reduce(+ total_amount)`:
      exactly the paid plus the shipped amounts. */
  function TotalRevenue(s: seq<Order>): (r: int)
    ensures r == SumOfStatus(s, Paid) + SumOfStatus(s, Shipped)
  {
    if s == [] then 0
    else (if IsRevenue(s[0].status) then s[0].totalAmount else 0) + TotalRevenue(s[1..])
  }

  /** The sum of the amounts of the orders with status `st`: an independent
      per-status reference for the revenue figure. */
  function SumOfStatus(s: seq<Order>, st: OrderStatus): int
  {
    if s == [] then 0
    else (if s[0].status == st then s[0].totalAmount else 0) + SumOfStatus(s[1..], st)
  }

  /** The sum of every order's amount. */
  function SumAll(s: seq<Order>): int
  {
    if s == [] then 0 else s[0].totalAmount + SumAll(s[1..])
  }

  /** Revenue, pending and cancelled amounts together make up the whole of
      the orders' value. */
  lemma {:induction false} RevenueByStatus(s: seq<Order>)
    ensures SumAll(s) == TotalRevenue(s) + SumOfStatus(s, Pending) + SumOfStatus(s, Cancelled)
  {
    if s != [] {
      RevenueByStatus(s[1..]);
    }
  }

  /** Revenue of a concatenation is the sum of the revenues. */
  lemma {:induction false} RevenueAppend(a: seq<Order>, b: seq<Order>)
    ensures TotalRevenue(a + b) == TotalRevenue(a) + TotalRevenue(b)
  {
    if a != [] {
      assert (a + b)[1..] == a[1..] + b;
      RevenueAppend(a[1..], b);
    } else {
      assert a + b == b;
    }
  }

  /** The order statuses, in order. */
  function Statuses(s: seq<Order>): (st: seq<OrderStatus>)
    ensures |st| == |s|
    ensures forall i :: 0 <= i < |s| ==> st[i] == s[i].status
  {
    seq(|s|, i requires 0 <= i < |s| => s[i].status)
  }

  /** `filter(o => o.status === 'pending').length`: the number of pending orders. */
  function ActiveOrdersCount(s: seq<Order>): (n: nat)
    ensures n == multiset(Statuses(s))[Pending]
  {
    if s == [] then 0
    else
      assert Statuses(s) == [s[0].status] + Statuses(s[1..]);
      (if s[0].status == Pending then 1 else 0) + ActiveOrdersCount(s[1..])
  }

  /** The count is 0 exactly when no order is pending, and |s| exactly when
      every order is. */
  lemma {:induction false} ActiveOrdersExtremes(s: seq<Order>)
    ensures ActiveOrdersCount(s) <= |s|
    ensures ActiveOrdersCount(s) == 0 <==> forall i :: 0 <= i < |s| ==> s[i].status != Pending
    ensures ActiveOrdersCount(s) == |s| <==> forall i :: 0 <= i < |s| ==> s[i].status == Pending
  {
    if s != [] {
      var rest := s[1..];
      ActiveOrdersExtremes(rest);
      assert ActiveOrdersCount(s) == (if s[0].status == Pending then 1 else 0) + ActiveOrdersCount(rest);
      assert forall i :: 1 <= i < |s| ==> s[i] == rest[i - 1];
      assert (forall i :: 0 <= i < |s| ==> s[i].status != Pending)
         <==> s[0].status != Pending && forall i :: 0 <= i < |rest| ==> rest[i].status != Pending;
      assert (forall i :: 0 <= i < |s| ==> s[i].status == Pending)
         <==> s[0].status == Pending && forall i :: 0 <= i < |rest| ==> rest[i].status == Pending;
    }
  }

  /** `slice(0, 5)`: the first five orders, or all of them when there are fewer. */
  function RecentOrders(s: seq<Order>): (r: seq<Order>)
    ensures |r| == if |s| < 5 then |s| else 5
    ensures forall i :: 0 <= i < |r| ==> r[i] == s[i]
  {
    if |s| < 5 then s else s[..5]
  }

  /** With the orders sorted newest first under `atLeastAsNew`, every recent
      order is at least as new as every order left off the list. */
  lemma RecentAreNewest(s: seq<Order>, atLeastAsNew: (string, string) -> bool)
    requires forall i, j :: 0 <= i < j < |s| ==> atLeastAsNew(s[i].createdAt, s[j].createdAt)
    ensures var r := RecentOrders(s);
      forall i, j :: 0 <= i < |r| <= j < |s| ==> atLeastAsNew(r[i].createdAt, s[j].createdAt)
  {
  }

  /** `id.slice(0, 8)`. */
  function ShortId(id: string): (r: string)
    ensures |r| == if |id| < 8 then |id| else 8
    ensures r <= id
  {
    if |id| < 8 then id else id[..8]
  }

  /** The status as stored. */
  function StatusText(status: OrderStatus): string
  {
    match status
    case Paid => "paid"
    case Pending => "pending"
    case Shipped => "shipped"
    case Cancelled => "cancelled"
  }

  /** `toUpperCase` on one character, for the ASCII letters the statuses use. */
  function UpperChar(c: char): (u: char)
    ensures 'a' <= c <= 'z' ==> 'A' <= u <= 'Z' && u as int - c as int == 'A' as int - 'a' as int
    ensures !('a' <= c <= 'z') ==> u == c
  {
    if 'a' <= c <= 'z' then (c as int - 'a' as int + 'A' as int) as char else c
  }

  /** `s.charAt(0).toUpperCase() + s.slice(1)`: only the first character changes. */
  function Capitalize(s: string): (r: string)
    ensures |r| == |s|
    ensures |s| > 0 ==> r[0] == UpperChar(s[0]) && r[1..] == s[1..]
  {
    if s == [] then "" else [UpperChar(s[0])] + s[1..]
  }

  /** The label shown in the status badge: the stored status with its first
      letter upper-cased. */
  function StatusLabel(status: OrderStatus): (shown: string)
    ensures status == Paid ==> shown == "Paid"
    ensures status == Pending ==> shown == "Pending"
    ensures status == Shipped ==> shown == "Shipped"
    ensures status == Cancelled ==> shown == "Cancelled"
  {
    var text := StatusText(status);
    assert text == [text[0]] + text[1..];
    Capitalize(text)
  }
}
