/** The payments dashboard API route (app/api/stripe/dashboard/route.js):
    metrics and rows computed from one round of payments-provider listings.
    Amounts stay in cents; dates stay epoch seconds (their locale formatting
    is display only). */
module StripeDashboard {
  import opened Common

  /** The expanded price of a subscription item; `interval` is `recurring?.interval`. */
  datatype StripePrice = StripePrice(unitAmount: Option<int>, interval: Option<string>)

  /** An expanded customer on a subscription or a payment intent. */
  datatype Party = Party(name: Option<string>, email: Option<string>)

  /** A subscription; `items` are the prices of `items.data`, in order. */
  datatype StripeSubscription = StripeSubscription(
    id: string, customer: Option<Party>, status: string, items: seq<StripePrice>,
    created: int, currentPeriodEnd: int)

  /** A customer; `subscriptions` are the statuses of `subscriptions.data`,
      `None` when the customer carries no subscription list. */
  datatype StripeCustomer = StripeCustomer(
    id: string, name: Option<string>, email: Option<string>, created: int,
    subscriptions: Option<seq<string>>)

  datatype PaymentIntent = PaymentIntent(id: string, amount: int, status: string, customer: Option<Party>, created: int)

  /** `balance.available`, as amounts in cents. */
  datatype Balance = Balance(available: seq<int>)

  /** The four listings awaited together. */
  datatype Listings = Listings(
    balance: Balance, subscriptions: seq<StripeSubscription>,
    paymentIntents: seq<PaymentIntent>, customers: seq<StripeCustomer>)

  datatype UserRow = UserRow(id: string, name: string, email: string, created: int, status: string, subscription: string)

  datatype SubscriptionRow = SubscriptionRow(
    id: string, customerName: string, customerEmail: string, status: string,
    amountCents: int, interval: string, created: int, currentPeriodEnd: int)

  datatype PaymentRow = PaymentRow(id: string, amountCents: int, status: string, customer: string, created: int)

  datatype DashboardData = DashboardData(
    totalRevenueCents: int, activeSubscriptions: nat, monthlyRecurringCents: int,
    totalCustomers: nat, pendingInvoices: int, users: seq<UserRow>,
    subscriptions: seq<SubscriptionRow>, recentPayments: seq<PaymentRow>,
    recentSubscriptions: seq<SubscriptionRow>)

  datatype Reply = Ok(data: DashboardData) | Failed(status: int, error: string)

  const NoName := "Cliente Sin Nombre"
  const NoEmail := "Sin email"
  const RecentLimit := 5

  /** `sub.items.data[0]?.price.unit_amount || 0` */
  function FirstUnitAmount(sub: StripeSubscription): int {
    if |sub.items| > 0 && sub.items[0].unitAmount.Some? then sub.items[0].unitAmount.value else 0
  }

  /** The `reduce((total, sub) => total + firstUnitAmount, total)` fold. */
  function Reduce(subs: seq<StripeSubscription>, total: int): int
    decreases |subs|
  {
    if subs == [] then total else Reduce(subs[1..], total + FirstUnitAmount(subs[0]))
  }

  /** Monthly recurring revenue in cents, before the display division by 100. */
  function MonthlyRecurringCents(subs: seq<StripeSubscription>): int {
    Reduce(subs, 0)
  }

  lemma {:induction false} ReduceShift(subs: seq<StripeSubscription>, total: int)
    ensures Reduce(subs, total) == total + MonthlyRecurringCents(subs)
    decreases |subs|
  {
    if subs != [] {
      ReduceShift(subs[1..], total + FirstUnitAmount(subs[0]));
      ReduceShift(subs[1..], FirstUnitAmount(subs[0]));
    }
  }

  /** The revenue of two lists of subscriptions is the sum of their revenues. */
  lemma {:induction false} MonthlyRecurringAppend(a: seq<StripeSubscription>, b: seq<StripeSubscription>)
    ensures MonthlyRecurringCents(a + b) == MonthlyRecurringCents(a) + MonthlyRecurringCents(b)
    decreases |a|
  {
    if a == [] {
      assert a + b == b;
    } else {
      assert (a + b)[1..] == a[1..] + b;
      MonthlyRecurringAppend(a[1..], b);
      ReduceShift(a + b, 0);
      ReduceShift((a + b)[1..], FirstUnitAmount(a[0]));
      ReduceShift(a[1..], FirstUnitAmount(a[0]));
    }
  }

  /** Only the first item's unit amount counts: two lists whose subscriptions
      agree on it have the same revenue, whatever their quantities, further
      items, customers or statuses. */
  lemma {:induction false} OnlyFirstItemCounts(a: seq<StripeSubscription>, b: seq<StripeSubscription>)
    requires |a| == |b|
    requires forall i :: 0 <= i < |a| ==> FirstUnitAmount(a[i]) == FirstUnitAmount(b[i])
    ensures MonthlyRecurringCents(a) == MonthlyRecurringCents(b)
    decreases |a|
  {
    if a != [] {
      OnlyFirstItemCounts(a[1..], b[1..]);
      ReduceShift(a[1..], FirstUnitAmount(a[0]));
      ReduceShift(b[1..], FirstUnitAmount(b[0]));
    }
  }

  /** A subscription without items, or whose first price has no unit amount, adds nothing. */
  lemma NoFirstAmountAddsNothing(subs: seq<StripeSubscription>, s: StripeSubscription)
    requires |s.items| == 0 || s.items[0].unitAmount.None?
    ensures MonthlyRecurringCents(subs + [s]) == MonthlyRecurringCents(subs)
  {
    MonthlyRecurringAppend(subs, [s]);
    assert FirstUnitAmount(s) == 0;
    assert [s][1..] == [];
    assert MonthlyRecurringCents([s]) == Reduce([], 0);
  }

  /** One row of `users`: defaults for a missing name or email, 'active' when
      the customer has at least one subscription, and the first subscription's
      status (or 'none'). */
  function UserRowOf(c: StripeCustomer): (r: UserRow)
    ensures r.id == c.id && r.created == c.created
    ensures r.name == Or(c.name, NoName) && r.email == Or(c.email, NoEmail)
    ensures r.status == "active" <==> c.subscriptions.Some? && |c.subscriptions.value| >= 1
    ensures r.status in {"active", "inactive"}
    ensures r.subscription == (if c.subscriptions.Some? && |c.subscriptions.value| >= 1
                               then Or(Some(c.subscriptions.value[0]), "none") else "none")
  {
    var subs := c.subscriptions.GetOr([]);
    UserRow(c.id, Or(c.name, NoName), Or(c.email, NoEmail), c.created,
            if |subs| > 0 then "active" else "inactive",
            if |subs| > 0 then Or(Some(subs[0]), "none") else "none")
  }

  /** `party?.name` and `party?.email`: optional chaining through a missing customer. */
  function NameOf(p: Option<Party>): Option<string> { if p.Some? then p.value.name else None }
  function EmailOf(p: Option<Party>): Option<string> { if p.Some? then p.value.email else None }

  /** One row of `subscriptions`: the customer's name and email with their
      defaults, the first item's amount, its interval or 'month', the dates. */
  function SubscriptionRowOf(s: StripeSubscription): (r: SubscriptionRow)
    ensures r.id == s.id && r.status == s.status && r.amountCents == FirstUnitAmount(s)
    ensures r.customerName == Or(NameOf(s.customer), NoName)
    ensures r.customerEmail == Or(EmailOf(s.customer), NoEmail)
    ensures r.interval == (if |s.items| > 0 then Or(s.items[0].interval, "month") else "month")
    ensures r.created == s.created && r.currentPeriodEnd == s.currentPeriodEnd
  {
    SubscriptionRow(
      s.id, Or(NameOf(s.customer), NoName), Or(EmailOf(s.customer), NoEmail), s.status, FirstUnitAmount(s),
      if |s.items| > 0 then Or(s.items[0].interval, "month") else "month",
      s.created, s.currentPeriodEnd)
  }

  /** One row of `recentPayments`: the customer is shown by the first truthy
      of its name and its email, else 'Cliente'. */
  function PaymentRowOf(p: PaymentIntent): (r: PaymentRow)
    ensures r.id == p.id && r.amountCents == p.amount && r.status == p.status && r.created == p.created
    ensures r.customer == FirstTruthy([NameOf(p.customer), EmailOf(p.customer)], "Cliente")
    ensures r.customer != ""
  {
    var cs := [NameOf(p.customer), EmailOf(p.customer)];
    var who := Or(cs[0], Or(cs[1], "Cliente"));
    assert who == FirstTruthy(cs, "Cliente") by {
      if Truthy(cs[0]) {
      } else if Truthy(cs[1]) {
        assert !Truthy(cs[0]);
      } else {
        assert forall i :: 0 <= i < |cs| ==> !Truthy(cs[i]);
      }
    }
    PaymentRow(p.id, p.amount, p.status, who, p.created)
  }

  function MapSeq<A, B>(xs: seq<A>, f: A -> B): (r: seq<B>)
    ensures |r| == |xs| && forall i :: 0 <= i < |xs| ==> r[i] == f(xs[i])
  {
    seq(|xs|, i requires 0 <= i < |xs| => f(xs[i]))
  }

  /** `balance.available[0]?.amount / 100 || 0`, kept in cents. */
  function TotalRevenueCents(b: Balance): (r: int)
    ensures |b.available| > 0 ==> r == b.available[0]
    ensures |b.available| == 0 ==> r == 0
  {
    if |b.available| > 0 then b.available[0] else 0
  }

  /** The dashboard computed from the listings. */
  function Dashboard(l: Listings): (d: DashboardData)
    ensures d.activeSubscriptions == |l.subscriptions|
    ensures d.totalCustomers == |l.customers|
    ensures d.monthlyRecurringCents == MonthlyRecurringCents(l.subscriptions)
    ensures d.totalRevenueCents == (if |l.balance.available| > 0 then l.balance.available[0] else 0)
    ensures |d.users| == |l.customers| && |d.subscriptions| == |l.subscriptions|
    ensures forall i :: 0 <= i < |l.customers| ==> d.users[i] == UserRowOf(l.customers[i])
    ensures forall i :: 0 <= i < |l.subscriptions| ==> d.subscriptions[i] == SubscriptionRowOf(l.subscriptions[i])
    ensures |d.recentPayments| <= RecentLimit && |d.recentPayments| == Min(RecentLimit, |l.paymentIntents|)
    ensures forall i :: 0 <= i < |d.recentPayments| ==> d.recentPayments[i] == PaymentRowOf(l.paymentIntents[i])
    ensures |d.recentSubscriptions| <= RecentLimit
    ensures d.recentSubscriptions == d.subscriptions[..Min(RecentLimit, |d.subscriptions|)]
    ensures d.pendingInvoices == 0
  {
    var rows := MapSeq(l.subscriptions, SubscriptionRowOf);
    DashboardData(
      TotalRevenueCents(l.balance),
      |l.subscriptions|,
      MonthlyRecurringCents(l.subscriptions),
      |l.customers|,
      0,
      MapSeq(l.customers, UserRowOf),
      rows,
      MapSeq(l.paymentIntents[..Min(RecentLimit, |l.paymentIntents|)], PaymentRowOf),
      rows[..Min(RecentLimit, |rows|)])
  }

  /** `GET`: any rejected listing is answered with status 500 and the fixed message. */
  function Get(listings: Call<Listings>): (r: Reply)
    ensures listings.Threw? <==> r == Failed(500, "Failed to fetch Stripe data")
    ensures listings.Returned? ==> r == Ok(Dashboard(listings.value))
  {
    match listings
    case Threw(_) => Failed(500, "Failed to fetch Stripe data")
    case Returned(l) => Ok(Dashboard(l))
  }

  /** In every user row and every subscription row, the name and the email
      are never empty: a missing or empty value is replaced by its default. */
  lemma RowsNeverBlank(l: Listings)
    ensures forall u :: u in Dashboard(l).users ==> u.name != "" && u.email != ""
    ensures forall s :: s in Dashboard(l).subscriptions ==> s.customerName != "" && s.customerEmail != ""
  {
  }
}
