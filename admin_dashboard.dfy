/** The read-only admin dashboard page (1/felxeasy/app/admin/page.tsx): the
    admin-or-manager guard, the KPI block, the price indexes, the monthly
    recurring revenue fold, the subscription and user tables and the status
    badge. Amounts are integer cents; the division by 100 is display only. */
module AdminDashboard {
  import opened Common

  // ---------------------------------------------------------------------------
  // Records as selected from the store and the auth admin API
  // ---------------------------------------------------------------------------

  /** A row of `prices` (`id, unit_amount, nickname`). */
  datatype Price = Price(id: string, unitAmount: Option<int>, nickname: Option<string>)

  /** A row of `subscriptions`; `currentPeriodEnd` is epoch seconds. */
  datatype Subscription = Subscription(
    userId: string, priceId: string, status: string,
    currentPeriodEnd: Option<int>, quantity: Option<int>)

  /** A user as listed by the auth admin API. */
  datatype AuthUser = AuthUser(id: string, email: Option<string>, createdAt: Option<string>)

  /** A row of `users` selected as `id, role`. */
  datatype RoleRow = RoleRow(id: string, role: Option<string>)

  /** A row of the subscriptions table; `renewsAtMs` is the Date's epoch milliseconds. */
  datatype SubView = SubView(email: string, plan: string, status: string, renewsAtMs: Option<int>, amount: int)

  /** A row of the recent-users table. */
  datatype UserView = UserView(email: string, role: string, createdAt: Option<string>)

  /** What the page renders, or where it sends the visitor. */
  datatype Page =
    | Redirected(target: string)
    | Rendered(usersCount: int, activeSubs: int, mrrCents: int, users: seq<UserView>, subs: seq<SubView>)

  /** Every provider reply the page awaits, in the order it awaits them.
      `mrrQueries` is the joined pair of the active-subscriptions and prices
      queries; a rejection of either is `Threw`. */
  datatype Backend = Backend(
    user: Option<User>,
    me: Option<Profile>,
    usersCount: Option<int>,
    activeCount: Call<Option<int>>,
    mrrQueries: Call<(Option<seq<Subscription>>, Option<seq<Price>>)>,
    latest: Call<Option<seq<Subscription>>>,
    authUsers: Option<seq<AuthUser>>,
    recentUsers: Option<seq<AuthUser>>,
    roleRows: Option<seq<RoleRow>>)

  // ---------------------------------------------------------------------------
  // Guard
  // ---------------------------------------------------------------------------

  /** The role the page checks: a missing row or a null role becomes "". */
  function PageRole(me: Option<Profile>): string {
    if me.Some? then me.value.role.GetOr("") else ""
  }

  predicate IsStaff(role: string) {
    role == "admin" || role == "manager"
  }

  /** The guard at the top of the page: no user goes to sign-in, a user whose
      role is neither admin nor manager goes to the home page. */
  function PageAccess(user: Option<User>, me: Option<Profile>): (a: Access)
    ensures user.None? ==> a == Redirect("/signin")
    ensures a == Allow <==> user.Some? && me.Some? && me.value.role in {Some("admin"), Some("manager")}
    ensures user.Some? && a != Allow ==> a == Redirect("/")
  {
    if user.None? then Redirect("/signin")
    else if !IsStaff(PageRole(me)) then Redirect("/")
    else Allow
  }

  // ---------------------------------------------------------------------------
  // Keyed indexes built with `new Map(rows.map(r => [key(r), value(r)]))`
  // ---------------------------------------------------------------------------

  /** The position of the last row whose key is `k`, or -1: the row whose
      value a JavaScript Map built from the rows keeps for `k`. */
  function LastIndex<T>(rows: seq<T>, key: T -> string, k: string): (r: int)
    ensures -1 <= r < |rows|
    ensures r >= 0 ==> key(rows[r]) == k && forall j :: r < j < |rows| ==> key(rows[j]) != k
    ensures r == -1 ==> forall j :: 0 <= j < |rows| ==> key(rows[j]) != k
    decreases |rows|
  {
    if rows == [] then -1
    else if key(rows[|rows| - 1]) == k then |rows| - 1
    else LastIndex(rows[..|rows| - 1], key, k)
  }

  /** A Map built from entries in order; a later entry with the same key replaces an earlier one. */
  function IndexBy<T, V>(rows: seq<T>, key: T -> string, value: T -> V): (m: map<string, V>)
    ensures forall k :: k in m <==> LastIndex(rows, key, k) >= 0
    ensures forall k :: k in m ==> m[k] == value(rows[LastIndex(rows, key, k)])
    decreases |rows|
  {
    if rows == [] then map[]
    else
      var last := rows[|rows| - 1];
      IndexBy(rows[..|rows| - 1], key, value)[key(last) := value(last)]
  }

  function PriceKey(p: Price): string { p.id }
  /** `p.unit_amount ?? 0` */
  function UnitValue(p: Price): int { p.unitAmount.GetOr(0) }
  /** `p.nickname ?? p.id` */
  function NickValue(p: Price): string { p.nickname.GetOr(p.id) }

  function UnitByPrice(prices: seq<Price>): map<string, int> {
    IndexBy(prices, PriceKey, UnitValue)
  }

  function NickByPrice(prices: seq<Price>): map<string, string> {
    IndexBy(prices, PriceKey, NickValue)
  }

  /** `unitByPrice.get(id) ?? 0` */
  function UnitFor(unitByPrice: map<string, int>, priceId: string): int {
    if priceId in unitByPrice then unitByPrice[priceId] else 0
  }

  /** The unit amount the page uses for a price id is the unit amount of the
      last price row with that id, 0 when that amount is null, and 0 when no
      price row has that id. */
  lemma UnitForPrice(prices: seq<Price>, priceId: string)
    ensures var i := LastIndex(prices, PriceKey, priceId);
      UnitFor(UnitByPrice(prices), priceId) == (if i >= 0 then prices[i].unitAmount.GetOr(0) else 0)
    ensures (forall p :: p in prices ==> p.id != priceId) ==> UnitFor(UnitByPrice(prices), priceId) == 0
  {
  }

  // ---------------------------------------------------------------------------
  // Amounts and the MRR fold
  // ---------------------------------------------------------------------------

  /** `(unitByPrice.get(price_id) ?? 0) * (quantity ?? 1)`: only a null
      quantity becomes 1. */
  function RowAmount(s: Subscription, unitByPrice: map<string, int>): int {
    UnitFor(unitByPrice, s.priceId) * s.quantity.GetOr(1)
  }

  /** The `reduce((acc, s) => acc + unit * qty, acc)` over the rows, left to right. */
  function Reduce(rows: seq<Subscription>, unitByPrice: map<string, int>, acc: int): int
    decreases |rows|
  {
    if rows == [] then acc
    else Reduce(rows[1..], unitByPrice, acc + RowAmount(rows[0], unitByPrice))
  }

  /** The MRR fold, started at 0. */
  function Mrr(activeRows: seq<Subscription>, unitByPrice: map<string, int>): int {
    Reduce(activeRows, unitByPrice, 0)
  }

  /** Reference definition: the sum of the table's per-row amounts. */
  function SumAmounts(rows: seq<Subscription>, unitByPrice: map<string, int>): int
    decreases |rows|
  {
    if rows == [] then 0
    else RowAmount(rows[0], unitByPrice) + SumAmounts(rows[1..], unitByPrice)
  }

  /** The store's `.eq('status', 'active')` filter, order preserved: every
      active row is kept as often as it occurs, every other row is dropped. */
  function ActiveOnly(rows: seq<Subscription>): (r: seq<Subscription>)
    ensures |r| <= |rows|
    ensures forall s :: s in r <==> s in rows && s.status == "active"
    ensures forall s :: multiset(r)[s] == (if s.status == "active" then multiset(rows)[s] else 0)
    decreases |rows|
  {
    if rows == [] then []
    else
      assert rows == [rows[0]] + rows[1..];
      if rows[0].status == "active" then [rows[0]] + ActiveOnly(rows[1..])
      else ActiveOnly(rows[1..])
  }

  /** The filter distributes over concatenation. */
  lemma {:induction false} ActiveOnlyAppend(a: seq<Subscription>, b: seq<Subscription>)
    ensures ActiveOnly(a + b) == ActiveOnly(a) + ActiveOnly(b)
    decreases |a|
  {
    if a == [] {
      assert a + b == b;
    } else {
      assert (a + b)[0] == a[0];
      assert (a + b)[1..] == a[1..] + b;
      ActiveOnlyAppend(a[1..], b);
    }
  }

  /** The number the active-subscriptions count query returns for a table. */
  function ActiveCount(table: seq<Subscription>): nat {
    |ActiveOnly(table)|
  }

  /** Reference definition: the number of active rows, counted from the end. */
  function CountActive(table: seq<Subscription>): nat
    decreases |table|
  {
    if table == [] then 0
    else CountActive(table[..|table| - 1]) + (if table[|table| - 1].status == "active" then 1 else 0)
  }

  /** The count query's answer is the number of active rows of the table. */
  lemma {:induction false} ActiveCountIsCount(table: seq<Subscription>)
    ensures ActiveCount(table) == CountActive(table)
    decreases |table|
  {
    if table != [] {
      var init, last := table[..|table| - 1], table[|table| - 1];
      assert table == init + [last];
      ActiveOnlyAppend(init, [last]);
      ActiveCountIsCount(init);
      assert [last][1..] == [];
    }
  }

  /** Reference definition of MRR over the whole table: each row contributes
      its amount when its status is "active" and nothing otherwise. */
  function ActiveContribution(table: seq<Subscription>, unitByPrice: map<string, int>): int
    decreases |table|
  {
    if table == [] then 0
    else (if table[0].status == "active" then RowAmount(table[0], unitByPrice) else 0)
         + ActiveContribution(table[1..], unitByPrice)
  }

  /** The fold adds the row amounts to its seed. */
  lemma {:induction false} ReduceAddsAmounts(rows: seq<Subscription>, unitByPrice: map<string, int>, acc: int)
    ensures Reduce(rows, unitByPrice, acc) == acc + SumAmounts(rows, unitByPrice)
    decreases |rows|
  {
    if rows != [] {
      ReduceAddsAmounts(rows[1..], unitByPrice, acc + RowAmount(rows[0], unitByPrice));
    }
  }

  /** MRR of the active rows the store returns = sum over the table of the
      amounts of its active rows; inactive rows contribute nothing. */
  lemma {:induction false} MrrIsActiveSum(table: seq<Subscription>, unitByPrice: map<string, int>)
    ensures Mrr(ActiveOnly(table), unitByPrice) == ActiveContribution(table, unitByPrice)
  {
    ActiveSumsAgree(table, unitByPrice);
    ReduceAddsAmounts(ActiveOnly(table), unitByPrice, 0);
  }

  lemma {:induction false} ActiveSumsAgree(table: seq<Subscription>, unitByPrice: map<string, int>)
    ensures SumAmounts(ActiveOnly(table), unitByPrice) == ActiveContribution(table, unitByPrice)
    decreases |table|
  {
    if table != [] {
      ActiveSumsAgree(table[1..], unitByPrice);
      if table[0].status == "active" {
        assert ActiveOnly(table) == [table[0]] + ActiveOnly(table[1..]);
        assert ([table[0]] + ActiveOnly(table[1..]))[1..] == ActiveOnly(table[1..]);
      }
    }
  }

  /** A table without active rows has MRR 0 and active count 0. */
  lemma NoActiveRows(table: seq<Subscription>, unitByPrice: map<string, int>)
    requires forall s :: s in table ==> s.status != "active"
    ensures Mrr(ActiveOnly(table), unitByPrice) == 0
    ensures ActiveCount(table) == 0
  {
  }

  /** Rows whose price is unknown contribute 0 to the MRR. */
  lemma {:induction false} UnknownPricesGiveZero(rows: seq<Subscription>, unitByPrice: map<string, int>)
    requires forall s :: s in rows ==> s.priceId !in unitByPrice
    ensures Mrr(rows, unitByPrice) == 0
  {
    ZeroAmounts(rows, unitByPrice);
    ReduceAddsAmounts(rows, unitByPrice, 0);
  }

  lemma {:induction false} ZeroAmounts(rows: seq<Subscription>, unitByPrice: map<string, int>)
    requires forall s :: s in rows ==> s.priceId !in unitByPrice
    ensures SumAmounts(rows, unitByPrice) == 0
    decreases |rows|
  {
    if rows != [] {
      assert rows[0] in rows;
      assert forall s :: s in rows[1..] ==> s in rows;
      ZeroAmounts(rows[1..], unitByPrice);
    }
  }

  /** With non-negative unit amounts and quantities the MRR is non-negative. */
  lemma {:induction false} MrrNonNegative(rows: seq<Subscription>, unitByPrice: map<string, int>)
    requires forall id :: id in unitByPrice ==> unitByPrice[id] >= 0
    requires forall s :: s in rows ==> s.quantity.GetOr(1) >= 0
    ensures Mrr(rows, unitByPrice) >= 0
  {
    SumNonNegative(rows, unitByPrice);
    ReduceAddsAmounts(rows, unitByPrice, 0);
  }

  lemma {:induction false} SumNonNegative(rows: seq<Subscription>, unitByPrice: map<string, int>)
    requires forall id :: id in unitByPrice ==> unitByPrice[id] >= 0
    requires forall s :: s in rows ==> s.quantity.GetOr(1) >= 0
    ensures SumAmounts(rows, unitByPrice) >= 0
    decreases |rows|
  {
    if rows != [] {
      assert rows[0] in rows;
      assert forall s :: s in rows[1..] ==> s in rows;
      SumNonNegative(rows[1..], unitByPrice);
      var u := UnitFor(unitByPrice, rows[0].priceId);
      var q := rows[0].quantity.GetOr(1);
      assert u >= 0 && q >= 0;
      assert u * q >= 0;
    }
  }

  /** The worked example: three active rows at 2000 cents with no quantity and
      one canceled row at 9000 cents with quantity 2 give an MRR of 6000 cents
      and an active count of 3. */
  lemma WorkedExample()
    ensures var prices := [Price("basic", Some(2000), Some("Basic")), Price("pro", Some(9000), None)];
      var table := [
        Subscription("u1", "basic", "active", Some(1700000000), None),
        Subscription("u2", "basic", "active", Some(1700000000), None),
        Subscription("u3", "basic", "active", None, None),
        Subscription("u4", "pro", "canceled", Some(1700000000), Some(2))];
      Mrr(ActiveOnly(table), UnitByPrice(prices)) == 6000 && ActiveCount(table) == 3
  {
    var prices := [Price("basic", Some(2000), Some("Basic")), Price("pro", Some(9000), None)];
    var table := [
      Subscription("u1", "basic", "active", Some(1700000000), None),
      Subscription("u2", "basic", "active", Some(1700000000), None),
      Subscription("u3", "basic", "active", None, None),
      Subscription("u4", "pro", "canceled", Some(1700000000), Some(2))];
    var m := UnitByPrice(prices);
    assert LastIndex(prices, PriceKey, "basic") == 0;
    UnitForPrice(prices, "basic");
    assert UnitFor(m, "basic") == 2000;
    var active := ActiveOnly(table);
    assert active == table[..3];
    assert Reduce(active[3..], m, 6000) == 6000;
    assert Reduce(active[2..], m, 4000) == 6000;
    assert Reduce(active[1..], m, 2000) == 6000;
  }

  // ---------------------------------------------------------------------------
  // The subscription list: `order('current_period_end', desc).limit(25)`
  // ---------------------------------------------------------------------------

  const SubsLimit := 25

  /** May `a` come before `b` in descending `current_period_end` order? The
      store sorts nulls first in a descending order. */
  predicate RanksBefore(a: Subscription, b: Subscription) {
    a.currentPeriodEnd.None? || (b.currentPeriodEnd.Some? && a.currentPeriodEnd.value >= b.currentPeriodEnd.value)
  }

  predicate SortedDesc(s: seq<Subscription>) {
    forall i, j :: 0 <= i < j < |s| ==> RanksBefore(s[i], s[j])
  }

  function Insert(x: Subscription, s: seq<Subscription>): (r: seq<Subscription>)
    ensures multiset(r) == multiset(s) + multiset{x}
    decreases |s|
  {
    if s == [] then [x]
    else if RanksBefore(x, s[0]) then [x] + s
    else
      assert s == [s[0]] + s[1..];
      [s[0]] + Insert(x, s[1..])
  }

  lemma {:induction false} InsertSorted(x: Subscription, s: seq<Subscription>)
    requires SortedDesc(s)
    ensures SortedDesc(Insert(x, s))
    decreases |s|
  {
    if s != [] && !RanksBefore(x, s[0]) {
      var t := Insert(x, s[1..]);
      InsertSorted(x, s[1..]);
      assert s == [s[0]] + s[1..];
      forall k | 0 <= k < |t| ensures RanksBefore(s[0], t[k]) {
        assert t[k] in multiset(t);
        assert t[k] in multiset(s[1..]) || t[k] == x;
        if t[k] != x {
          var j :| 1 <= j < |s| && s[j] == t[k];
        }
      }
    }
  }

  function SortDesc(table: seq<Subscription>): (r: seq<Subscription>)
    ensures SortedDesc(r)
    ensures multiset(r) == multiset(table)
    decreases |table|
  {
    if table == [] then []
    else
      assert table == [table[0]] + table[1..];
      InsertSorted(table[0], SortDesc(table[1..]));
      Insert(table[0], SortDesc(table[1..]))
  }

  /** The rows the list query returns: at most 25, the latest period ends first,
      each one a row of the table. Ties keep an order the store chooses; this
      model picks one. */
  function LatestQuery(table: seq<Subscription>): (r: seq<Subscription>)
    ensures |r| == Min(SubsLimit, |table|)
    ensures SortedDesc(r)
    ensures multiset(r) <= multiset(table)
    ensures forall x, y :: x in multiset(table) - multiset(r) && y in r ==> RanksBefore(y, x)
  {
    var sorted := SortDesc(table);
    var n := Min(SubsLimit, |table|);
    assert sorted == sorted[..n] + sorted[n..];
    assert multiset(sorted) == multiset(sorted[..n]) + multiset(sorted[n..]);
    var r := sorted[..n];
    forall x, y | x in multiset(table) - multiset(r) && y in r ensures RanksBefore(y, x) {
      assert x in multiset(sorted[n..]);
      assert x in sorted[n..];
      var j :| n <= j < |sorted| && sorted[j] == x;
      var i :| 0 <= i < n && sorted[i] == y;
    }
    r
  }

  /** `subs = data ?? []`, and `[]` when the query throws. */
  function SubsList(reply: Call<Option<seq<Subscription>>>): (r: seq<Subscription>)
    ensures reply.Threw? ==> r == []
    ensures reply.Returned? && reply.value.Some? ==> r == reply.value.value
    ensures reply.Returned? && reply.value.None? ==> r == []
  {
    match reply
    case Threw(_) => []
    case Returned(data) => data.GetOr([])
  }

  // ---------------------------------------------------------------------------
  // Emails of the listed subscriptions' users
  // ---------------------------------------------------------------------------

  /** `Array.from(new Set(ids.filter(Boolean)))`: the non-empty ids, each once,
      in order of first appearance. */
  function UniqueIds(ids: seq<string>): (r: seq<string>)
    ensures forall i, j :: 0 <= i < j < |r| ==> r[i] != r[j]
    ensures forall x :: x in r <==> x in ids && x != ""
    decreases |ids|
  {
    if ids == [] then []
    else
      var prefix := UniqueIds(ids[..|ids| - 1]);
      var last := ids[|ids| - 1];
      assert ids == ids[..|ids| - 1] + [last];
      if last == "" || last in prefix then prefix else prefix + [last]
  }

  function UserIds(subs: seq<Subscription>): (r: seq<string>)
    ensures |r| == |subs| && forall i :: 0 <= i < |subs| ==> r[i] == subs[i].userId
  {
    seq(|subs|, i requires 0 <= i < |subs| => subs[i].userId)
  }

  function AuthUserKey(u: AuthUser): string { u.id }
  /** `u.email ?? u.id` */
  function EmailOrId(u: AuthUser): string { u.email.GetOr(u.id) }

  /** The map the loop `for (u of usersList) if (ids.includes(u.id)) emails.set(u.id, u.email ?? u.id)` builds. */
  function EmailMap(ids: seq<string>, users: seq<AuthUser>): map<string, string>
    decreases |users|
  {
    if users == [] then map[]
    else
      var m := EmailMap(ids, users[..|users| - 1]);
      var u := users[|users| - 1];
      if u.id in ids then m[u.id := EmailOrId(u)] else m
  }

  /** With no wanted ids the loop keeps nobody. */
  lemma {:induction false} EmailMapNoIds(users: seq<AuthUser>)
    ensures EmailMap([], users) == map[]
    decreases |users|
  {
    if users != [] {
      EmailMapNoIds(users[..|users| - 1]);
    }
  }

  /** The emails map holds exactly the wanted ids that some listed user has,
      each mapped to the email (or id) of the last listed user with that id. */
  lemma {:induction false} EmailMapLookup(ids: seq<string>, users: seq<AuthUser>, k: string)
    ensures k in EmailMap(ids, users) <==> k in ids && LastIndex(users, AuthUserKey, k) >= 0
    ensures k in EmailMap(ids, users) ==> EmailMap(ids, users)[k] == EmailOrId(users[LastIndex(users, AuthUserKey, k)])
    decreases |users|
  {
    if users != [] {
      EmailMapLookup(ids, users[..|users| - 1], k);
    }
  }

  /** The loop over the listed users that fills the emails map. */
  method CollectEmails(ids: seq<string>, users: seq<AuthUser>) returns (emails: map<string, string>)
    ensures emails == EmailMap(ids, users)
    ensures emails.Keys <= set x | x in ids
  {
    emails := map[];
    for i := 0 to |users|
      invariant emails == EmailMap(ids, users[..i])
      invariant emails.Keys <= set x | x in ids
    {
      var u := users[i];
      assert users[..i + 1][..i] == users[..i];
      if u.id in ids {
        emails := emails[u.id := EmailOrId(u)];
      }
    }
    assert users[..|users|] == users;
  }

  // ---------------------------------------------------------------------------
  // Table rows
  // ---------------------------------------------------------------------------

  /** `current_period_end ? new Date(current_period_end * 1000) : null` */
  function RenewsAt(periodEnd: Option<int>): Option<int> {
    if periodEnd.Some? && periodEnd.value != 0 then Some(periodEnd.value * 1000) else None
  }

  function SubViewOf(s: Subscription, emails: map<string, string>, unitByPrice: map<string, int>,
                     nickByPrice: map<string, string>): SubView {
    SubView(
      if s.userId in emails then emails[s.userId] else s.userId,
      if s.priceId in nickByPrice then nickByPrice[s.priceId] else s.priceId,
      s.status,
      RenewsAt(s.currentPeriodEnd),
      RowAmount(s, unitByPrice))
  }

  function SubViews(subs: seq<Subscription>, emails: map<string, string>, unitByPrice: map<string, int>,
                    nickByPrice: map<string, string>): (r: seq<SubView>)
    ensures |r| == |subs|
    ensures forall i :: 0 <= i < |subs| ==> r[i] == SubViewOf(subs[i], emails, unitByPrice, nickByPrice)
  {
    seq(|subs|, i requires 0 <= i < |subs| => SubViewOf(subs[i], emails, unitByPrice, nickByPrice))
  }

  /** What one subscription row shows, in terms of the price rows and the
      listed auth users: the amount is the last matching price's unit amount
      (0 when unknown or null) times the quantity (1 when null), whatever the
      status; the plan is the last matching price's nickname, falling back to
      the price id both when the nickname is null and when no price matches;
      the renewal date is absent exactly when the period end is null or 0;
      the email is the listed email (or id) of that user, else the user id. */
  lemma SubRowShows(s: Subscription, prices: seq<Price>, ids: seq<string>, users: seq<AuthUser>)
    ensures var v := SubViewOf(s, EmailMap(ids, users), UnitByPrice(prices), NickByPrice(prices));
      var p := LastIndex(prices, PriceKey, s.priceId);
      var u := LastIndex(users, AuthUserKey, s.userId);
      && v.status == s.status
      && v.amount == (if p >= 0 then prices[p].unitAmount.GetOr(0) else 0) * s.quantity.GetOr(1)
      && v.plan == (if p >= 0 && prices[p].nickname.Some? then prices[p].nickname.value else s.priceId)
      && (v.renewsAtMs.None? <==> s.currentPeriodEnd in {None, Some(0)})
      && (v.renewsAtMs.Some? ==> v.renewsAtMs.value == s.currentPeriodEnd.value * 1000)
      && v.email == (if s.userId in ids && u >= 0 then EmailOrId(users[u]) else s.userId)
  {
    UnitForPrice(prices, s.priceId);
    EmailMapLookup(ids, users, s.userId);
  }

  /** `roleRows.map(r => [r.id, r.role ?? 'user'])` */
  function RoleKey(r: RoleRow): string { r.id }
  function RoleOrUser(r: RoleRow): string { r.role.GetOr("user") }

  function UserViewOf(u: AuthUser, roleById: map<string, string>): UserView {
    UserView(u.email.GetOr("—"), if u.id in roleById then roleById[u.id] else "user", u.createdAt)
  }

  function UserViews(users: seq<AuthUser>, roleById: map<string, string>): (r: seq<UserView>)
    ensures |r| == |users|
    ensures forall i :: 0 <= i < |users| ==> r[i] == UserViewOf(users[i], roleById)
  {
    seq(|users|, i requires 0 <= i < |users| => UserViewOf(users[i], roleById))
  }

  /** A recent user's role is the role of the last matching role row, 'user'
      when that role is null and 'user' when no row matches. */
  lemma UserRowRole(u: AuthUser, rows: seq<RoleRow>)
    ensures var i := LastIndex(rows, RoleKey, u.id);
      UserViewOf(u, IndexBy(rows, RoleKey, RoleOrUser)).role
        == (if i >= 0 then rows[i].role.GetOr("user") else "user")
  {
  }

  // ---------------------------------------------------------------------------
  // The page
  // ---------------------------------------------------------------------------

  /** The price rows the page indexes: none when the MRR block throws. */
  function PriceRows(q: Call<(Option<seq<Subscription>>, Option<seq<Price>>)>): seq<Price> {
    match q
    case Threw(_) => []
    case Returned(replies) => replies.1.GetOr([])
  }

  /** The page body: the guard, then each KPI computed in turn (a failed
      active-count query leaves 0, a failed MRR block leaves 0 and both price
      indexes empty), the latest subscriptions, the emails of their users
      (looked up only when there is at least one id) and the recent users. */
  method AdminPage(b: Backend) returns (page: Page)
    ensures b.user.None? ==> page == Redirected("/signin")
    ensures page.Rendered? <==> PageAccess(b.user, b.me) == Allow
    ensures page.Redirected? ==> page == Redirected(PageAccess(b.user, b.me).target)
    ensures page.Rendered? ==> page.usersCount == b.usersCount.GetOr(0)
    ensures page.Rendered? && b.activeCount.Threw? ==> page.activeSubs == 0
    ensures page.Rendered? && b.activeCount.Returned? ==> page.activeSubs == b.activeCount.value.GetOr(0)
    ensures page.Rendered? && b.mrrQueries.Threw? ==> page.mrrCents == 0
    ensures page.Rendered? && b.mrrQueries.Returned? ==>
      page.mrrCents == Mrr(b.mrrQueries.value.0.GetOr([]), UnitByPrice(b.mrrQueries.value.1.GetOr([])))
    ensures page.Rendered? ==> |page.subs| == |SubsList(b.latest)|
    ensures page.Rendered? ==> forall i :: 0 <= i < |page.subs| ==> page.subs[i].status == SubsList(b.latest)[i].status
    ensures page.Rendered? && b.mrrQueries.Threw? ==>
      forall i :: 0 <= i < |page.subs| ==>
        page.subs[i].amount == 0 && page.subs[i].plan == SubsList(b.latest)[i].priceId
    ensures page.Rendered? && b.authUsers.None? ==>
      forall i :: 0 <= i < |page.subs| ==> page.subs[i].email == SubsList(b.latest)[i].userId
    ensures page.Rendered? ==> |page.users| == |b.recentUsers.GetOr([])|
    ensures page.Rendered? ==>
      var subs := SubsList(b.latest);
      page.subs == SubViews(subs, EmailMap(UniqueIds(UserIds(subs)), b.authUsers.GetOr([])),
                            UnitByPrice(PriceRows(b.mrrQueries)), NickByPrice(PriceRows(b.mrrQueries)))
    ensures page.Rendered? ==>
      page.users == UserViews(b.recentUsers.GetOr([]), IndexBy(b.roleRows.GetOr([]), RoleKey, RoleOrUser))
  {
    var access := PageAccess(b.user, b.me);
    if access != Allow {
      return Redirected(access.target);
    }

    var usersCount := b.usersCount.GetOr(0);

    var activeSubs := 0;
    match b.activeCount {
      case Threw(_) => activeSubs := 0;
      case Returned(count) => activeSubs := count.GetOr(0);
    }

    var mrrCents := 0;
    var unitByPrice: map<string, int> := map[];
    var nickByPrice: map<string, string> := map[];
    match b.mrrQueries {
      case Threw(_) => mrrCents := 0;
      case Returned(replies) =>
        var prices := replies.1.GetOr([]);
        unitByPrice := UnitByPrice(prices);
        nickByPrice := NickByPrice(prices);
        mrrCents := Mrr(replies.0.GetOr([]), unitByPrice);
    }

    var subs := SubsList(b.latest);

    var ids := UniqueIds(UserIds(subs));
    var emails: map<string, string> := map[];
    if |ids| > 0 {
      emails := CollectEmails(ids, b.authUsers.GetOr([]));
    } else {
      assert ids == [];
      EmailMapNoIds(b.authUsers.GetOr([]));
    }

    var recent := b.recentUsers.GetOr([]);
    var roleById := IndexBy(b.roleRows.GetOr([]), RoleKey, RoleOrUser);

    page := Rendered(usersCount, activeSubs, mrrCents, UserViews(recent, roleById),
                     SubViews(subs, emails, unitByPrice, nickByPrice));

    if b.authUsers.None? {
      assert emails == map[] by {
        if |ids| > 0 {
          assert EmailMap(ids, []) == map[];
        }
      }
    }
  }

  // ---------------------------------------------------------------------------
  // Status badge
  // ---------------------------------------------------------------------------

  datatype Tone = Emerald | Yellow | Red | Neutral

  datatype Badge = Badge(tone: Tone, text: string)

  /** The badge of a status: each known status has its own colour, any other
      status is shown neutral; the badge always reads the status itself. */
  function BadgeOf(status: string): (b: Badge)
    ensures b.text == status
    ensures b.tone == Emerald <==> status == "active"
    ensures b.tone == Yellow <==> status == "past_due"
    ensures b.tone == Red <==> status == "canceled"
    ensures b.tone == Neutral <==> status !in {"active", "past_due", "canceled"}
  {
    if status == "active" then Badge(Emerald, "active")
    else if status == "past_due" then Badge(Yellow, "past_due")
    else if status == "canceled" then Badge(Red, "canceled")
    else Badge(Neutral, status)
  }
}
