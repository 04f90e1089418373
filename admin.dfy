/** The staff order view: status labels and colours, the one-step status
    workflow offered by each order card, the tab filters and the counters. */
module Admin {
  import opened Wrappers
  import opened Seqs

  /** One product line of an order, as loaded with it. */
  datatype OrderLine = OrderLine(product_name: string, quantity: int, price: int)

  /** An order row; `status` is free text in the backend, so any string may occur. */
  datatype Order = Order(
    id: string,
    customer_name: string,
    customer_phone: string,
    customer_address: string,
    status: string,
    total: int,
    notes: Option<string>,
    created_at: string,
    items: seq<OrderLine>)

  const Pending := "pending"
  const Confirmed := "confirmed"
  const Preparing := "preparing"
  const Delivering := "delivering"
  const Completed := "completed"
  const Cancelled := "cancelled"

  /** The six statuses the view knows about. */
  const KnownStatuses: set<string> := {Pending, Confirmed, Preparing, Delivering, Completed, Cancelled}

  // ---------------------------------------------------------------------------
  // Labels and colours

  const StatusColors: map<string, string> := map[
    Pending := "bg-yellow-500",
    Confirmed := "bg-blue-500",
    Preparing := "bg-orange-500",
    Delivering := "bg-purple-500",
    Completed := "bg-green-500",
    Cancelled := "bg-red-500"]

  const FallbackColor := "bg-gray-500"

  const StatusLabels: map<string, string> := map[
    Pending := "Pendiente",
    Confirmed := "Confirmado",
    Preparing := "En Preparación",
    Delivering := "En Camino",
    Completed := "Completado",
    Cancelled := "Cancelado"]

  /** `colors[status] || "bg-gray-500"`; every value of the record is non-empty, so
      the fallback is taken exactly when the key is missing. */
  function StatusColor(status: string): (color: string)
    ensures color != ""
    ensures color == FallbackColor <==> status !in KnownStatuses
  {
    if status in StatusColors && StatusColors[status] != "" then StatusColors[status] else FallbackColor
  }

  /** `labels[status] || status`. */
  function StatusLabel(status: string): (text: string)
    ensures status in KnownStatuses ==> text != status && text in StatusLabels.Values
    ensures status !in KnownStatuses ==> text == status
  {
    if status in StatusLabels && StatusLabels[status] != "" then StatusLabels[status] else status
  }

  /** Known statuses get their own colour, distinct from each other and from the fallback;
      every other status is shown grey. */
  lemma StatusColorCases(s: string, t: string)
    ensures s !in KnownStatuses ==> StatusColor(s) == FallbackColor
    ensures s in KnownStatuses ==> StatusColor(s) == StatusColors[s] && StatusColor(s) != FallbackColor
    ensures s in KnownStatuses && t in KnownStatuses && s != t ==> StatusColor(s) != StatusColor(t)
  {
  }

  /** Known statuses get their fixed label, distinct from each other; any other
      status is shown as it is. */
  lemma StatusLabelCases(s: string, t: string)
    ensures s !in KnownStatuses ==> StatusLabel(s) == s
    ensures s in KnownStatuses ==> StatusLabel(s) == StatusLabels[s]
    ensures s in KnownStatuses && t in KnownStatuses && s != t ==> StatusLabel(s) != StatusLabel(t)
  {
  }

  // ---------------------------------------------------------------------------
  // Status workflow

  /** The forward button of an order card, if it shows one: the status it sets. */
  function NextStatus(status: string): (next: Option<string>)
    ensures next.Some? <==> status in {Pending, Confirmed, Preparing, Delivering}
    ensures next.Some? ==> next.value in KnownStatuses && next.value != status && next.value != Cancelled
  {
    if status == Pending then Some(Confirmed)
    else if status == Confirmed then Some(Preparing)
    else if status == Preparing then Some(Delivering)
    else if status == Delivering then Some(Completed)
    else None
  }

  /** Whether the card shows the "Cancelar" button. */
  predicate CanCancel(status: string): (b: bool)
    ensures !b ==> NextStatus(status).None?
    ensures status !in KnownStatuses ==> b
  {
    status !in [Cancelled, Completed]
  }

  /** The statuses an order card's buttons set, in button order. */
  function Actions(status: string): (buttons: seq<string>)
    ensures |buttons| <= 2
    ensures forall k :: 0 <= k < |buttons| ==> buttons[k] in KnownStatuses && buttons[k] != status
  {
    (if NextStatus(status).Some? then [NextStatus(status).value] else []) +
    (if CanCancel(status) then [Cancelled] else [])
  }

  /** No button leads out of this status. */
  predicate Terminal(status: string)
  {
    status == Completed || status == Cancelled
  }

  /** Advancing is defined for exactly the four forward pairs of the workflow. */
  lemma NextStatusPairs(s: string, t: string)
    ensures NextStatus(s) == Some(t) <==>
      (s, t) in {(Pending, Confirmed), (Confirmed, Preparing), (Preparing, Delivering), (Delivering, Completed)}
  {
  }

  /** Completed, cancelled and unrecognised statuses have no forward button. */
  lemma NoAdvanceOutsideWorkflow(s: string)
    ensures NextStatus(s) == None <==> s !in {Pending, Confirmed, Preparing, Delivering}
  {
  }

  /** Cancel is offered exactly when the status is neither cancelled nor completed,
      unrecognised statuses included. */
  lemma CancelIffNotFinished(s: string)
    ensures CanCancel(s) <==> s != Cancelled && s != Completed
    ensures s !in KnownStatuses ==> Actions(s) == [Cancelled]
  {
  }

  /** The terminal statuses are exactly those without any button; a
      non-terminal status always offers cancellation as its last button. */
  lemma TerminalIffNoActions(s: string)
    ensures Terminal(s) <==> Actions(s) == []
    ensures !Terminal(s) ==> |Actions(s)| > 0 && Actions(s)[|Actions(s)| - 1] == Cancelled
  {
  }

  /** The position of a workflow status along the forward path. */
  function Rank(status: string): int
  {
    if status == Pending then 0
    else if status == Confirmed then 1
    else if status == Preparing then 2
    else if status == Delivering then 3
    else if status == Completed then 4
    else -1
  }

  /** Pressing the forward button `n` times, starting from `status`. */
  function AdvanceN(status: string, n: nat): Option<string>
    decreases n
  {
    if n == 0 then Some(status)
    else match NextStatus(status)
      case None => None
      case Some(t) => AdvanceN(t, n - 1)
  }

  /** Every forward step moves one place along the path, so a chain of `n` steps
      starts at rank at least 0 and ends at rank `Rank(s) + n`, which is at most 4. */
  lemma {:induction false} AdvanceNRank(s: string, n: nat)
    requires AdvanceN(s, n).Some?
    ensures n > 0 ==> 0 <= Rank(s)
    ensures Rank(AdvanceN(s, n).value) == Rank(s) + n
    ensures Rank(s) + n <= 4
    decreases n
  {
    if n > 0 {
      var t := NextStatus(s).value;
      AdvanceNRank(t, n - 1);
    }
  }

  /** Pressing the forward button from "pending" reaches "completed" after exactly
      four presses, passing through no other completed state, and a fifth press is
      not offered. No status allows five presses. */
  lemma PendingReachesCompletedInFour(s: string)
    ensures AdvanceN(Pending, 4) == Some(Completed)
    ensures forall k :: 0 <= k < 4 ==> AdvanceN(Pending, k) != Some(Completed)
    ensures AdvanceN(s, 5) == None
  {
  }

  /** A forward step never returns to an earlier status, so the workflow has no cycles. */
  lemma NextStatusIncreasesRank(s: string)
    requires NextStatus(s).Some?
    ensures Rank(NextStatus(s).value) == Rank(s) + 1 && 0 <= Rank(s)
  {
  }

  /** One button press from `status` may set `target`. */
  predicate Step(status: string, target: string)
  {
    target in Actions(status)
  }

  /** No button leaves a terminal status, and every non-terminal status can be
      cancelled in one press. */
  lemma TerminalStatusesStay(s: string, t: string)
    ensures Terminal(s) ==> !Step(s, t)
    ensures !Terminal(s) ==> Step(s, Cancelled)
    ensures Step(s, t) ==> t == Cancelled || NextStatus(s) == Some(t)
  {
  }

  // ---------------------------------------------------------------------------
  // Tabs and counters

  /** `filterOrders(status?)`: with no status (or the empty string, which is
      falsy) the whole list; otherwise the orders with exactly that status. */
  function FilterOrders(orders: seq<Order>, status: Option<string>): (shown: seq<Order>)
    ensures |shown| <= |orders|
    ensures status.Some? && status.value != "" ==> forall k :: 0 <= k < |shown| ==> shown[k].status == status.value
  {
    if status.None? || status.value == "" then orders
    else Filter(orders, (o: Order) => o.status == status.value)
  }

  predicate IsPending(o: Order) { o.status == Pending }
  predicate IsInProgress(o: Order) { o.status in [Confirmed, Preparing, Delivering] }
  predicate IsCompleted(o: Order) { o.status == Completed }

  /** The dashboard counters. */
  datatype Stats = Stats(total: nat, pending: nat, inProgress: nat, completed: nat)

  function ComputeStats(orders: seq<Order>): (stats: Stats)
    ensures stats.pending <= stats.total && stats.inProgress <= stats.total && stats.completed <= stats.total
  {
    Stats(|orders|, |Filter(orders, IsPending)|, |Filter(orders, IsInProgress)|, |Filter(orders, IsCompleted)|)
  }

  /** The four tabs of the order list. */
  datatype Tab = AllTab | PendingTab | ActiveTab | CompletedTab

  /** The orders listed under a tab. */
  function TabOrders(orders: seq<Order>, tab: Tab): (shown: seq<Order>)
    ensures |shown| <= |orders|
    ensures tab != AllTab ==> forall k :: 0 <= k < |shown| ==> shown[k].status in KnownStatuses - {Cancelled}
  {
    match tab
    case AllTab => FilterOrders(orders, None)
    case PendingTab => FilterOrders(orders, Some(Pending))
    case ActiveTab => Filter(orders, (o: Order) => o.status in [Confirmed, Preparing, Delivering])
    case CompletedTab => FilterOrders(orders, Some(Completed))
  }

  /** Without a status the list is returned unchanged. */
  lemma FilterOrdersWithoutStatus(orders: seq<Order>)
    ensures FilterOrders(orders, None) == orders
    ensures FilterOrders(orders, Some("")) == orders
  {
  }

  /** With a status, the result is the order-preserving subsequence of the orders
      having exactly that status: each such order is kept as often as it occurs,
      every other order is dropped. */
  lemma FilterOrdersByStatus(orders: seq<Order>, s: string, o: Order)
    requires s != ""
    ensures IsSubsequence(FilterOrders(orders, Some(s)), orders)
    ensures forall k :: 0 <= k < |FilterOrders(orders, Some(s))| ==> FilterOrders(orders, Some(s))[k].status == s
    ensures multiset(FilterOrders(orders, Some(s)))[o] == if o.status == s then multiset(orders)[o] else 0
  {
    FilterIsSubsequence(orders, (x: Order) => x.status == s);
    FilterMultiplicity(orders, (x: Order) => x.status == s, o);
  }

  /** The pending, in-progress and completed counters count disjoint classes, so
      together they never exceed the total, which is the number of orders. */
  lemma StatsPartition(orders: seq<Order>)
    ensures ComputeStats(orders).total == |orders|
    ensures ComputeStats(orders).pending + ComputeStats(orders).inProgress + ComputeStats(orders).completed
            <= ComputeStats(orders).total
  {
    FilterExclusiveBound(orders, IsPending, IsInProgress, IsCompleted);
  }

  /** Each tab other than "all" lists exactly as many orders as its counter shows,
      and the "all" tab lists `total` orders. */
  lemma TabsMatchCounters(orders: seq<Order>)
    ensures |TabOrders(orders, AllTab)| == ComputeStats(orders).total
    ensures |TabOrders(orders, PendingTab)| == ComputeStats(orders).pending
    ensures |TabOrders(orders, ActiveTab)| == ComputeStats(orders).inProgress
    ensures |TabOrders(orders, CompletedTab)| == ComputeStats(orders).completed
  {
    FilterExtensional(orders, (o: Order) => o.status == Pending, IsPending);
    FilterExtensional(orders, (o: Order) => o.status == Completed, IsCompleted);
    FilterExtensional(orders, (o: Order) => o.status in [Confirmed, Preparing, Delivering], IsInProgress);
  }

  /** The "active" tab lists exactly the orders in one of the three in-progress
      statuses, in their original order. */
  lemma ActiveTabContents(orders: seq<Order>, o: Order)
    ensures IsSubsequence(TabOrders(orders, ActiveTab), orders)
    ensures o in TabOrders(orders, ActiveTab) <==> o in orders && o.status in {Confirmed, Preparing, Delivering}
  {
    FilterIsSubsequence(orders, (x: Order) => x.status in [Confirmed, Preparing, Delivering]);
    FilterMembership(orders, (x: Order) => x.status in [Confirmed, Preparing, Delivering], o);
  }
}
