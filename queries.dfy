/** The read-only `index`/`show` actions: filters over the tables, id-descending
    listings and page windows. */
module Queries {
  import opened Wrappers
  import opened Domain
  import opened Listing

  /** A page of a paginated listing with its `currentPage` and `pages` headers. */
  datatype Page = Page(items: seq<nat>, currentPage: int, pages: nat)

  // ---- DeliveryStatusController.index ----------------------------------------------------

  /** The `where` of the courier listing; `deliveried` is the query-string value. */
  predicate CourierFilter(o: Order, deliverymanId: nat, deliveried: Option<string>)
  {
    && o.deliveryman_id == deliverymanId
    && o.canceled_at.None?
    && (deliveried == Some("false") ==> o.end_date.None?)
    && (deliveried == Some("true") ==> o.end_date.Some?)
  }

  /** A courier's non-canceled orders, newest id first; an unknown courier and an empty
      listing are both answered with an error. */
  function CourierDeliveries(orders: map<nat, Order>, deliverymen: map<nat, Deliveryman>,
                             deliverymanId: nat, deliveried: Option<string>): (r: Result<seq<nat>, Error>)
    ensures deliverymanId !in deliverymen ==> r == Err(DeliverymanNotFound)
    ensures deliverymanId in deliverymen ==>
      (r == Err(NothingToList) <==> forall id :: id in orders ==> !CourierFilter(orders[id], deliverymanId, deliveried))
    ensures r.Ok? <==>
      deliverymanId in deliverymen && exists id :: id in orders && CourierFilter(orders[id], deliverymanId, deliveried)
    ensures r.Err? ==> r.error == DeliverymanNotFound || r.error == NothingToList
    ensures r.Ok? ==> r.value != []
    ensures r.Ok? ==> forall id :: id in r.value <==>
      && id in orders
      && orders[id].deliveryman_id == deliverymanId
      && orders[id].canceled_at.None?
      && (deliveried == Some("false") ==> orders[id].end_date.None?)
      && (deliveried == Some("true") ==> orders[id].end_date.Some?)
    ensures r.Ok? ==> forall i, j :: 0 <= i < j < |r.value| ==> r.value[i] > r.value[j]
  {
    if deliverymanId !in deliverymen then Err(DeliverymanNotFound)
    else
      var matching := set id | id in orders && CourierFilter(orders[id], deliverymanId, deliveried);
      var rows := Descending(matching);
      if rows == [] then
        assert forall id :: id in orders && CourierFilter(orders[id], deliverymanId, deliveried) ==> id in matching;
        Err(NothingToList)
      else Ok(rows)
  }

  /** Any `deliveried` value other than "true" and "false" filters nothing on `end_date`. */
  lemma OtherDeliveriedValueIgnoresEndDate(o: Order, deliverymanId: nat, deliveried: Option<string>)
    requires deliveried != Some("true") && deliveried != Some("false")
    ensures CourierFilter(o, deliverymanId, deliveried) <==>
            CourierFilter(o, deliverymanId, None)
  {
  }

  // ---- OrderController.index / show --------------------------------------------------------

  /** All orders, or with a non-empty `q` those whose product contains it ignoring case,
      newest id first. */
  function OrderIndex(orders: map<nat, Order>, q: Option<string>): (r: seq<nat>)
    ensures forall id :: id in r <==>
      id in orders && (q.Some? && q.value != "" ==> ContainsIgnoringCase(orders[id].product, q.value))
    ensures forall i, j :: 0 <= i < j < |r| ==> r[i] > r[j]
    ensures (q.None? || q == Some("")) ==> |r| == |orders|
  {
    if q.Some? && q.value != "" then
      Descending(set id | id in orders && ContainsIgnoringCase(orders[id].product, q.value))
    else
      assert (set id | id in orders) == orders.Keys;
      Descending(orders.Keys)
  }

  /** `findByPk`: the order, or nothing. */
  function OrderShow(orders: map<nat, Order>, id: nat): (r: Option<Order>)
    ensures r.Some? <==> id in orders
    ensures r.Some? ==> r.value == orders[id]
  {
    if id in orders then Some(orders[id]) else None
  }

  // ---- DeliveryProblemController.index / show ----------------------------------------------

  /** The listing the problem queries page through. The query has no `ORDER BY`; the
      model fixes id-descending order. */
  function AllProblems(problems: map<nat, DeliveryProblem>): (r: seq<nat>)
    ensures |r| == |problems| && forall id :: id in r <==> id in problems
  {
    Descending(problems.Keys)
  }

  /** A page of at most five problems, and the page count of the whole table. */
  function ProblemIndex(problems: map<nat, DeliveryProblem>, page: int): (r: Result<Page, Error>)
    ensures r.Err? <==> page < 1
    ensures r.Err? ==> r.error == NegativeOffset
    ensures r.Ok? ==> |r.value.items| <= PageLimit && r.value.currentPage == page
    ensures r.Ok? ==> forall id :: id in r.value.items ==> id in problems
    ensures r.Ok? ==> r.value.pages == PageCount(|problems|)
    ensures r.Ok? ==> (r.value.items != [] <==> page <= r.value.pages)
    ensures r.Ok? ==> Some(r.value.items) == PageOf(AllProblems(problems), page)
  {
    var all := AllProblems(problems);
    match PageOf(all, page)
    case None => Err(NegativeOffset)
    case Some(items) =>
      PageCountCoversRows(all, page);
      Ok(Page(items, page, PageCount(|all|)))
  }

  /** The problems reported against one order. */
  function ProblemShow(problems: map<nat, DeliveryProblem>, orderId: nat): (r: seq<nat>)
    ensures forall id :: id in r <==> id in problems && problems[id].delivery_id == orderId
    ensures forall i, j :: 0 <= i < j < |r| ==> r[i] > r[j]
  {
    Descending(set id | id in problems && problems[id].delivery_id == orderId)
  }

  // ---- DeliverymanController.index ---------------------------------------------------------

  /** The couriers whose name contains `q`, ignoring case. */
  function NameMatches(deliverymen: map<nat, Deliveryman>, q: string): set<nat>
  {
    set id | id in deliverymen && ContainsIgnoringCase(deliverymen[id].name, q)
  }

  /** Without `q`: a page of all couriers, newest id first, and the page count of the table.
      With `q`: a page of the couriers whose name contains `q` ignoring case, and a page count
      taken from that page alone. */
  function DeliverymanIndex(deliverymen: map<nat, Deliveryman>, page: int, q: Option<string>): (r: Result<Page, Error>)
    ensures r.Err? <==> page < 1
    ensures r.Err? ==> r.error == NegativeOffset
    ensures r.Ok? ==> |r.value.items| <= PageLimit && r.value.currentPage == page
    ensures r.Ok? ==> forall id :: id in r.value.items ==> id in deliverymen
    ensures r.Ok? && q.Some? && q.value != "" ==>
      && Some(r.value.items) == PageOf(Descending(NameMatches(deliverymen, q.value)), page)
      && (forall id :: id in r.value.items ==> ContainsIgnoringCase(deliverymen[id].name, q.value))
      && r.value.pages == (if r.value.items == [] then 0 else 1)
    ensures r.Ok? && (q.None? || q == Some("")) ==>
      && Some(r.value.items) == PageOf(Descending(deliverymen.Keys), page)
      && r.value.pages == PageCount(|deliverymen|)
      && (r.value.items != [] <==> page <= r.value.pages)
  {
    if q.Some? && q.value != "" then SearchIndex(deliverymen, page, q.value)
    else TableIndex(deliverymen, page)
  }

  /** The search branch of `DeliverymanIndex`; the first page holds rows exactly when some
      courier matches. */
  function SearchIndex(deliverymen: map<nat, Deliveryman>, page: int, q: string): (r: Result<Page, Error>)
    ensures r.Err? <==> page < 1
    ensures r.Err? ==> r.error == NegativeOffset
    ensures r.Ok? ==> |r.value.items| <= PageLimit && r.value.currentPage == page
    ensures r.Ok? ==> Some(r.value.items) == PageOf(Descending(NameMatches(deliverymen, q)), page)
    ensures r.Ok? ==> forall id :: id in r.value.items ==> id in NameMatches(deliverymen, q)
    ensures r.Ok? ==> r.value.pages == (if r.value.items == [] then 0 else 1)
    ensures r.Ok? && page == 1 ==> (r.value.items != [] <==> NameMatches(deliverymen, q) != {})
  {
    var matching := Descending(NameMatches(deliverymen, q));
    match PageOf(matching, page)
    case None => Err(NegativeOffset)
    case Some(items) =>
      assert forall id :: id in items ==> id in matching;
      assert page == 1 && matching != [] ==> items[0] == matching[0];
      Ok(Page(items, page, PageCount(|items|)))
  }

  /** The branch of `DeliverymanIndex` without a search term. */
  function TableIndex(deliverymen: map<nat, Deliveryman>, page: int): (r: Result<Page, Error>)
    ensures r.Err? <==> page < 1
    ensures r.Err? ==> r.error == NegativeOffset
    ensures r.Ok? ==> |r.value.items| <= PageLimit && r.value.currentPage == page
    ensures r.Ok? ==> Some(r.value.items) == PageOf(Descending(deliverymen.Keys), page)
    ensures r.Ok? ==> forall id :: id in r.value.items ==> id in deliverymen
    ensures r.Ok? ==> r.value.pages == PageCount(|deliverymen|) && (r.value.items != [] <==> page <= r.value.pages)
  {
    var all := Descending(deliverymen.Keys);
    match PageOf(all, page)
    case None => Err(NegativeOffset)
    case Some(items) =>
      PageCountCoversRows(all, page);
      Ok(Page(items, page, PageCount(|all|)))
  }

  /** The search branch under-reports: with more than five matches, page 2 holds rows while
      the `pages` header of page 1 says there is one page. */
  lemma SearchPagesUndercount(deliverymen: map<nat, Deliveryman>, q: string)
    requires q != ""
    requires |NameMatches(deliverymen, q)| > PageLimit
    ensures DeliverymanIndex(deliverymen, 1, Some(q)).Ok?
    ensures DeliverymanIndex(deliverymen, 1, Some(q)).value.pages == 1
    ensures DeliverymanIndex(deliverymen, 2, Some(q)).Ok?
    ensures DeliverymanIndex(deliverymen, 2, Some(q)).value.items != []
  {
  }

  // ---- RecipientController.show ------------------------------------------------------------

  /** The seven columns of one recipient; destructuring the `null` an unknown id yields throws. */
  function RecipientShow(recipients: map<nat, Recipient>, id: nat): (r: Result<Recipient, Error>)
    ensures r.Ok? <==> id in recipients
    ensures r.Ok? ==> r.value == recipients[id]
    ensures r.Err? ==> r.error == NullDereference
  {
    if id in recipients then Ok(recipients[id]) else Err(NullDereference)
  }
}
