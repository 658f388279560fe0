/** The fastfeet tables, the job queue and the clock, with one method per controller action
    that changes them. Every method checks its guards in the order the controller does; a
    refused request leaves every table and the queue as they were. */
module Store {
  import opened Wrappers
  import opened Domain
  import opened Quota
  import opened Validation
  import opened CancellationMail

  class FastFeet {
    var orders: map<nat, Order>
    var deliverymen: map<nat, Deliveryman>
    var recipients: map<nat, Recipient>
    var problems: map<nat, DeliveryProblem>
    /** Ids of the stored files (signatures and avatars). */
    var files: set<nat>
    /** Jobs handed to the queue, oldest first. */
    var queue: seq<Job>
    /** What `new Date()` returns. */
    var now: int
    /** The serial sequences that hand out ids. */
    var nextOrderId: nat
    var nextDeliverymanId: nat
    var nextRecipientId: nat
    var nextProblemId: nat

    ghost predicate Valid()
      reads this
    {
      && IdsBelow(orders.Keys, nextOrderId)
      && IdsBelow(deliverymen.Keys, nextDeliverymanId)
      && IdsBelow(recipients.Keys, nextRecipientId)
      && IdsBelow(problems.Keys, nextProblemId)
      && WithinDailyBound(orders)
    }

    /** The order exists, its courier exists, and it is assigned to that courier. */
    ghost predicate Owns(deliverymanId: nat, orderId: nat)
      reads this
    {
      deliverymanId in deliverymen && orderId in orders && orders[orderId].deliveryman_id == deliverymanId
    }

    constructor (clock: int, storedFiles: set<nat>)
      ensures Valid()
      ensures orders == map[] && deliverymen == map[] && recipients == map[] && problems == map[]
      ensures files == storedFiles && queue == [] && now == clock
    {
      orders, deliverymen, recipients, problems := map[], map[], map[], map[];
      files, queue, now := storedFiles, [], clock;
      nextOrderId, nextDeliverymanId, nextRecipientId, nextProblemId := 1, 1, 1, 1;
      new;
      forall t
        ensures DayCount(orders, t) <= DailyLimit + 1
      {
        assert PickedUpOn(orders, t) == {};
      }
    }

    /** Time passes: the clock the actions read moves to `t`. */
    method SetClock(t: int)
      requires Valid()
      modifies this`now
      ensures Valid() && now == t
    {
      now := t;
    }

    // ---- DeliveryStatusController.update ---------------------------------------------------

    /** A deliveryman withdraws an order on `startDate`. */
    method Pickup(deliverymanId: nat, orderId: nat, startDate: int) returns (r: Result<Order, Error>)
      requires Valid()
      modifies this`orders
      ensures Valid()
      ensures r.Err? ==> orders == old(orders)
      ensures deliverymanId !in deliverymen ==> r == Err(DeliverymanNotFound)
      ensures deliverymanId in deliverymen && orderId !in old(orders) ==> r == Err(OrderNotFound)
      ensures (deliverymanId in deliverymen && orderId in old(orders)
               && old(orders)[orderId].deliveryman_id != deliverymanId) ==> r == Err(NotOwner)
      ensures old(Owns(deliverymanId, orderId)) ==>
        var o := old(orders)[orderId];
        && (o.start_date.Some? ==> r == Err(AlreadyWithdrawn))
        && (o.start_date.None? && startDate > now ==> r == Err(FutureWithdrawal))
        && ((o.start_date.None? && startDate <= now && QuotaRefuses(old(orders), startDate))
              ==> r == Err(DailyLimitReached))
        && ((o.start_date.None? && startDate <= now && !QuotaRefuses(old(orders), startDate))
              ==> (r == Ok(o.(start_date := Some(startDate)))
                   && orders == WithPickup(old(orders), orderId, startDate)))
    {
      if deliverymanId !in deliverymen {
        return Err(DeliverymanNotFound);
      }
      if orderId !in orders {
        return Err(OrderNotFound);
      }
      var order := orders[orderId];
      if order.deliveryman_id != deliverymanId {
        return Err(NotOwner);
      }
      if order.start_date.Some? {
        return Err(AlreadyWithdrawn);
      }
      if startDate > now {
        return Err(FutureWithdrawal);
      }
      var count := DayCount(orders, startDate);
      if count > DailyLimit {
        return Err(DailyLimitReached);
      }
      PickupKeepsDailyBound(orders, orderId, startDate);
      orders := WithPickup(orders, orderId, startDate);
      r := Ok(order.(start_date := Some(startDate)));
    }

    // ---- EndDeliveryController.update ------------------------------------------------------

    /** A deliveryman records the delivery of an order. Once the order is found and owned,
        a set `start_date` is refused as already withdrawn and an unset one as not yet
        withdrawn, so no call gets past those two guards. */
    method Complete(deliverymanId: nat, orderId: nat, endDate: Option<int>, signatureId: Option<int>)
      returns (r: Result<Order, Error>)
      requires Valid()
      modifies this`orders
      ensures Valid()
      ensures r.Err? && orders == old(orders)
      ensures endDate.None? || signatureId.None? ==> r == Err(ValidationFailed)
      ensures endDate.Some? && signatureId.Some? ==>
        && (deliverymanId !in deliverymen ==> r == Err(DeliverymanNotFound))
        && (deliverymanId in deliverymen && orderId !in orders ==> r == Err(OrderNotFound))
        && ((deliverymanId in deliverymen && orderId in orders
             && orders[orderId].deliveryman_id != deliverymanId) ==> r == Err(NotOwner))
        && (Owns(deliverymanId, orderId) && orders[orderId].start_date.Some? ==> r == Err(AlreadyWithdrawn))
        && (Owns(deliverymanId, orderId) && orders[orderId].start_date.None? ==> r == Err(NotWithdrawn))
    {
      if endDate.None? || signatureId.None? {
        return Err(ValidationFailed);
      }
      if deliverymanId !in deliverymen {
        return Err(DeliverymanNotFound);
      }
      if orderId !in orders {
        return Err(OrderNotFound);
      }
      var order := orders[orderId];
      if order.deliveryman_id != deliverymanId {
        return Err(NotOwner);
      }
      var end, signature := endDate.value, signatureId.value;
      // `parseISO` of the row's `start_date`, which the row holds as a date object rather
      // than a string: always an invalid date, `None` here.
      var start: Option<int> := None;
      // The table as the remaining guards leave it; only the last branch would write to it.
      var written := orders;
      if order.start_date.Some? {
        r := Err(AlreadyWithdrawn);
      } else if order.start_date.None? {
        r := Err(NotWithdrawn);
      } else if signature !in files {
        r := Err(WrongSignature);
      } else if IsBefore(end, start) {
        r := Err(EndBeforeStart);
      } else if end > now {
        r := Err(EndInFuture);
      } else {
        var delivered := order.(end_date := Some(end), signature_id := Some(signature));
        written := written[orderId := delivered];
        r := Ok(delivered);
      }
      orders := written;
    }

    // ---- OrderController.store / update / delete ------------------------------------------

    /** An administrator creates an order for an existing courier and recipient. */
    method CreateOrder(body: OrderBody) returns (r: Result<nat, Error>)
      requires Valid()
      modifies this`orders, this`nextOrderId
      ensures Valid()
      ensures !OrderStoreValid(body) ==> r == Err(ValidationFailed)
      ensures OrderStoreValid(body) && body.deliveryman_id.value !in deliverymen ==> r == Err(DeliverymanNotFound)
      ensures (OrderStoreValid(body) && body.deliveryman_id.value in deliverymen
               && body.recipient_id.value !in recipients) ==> r == Err(RecipientNotFound)
      ensures r.Ok? <==> OrderStoreValid(body) && body.deliveryman_id.value in deliverymen
                         && body.recipient_id.value in recipients
      ensures r.Err? ==> orders == old(orders) && nextOrderId == old(nextOrderId)
      ensures r.Ok? ==> (r.value !in old(orders)
                         && orders == old(orders)[r.value := Order(body.product.value, body.recipient_id.value,
                                                                  body.deliveryman_id.value, None, None, None, None)])
    {
      if !OrderStoreValid(body) {
        return Err(ValidationFailed);
      }
      if body.deliveryman_id.value !in deliverymen {
        return Err(DeliverymanNotFound);
      }
      if body.recipient_id.value !in recipients {
        return Err(RecipientNotFound);
      }
      var id := nextOrderId;
      ghost var before := orders;
      orders := orders[id := Order(body.product.value, body.recipient_id.value, body.deliveryman_id.value,
                                   None, None, None, None)];
      nextOrderId := nextOrderId + 1;
      NoNewPickups(before, orders);
      r := Ok(id);
    }

    /** An administrator reassigns an order; both ids must resolve although the schema marks
        them optional. */
    method UpdateOrder(orderId: nat, body: OrderBody) returns (r: Result<Order, Error>)
      requires Valid()
      modifies this`orders
      ensures Valid()
      ensures r.Err? ==> orders == old(orders)
      ensures orderId !in old(orders) ==> r == Err(OrderNotFound)
      ensures (orderId in old(orders) && (body.deliveryman_id.None? || body.deliveryman_id.value !in deliverymen))
              ==> r == Err(DeliverymanNotFound)
      ensures (orderId in old(orders) && body.deliveryman_id.Some? && body.deliveryman_id.value in deliverymen
               && (body.recipient_id.None? || body.recipient_id.value !in recipients)) ==> r == Err(RecipientNotFound)
      ensures r.Ok? ==> (body.recipient_id.Some? && body.deliveryman_id.Some? && orderId in old(orders)
                         && r.value == MergeOrder(old(orders)[orderId], body)
                         && orders == old(orders)[orderId := r.value])
      ensures r.Ok? <==> orderId in old(orders) && body.deliveryman_id.Some? && body.deliveryman_id.value in deliverymen
                         && body.recipient_id.Some? && body.recipient_id.value in recipients
    {
      if orderId !in orders {
        return Err(OrderNotFound);
      }
      if body.deliveryman_id.None? || body.deliveryman_id.value !in deliverymen {
        return Err(DeliverymanNotFound);
      }
      if body.recipient_id.None? || body.recipient_id.value !in recipients {
        return Err(RecipientNotFound);
      }
      var updated := MergeOrder(orders[orderId], body);
      ghost var before := orders;
      orders := orders[orderId := updated];
      NoNewPickups(before, orders);
      r := Ok(updated);
    }

    /** An administrator cancels an order: `canceled_at` becomes the current time, the row
        stays, and one cancellation job is enqueued. `end_date` is not looked at. */
    method CancelOrder(orderId: nat) returns (r: Result<Order, Error>)
      requires Valid()
      modifies this`orders, this`queue
      ensures Valid()
      ensures orderId !in old(orders) ==> r == Err(OrderNotFound)
      ensures orderId in old(orders) && old(orders)[orderId].canceled_at.Some? ==> r == Err(AlreadyCanceled)
      ensures r.Err? ==> orders == old(orders) && queue == old(queue)
      ensures orderId in old(orders) && old(orders)[orderId].canceled_at.None? ==>
        var o := old(orders)[orderId].(canceled_at := Some(now));
        && r == Ok(o)
        && orders == old(orders)[orderId := o]
        && queue == old(queue) + [Job(Key, Snapshot(orderId, o, deliverymen, recipients, true))]
    {
      if orderId !in orders {
        return Err(OrderNotFound);
      }
      var order := orders[orderId];
      if order.canceled_at.Some? {
        return Err(AlreadyCanceled);
      }
      r := Cancel(orderId, order, true);
    }

    /** Sets `canceled_at` of a not-yet-canceled order and enqueues its cancellation job;
        `withRecipientName` says whether the caller's query selected the recipient's name. */
    method Cancel(orderId: nat, order: Order, withRecipientName: bool) returns (r: Result<Order, Error>)
      requires Valid()
      requires orderId in orders && orders[orderId] == order && order.canceled_at.None?
      modifies this`orders, this`queue
      ensures Valid()
      ensures var o := order.(canceled_at := Some(now));
        && r == Ok(o)
        && orders == old(orders)[orderId := o]
        && queue == old(queue) + [Job(Key, Snapshot(orderId, o, deliverymen, recipients, withRecipientName))]
    {
      var canceled := order.(canceled_at := Some(now));
      ghost var before := orders;
      orders := orders[orderId := canceled];
      NoNewPickups(before, orders);
      queue := queue + [Job(Key, Snapshot(orderId, canceled, deliverymen, recipients, withRecipientName))];
      r := Ok(canceled);
    }

    // ---- DeliveryProblemController.store / delete ------------------------------------------

    /** A deliveryman reports a problem with an order that is not delivered yet; canceled
        orders are accepted. */
    method ReportProblem(orderId: nat, description: Option<string>) returns (r: Result<nat, Error>)
      requires Valid()
      modifies this`problems, this`nextProblemId
      ensures Valid()
      ensures !DescriptionValid(description) ==> r == Err(ValidationFailed)
      ensures DescriptionValid(description) && orderId !in orders ==> r == Err(OrderNotFound)
      ensures DescriptionValid(description) && orderId in orders && orders[orderId].end_date.Some?
              ==> r == Err(AlreadyDelivered)
      ensures r.Ok? <==> DescriptionValid(description) && orderId in orders && orders[orderId].end_date.None?
      ensures r.Err? ==> problems == old(problems) && nextProblemId == old(nextProblemId)
      ensures r.Ok? ==> (r.value !in old(problems)
                         && problems == old(problems)[r.value := DeliveryProblem(orderId, description.value)])
    {
      if !DescriptionValid(description) {
        return Err(ValidationFailed);
      }
      if orderId !in orders {
        return Err(OrderNotFound);
      }
      if orders[orderId].end_date.Some? {
        return Err(AlreadyDelivered);
      }
      var id := nextProblemId;
      problems := problems[id := DeliveryProblem(orderId, description.value)];
      nextProblemId := nextProblemId + 1;
      r := Ok(id);
    }

    /** An administrator cancels the order a problem was reported against. The problem row
        stays. An order that no longer exists is dereferenced anyway, which throws. */
    method CancelByProblem(problemId: nat) returns (r: Result<Order, Error>)
      requires Valid()
      modifies this`orders, this`queue
      ensures Valid()
      ensures problemId !in problems ==> r == Err(ProblemNotFound)
      ensures problemId in problems && problems[problemId].delivery_id !in old(orders) ==> r == Err(NullDereference)
      ensures (problemId in problems && problems[problemId].delivery_id in old(orders)
               && old(orders)[problems[problemId].delivery_id].canceled_at.Some?) ==> r == Err(AlreadyCanceled)
      ensures r.Err? ==> orders == old(orders) && queue == old(queue)
      ensures (problemId in problems && problems[problemId].delivery_id in old(orders)
               && old(orders)[problems[problemId].delivery_id].canceled_at.None?) ==>
        var id := problems[problemId].delivery_id;
        var o := old(orders)[id].(canceled_at := Some(now));
        && r == Ok(o)
        && orders == old(orders)[id := o]
        && queue == old(queue) + [Job(Key, Snapshot(id, o, deliverymen, recipients, false))]
    {
      if problemId !in problems {
        return Err(ProblemNotFound);
      }
      var orderId := problems[problemId].delivery_id;
      if orderId !in orders {
        return Err(NullDereference);
      }
      var order := orders[orderId];
      if order.canceled_at.Some? {
        return Err(AlreadyCanceled);
      }
      r := Cancel(orderId, order, false);
    }

    // ---- DeliverymanController.store / update / delete -------------------------------------

    /** An administrator registers a courier whose email nobody has. */
    method RegisterDeliveryman(body: DeliverymanBody) returns (r: Result<nat, Error>)
      requires Valid()
      modifies this`deliverymen, this`nextDeliverymanId
      ensures Valid()
      ensures !DeliverymanStoreValid(body) ==> r == Err(ValidationFailed)
      ensures (DeliverymanStoreValid(body)
               && exists k :: k in old(deliverymen) && old(deliverymen)[k].email == body.email.value)
              ==> r == Err(AlreadyRegistered)
      ensures r.Ok? <==> DeliverymanStoreValid(body)
                         && forall k :: k in old(deliverymen) ==> old(deliverymen)[k].email != body.email.value
      ensures r.Err? ==> deliverymen == old(deliverymen) && nextDeliverymanId == old(nextDeliverymanId)
      ensures r.Ok? ==> r.value !in old(deliverymen) && deliverymen == old(deliverymen)[r.value := NewDeliveryman(body)]
      ensures EmailsUnique(old(deliverymen)) ==> EmailsUnique(deliverymen)
    {
      if !DeliverymanStoreValid(body) {
        return Err(ValidationFailed);
      }
      if exists k :: k in deliverymen && deliverymen[k].email == body.email.value {
        return Err(AlreadyRegistered);
      }
      var id := nextDeliverymanId;
      if EmailsUnique(deliverymen) {
        FreshEmailKeepsUnique(deliverymen, id, NewDeliveryman(body));
      }
      deliverymen := deliverymen[id := NewDeliveryman(body)];
      nextDeliverymanId := nextDeliverymanId + 1;
      r := Ok(id);
    }

    /** An administrator edits a courier; no email-uniqueness check is made. */
    method UpdateDeliveryman(id: nat, body: DeliverymanBody) returns (r: Result<Deliveryman, Error>)
      requires Valid()
      modifies this`deliverymen
      ensures Valid()
      ensures !DeliverymanUpdateValid(body) ==> r == Err(ValidationFailed)
      ensures DeliverymanUpdateValid(body) && id !in old(deliverymen) ==> r == Err(DeliverymanNotFound)
      ensures r.Err? ==> deliverymen == old(deliverymen)
      ensures DeliverymanUpdateValid(body) && id in old(deliverymen) ==>
        r == Ok(MergeDeliveryman(old(deliverymen)[id], body)) && deliverymen == old(deliverymen)[id := r.value]
    {
      if !DeliverymanUpdateValid(body) {
        return Err(ValidationFailed);
      }
      if id !in deliverymen {
        return Err(DeliverymanNotFound);
      }
      var updated := MergeDeliveryman(deliverymen[id], body);
      deliverymen := deliverymen[id := updated];
      r := Ok(updated);
    }

    /** An administrator removes a courier; orders assigned to it keep its id. */
    method DeleteDeliveryman(id: nat) returns (r: Result<nat, Error>)
      requires Valid()
      modifies this`deliverymen
      ensures Valid()
      ensures id !in old(deliverymen) ==> r == Err(DeliverymanNotFound) && deliverymen == old(deliverymen)
      ensures id in old(deliverymen) ==> r == Ok(id) && deliverymen == old(deliverymen) - {id}
    {
      if id !in deliverymen {
        return Err(DeliverymanNotFound);
      }
      deliverymen := deliverymen - {id};
      r := Ok(id);
    }

    // ---- RecipientController.store / update / delete ---------------------------------------

    /** An administrator registers a recipient. */
    method RegisterRecipient(body: RecipientBody) returns (r: Result<nat, Error>)
      requires Valid()
      modifies this`recipients, this`nextRecipientId
      ensures Valid()
      ensures r.Ok? <==> RecipientStoreValid(body)
      ensures r.Err? ==> (r.error == ValidationFailed
                          && recipients == old(recipients) && nextRecipientId == old(nextRecipientId))
      ensures r.Ok? ==> r.value !in old(recipients) && recipients == old(recipients)[r.value := NewRecipient(body)]
    {
      if !RecipientStoreValid(body) {
        return Err(ValidationFailed);
      }
      var id := nextRecipientId;
      recipients := recipients[id := NewRecipient(body)];
      nextRecipientId := nextRecipientId + 1;
      r := Ok(id);
    }

    /** An administrator edits a recipient and gets back its seven address columns. */
    method UpdateRecipient(id: nat, body: RecipientBody) returns (r: Result<Recipient, Error>)
      requires Valid()
      modifies this`recipients
      ensures Valid()
      ensures !RecipientUpdateValid(body) ==> r == Err(ValidationFailed)
      ensures RecipientUpdateValid(body) && id !in old(recipients) ==> r == Err(RecipientNotFound)
      ensures r.Err? ==> recipients == old(recipients)
      ensures RecipientUpdateValid(body) && id in old(recipients) ==>
        r == Ok(MergeRecipient(old(recipients)[id], body)) && recipients == old(recipients)[id := r.value]
    {
      if !RecipientUpdateValid(body) {
        return Err(ValidationFailed);
      }
      if id !in recipients {
        return Err(RecipientNotFound);
      }
      var updated := MergeRecipient(recipients[id], body);
      recipients := recipients[id := updated];
      r := Ok(updated);
    }

    /** An administrator deletes a recipient; an unknown id is reported as deleted too. */
    method DeleteRecipient(id: nat)
      requires Valid()
      modifies this`recipients
      ensures Valid()
      ensures recipients == old(recipients) - {id}
    {
      recipients := recipients - {id};
    }
  }

  /** `isBefore(end, start)`; an invalid start date (`None`) compares as false. */
  function IsBefore(end: int, start: Option<int>): (b: bool)
    ensures b ==> start.Some?
  {
    start.Some? && end < start.value
  }
}
