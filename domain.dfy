/** The records the controllers read and write, and the errors they answer with. */
module Domain {
  import opened Wrappers

  /** Milliseconds in a calendar day: timestamps are JavaScript millisecond instants. */
  const DAY: int := 86_400_000

  /** A parcel to be delivered. The four lifecycle columns are nullable. */
  datatype Order = Order(
    product: string,
    recipient_id: nat,
    deliveryman_id: nat,
    start_date: Option<int>,
    end_date: Option<int>,
    canceled_at: Option<int>,
    signature_id: Option<int>)

  /** A courier. */
  datatype Deliveryman = Deliveryman(name: string, email: string, avatar_id: Option<int>)

  /** An addressee; `complement` is the only optional address column. */
  datatype Recipient = Recipient(
    name: string,
    street: string,
    number: string,
    complement: Option<string>,
    state: string,
    city: string,
    zip: string)

  /** An incident reported against the order `delivery_id`. */
  datatype DeliveryProblem = DeliveryProblem(delivery_id: nat, description: string)

  /** One variant per refusal the controllers send back. */
  datatype Error =
    | ValidationFailed      // the request body does not pass the Yup schema
    | DeliverymanNotFound
    | OrderNotFound
    | RecipientNotFound
    | ProblemNotFound
    | NotOwner              // 401: the order is assigned to another deliveryman
    | AlreadyWithdrawn      // start_date is already set
    | FutureWithdrawal
    | DailyLimitReached     // 401: the daily withdraw limit
    | NotWithdrawn          // start_date is not set
    | WrongSignature
    | EndBeforeStart
    | EndInFuture
    | AlreadyCanceled
    | AlreadyDelivered
    | AlreadyRegistered     // a deliveryman with that email exists
    | NothingToList         // a courier listing came out empty
    | NegativeOffset        // the database refuses a negative OFFSET
    | NullDereference       // a property read on a record that was not found

  /** `next` is the next value of a serial sequence starting at 1, and every key of `keys`
      was handed out by it before. */
  predicate IdsBelow(keys: set<nat>, next: nat)
  {
    0 < next && forall k :: k in keys ==> 0 < k < next
  }
}
