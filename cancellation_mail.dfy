/** The cancellation job: its queue key, the order snapshot enqueued with it, and the
    message its handler composes from that snapshot. */
module CancellationMail {
  import opened Wrappers
  import opened Domain

  /** The job's `key`. */
  const Key: string := "CancellationMail"

  const Subject: string := "Entrega cancelada"

  const Template: string := "cancellation"

  /** The deliveryman columns joined into the snapshot. */
  datatype CourierView = CourierView(name: string, email: string)

  /** The recipient columns joined into the snapshot; `name` is absent when the query
      did not select it. */
  datatype AddressView = AddressView(
    name: Option<string>, street: string, number: string, city: string, state: string, zip: string)

  /** The order as serialised into the job; a join that finds no row is `None`. */
  datatype OrderSnapshot = OrderSnapshot(
    id: nat,
    product: string,
    canceled_at: Option<int>,
    deliveryman: Option<CourierView>,
    recipient: Option<AddressView>)

  datatype Job = Job(key: string, order: OrderSnapshot)

  datatype MailContext = MailContext(
    deliveryman: string,
    clientName: Option<string>,
    product: string,
    street: string,
    number: string,
    city: string,
    state: string,
    zip: string)

  datatype Mail = Mail(to: string, subject: string, template: string, context: MailContext)

  /** The snapshot of order `id` after its cancellation, with the deliveryman and recipient
      joined; `withRecipientName` says whether the query selected the recipient's name. */
  function Snapshot(id: nat, o: Order, deliverymen: map<nat, Deliveryman>,
                    recipients: map<nat, Recipient>, withRecipientName: bool): (s: OrderSnapshot)
    ensures s.id == id && s.product == o.product && s.canceled_at == o.canceled_at
    ensures s.deliveryman.Some? <==> o.deliveryman_id in deliverymen
    ensures s.recipient.Some? <==> o.recipient_id in recipients
    ensures s.deliveryman.Some? ==>
      s.deliveryman.value == CourierView(deliverymen[o.deliveryman_id].name, deliverymen[o.deliveryman_id].email)
    ensures s.recipient.Some? ==> (s.recipient.value.name.Some? <==> withRecipientName)
    ensures s.recipient.Some? && withRecipientName ==>
      s.recipient.value.name == Some(recipients[o.recipient_id].name)
    ensures s.recipient.Some? ==>
      var a, r := s.recipient.value, recipients[o.recipient_id];
      a.street == r.street && a.number == r.number && a.city == r.city && a.state == r.state && a.zip == r.zip
  {
    OrderSnapshot(
      id, o.product, o.canceled_at,
      if o.deliveryman_id in deliverymen
      then var d := deliverymen[o.deliveryman_id]; Some(CourierView(d.name, d.email))
      else None,
      if o.recipient_id in recipients
      then var r := recipients[o.recipient_id];
        Some(AddressView(if withRecipientName then Some(r.name) else None,
                         r.street, r.number, r.city, r.state, r.zip))
      else None)
  }

  /** The `Name <email>` mailbox; name and address can be read back from it. */
  function Mailbox(name: string, email: string): (to: string)
    ensures |to| == |name| + |email| + 3
    ensures to[..|name|] == name && to[|name|..|name| + 2] == " <"
    ensures to[|name| + 2..|to| - 1] == email && to[|to| - 1] == '>'
  {
    name + " <" + email + ">"
  }

  /** The message `handle` sends; `None` when it reads a property of a join that found no
      row, which throws. */
  function Compose(s: OrderSnapshot): (m: Option<Mail>)
    ensures m.Some? <==> s.deliveryman.Some? && s.recipient.Some?
    ensures m.Some? ==> m.value.to == Mailbox(s.deliveryman.value.name, s.deliveryman.value.email)
    ensures m.Some? ==> m.value.subject == Subject && m.value.template == Template
    ensures m.Some? ==>
      var c, a := m.value.context, s.recipient.value;
      && c.deliveryman == s.deliveryman.value.name && c.product == s.product
      && c.clientName == a.name && c.street == a.street && c.number == a.number
      && c.city == a.city && c.state == a.state && c.zip == a.zip
  {
    match (s.deliveryman, s.recipient)
    case (Some(d), Some(a)) =>
      Some(Mail(Mailbox(d.name, d.email), Subject, Template,
                MailContext(d.name, a.name, s.product, a.street, a.number, a.city, a.state, a.zip)))
    case _ => None
  }

  /** The order path selects the recipient's name, so its mail greets the client by name. */
  lemma OrderPathNamesClient(id: nat, o: Order, deliverymen: map<nat, Deliveryman>, recipients: map<nat, Recipient>)
    requires o.deliveryman_id in deliverymen && o.recipient_id in recipients
    ensures Compose(Snapshot(id, o, deliverymen, recipients, true)).Some?
    ensures Compose(Snapshot(id, o, deliverymen, recipients, true)).value.context.clientName
         == Some(recipients[o.recipient_id].name)
  {
  }

  /** The problem path does not select it: that mail has no client name, and the rest of
      the message is the same as on the order path. */
  lemma ProblemPathOmitsClient(id: nat, o: Order, deliverymen: map<nat, Deliveryman>, recipients: map<nat, Recipient>)
    requires o.deliveryman_id in deliverymen && o.recipient_id in recipients
    ensures Compose(Snapshot(id, o, deliverymen, recipients, false)).Some?
    ensures var m := Compose(Snapshot(id, o, deliverymen, recipients, false)).value;
            var n := Compose(Snapshot(id, o, deliverymen, recipients, true)).value;
            m.context.clientName == None && m == n.(context := n.context.(clientName := None))
  {
  }
}
