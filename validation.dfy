/** The request-body schemas of the registries and of order/problem creation, and the
    merges `update(req.body)` performs. A field the client leaves out is `None`. */
module Validation {
  import opened Wrappers
  import opened Domain

  /** Yup's `string().required()`: present and not the empty string; also what a
      JavaScript `if (field)` accepts for a string. */
  predicate Given(s: Option<string>)
  {
    s.Some? && |s.value| > 0
  }

  /** Yup's `min(n)`: an absent value passes, a present one needs `n` characters. */
  predicate MinLength(s: Option<string>, n: nat)
  {
    s.None? || |s.value| >= n
  }

  /** Yup's `length(n)`: an absent value passes, a present one has exactly `n` characters. */
  predicate ExactLength(s: Option<string>, n: nat)
  {
    s.None? || |s.value| == n
  }

  /** Stands in for Yup's email regular expression: some `@` with text on both sides. */
  predicate EmailShaped(s: string)
  {
    exists i :: 0 < i < |s| - 1 && s[i] == '@'
  }

  /** Yup's `email()`: absent and empty values are not tested. */
  predicate EmailField(s: Option<string>)
  {
    s.None? || s.value == "" || EmailShaped(s.value)
  }

  // ---- Deliveryman registry ------------------------------------------------------------

  /** `avatar_id` is absent (`None`), `null` (`Some(None)`) or a number. */
  datatype DeliverymanBody = DeliverymanBody(
    name: Option<string>,
    email: Option<string>,
    avatar_id: Option<Option<int>>)

  /** The `store` schema: name of at least 3 characters, a required email, and an avatar id
      that is a number when given (the schema is not nullable). */
  predicate DeliverymanStoreValid(b: DeliverymanBody)
  {
    Given(b.name) && MinLength(b.name, 3) && Given(b.email) && EmailField(b.email)
    && (b.avatar_id.Some? ==> b.avatar_id.value.Some?)
  }

  /** The `update` schema: every field optional, `avatar_id` nullable. */
  predicate DeliverymanUpdateValid(b: DeliverymanBody)
  {
    MinLength(b.name, 3) && EmailField(b.email)
  }

  /** The courier `store` creates from a valid body. */
  function NewDeliveryman(b: DeliverymanBody): (d: Deliveryman)
    requires DeliverymanStoreValid(b)
    ensures |d.name| >= 3 && EmailShaped(d.email)
    ensures Some(d.name) == b.name && Some(d.email) == b.email
    ensures b.avatar_id.Some? ==> d.avatar_id == b.avatar_id.value
    ensures b.avatar_id.None? ==> d.avatar_id.None?
  {
    Deliveryman(b.name.value, b.email.value, if b.avatar_id.Some? then b.avatar_id.value else None)
  }

  /** `deliveryman.update(req.body)`: the given fields overwrite, the others stay. */
  function MergeDeliveryman(d: Deliveryman, b: DeliverymanBody): Deliveryman
  {
    Deliveryman(
      if b.name.Some? then b.name.value else d.name,
      if b.email.Some? then b.email.value else d.email,
      if b.avatar_id.Some? then b.avatar_id.value else d.avatar_id)
  }

  /** No two couriers share an email. */
  predicate EmailsUnique(m: map<nat, Deliveryman>)
  {
    forall i, j :: i in m && j in m && m[i].email == m[j].email ==> i == j
  }

  /** A body `store` accepts is one `update` accepts too. */
  lemma DeliverymanStoreRulesAreStricter(b: DeliverymanBody)
    requires DeliverymanStoreValid(b)
    ensures DeliverymanUpdateValid(b)
  {
  }

  /** Adding a courier whose email nobody has keeps emails unique. */
  lemma FreshEmailKeepsUnique(m: map<nat, Deliveryman>, id: nat, d: Deliveryman)
    requires EmailsUnique(m) && id !in m
    requires forall k :: k in m ==> m[k].email != d.email
    ensures EmailsUnique(m[id := d])
  {
  }

  /** `update` can give one courier the email of another: a valid body naming another
      courier's email breaks uniqueness. */
  lemma UpdateCanDuplicateEmail(m: map<nat, Deliveryman>, a: nat, b: nat, body: DeliverymanBody)
    requires a in m && b in m && a != b
    requires body.email == Some(m[b].email) && DeliverymanUpdateValid(body)
    ensures !EmailsUnique(m[a := MergeDeliveryman(m[a], body)])
  {
    var after := m[a := MergeDeliveryman(m[a], body)];
    assert after[a].email == after[b].email;
  }

  // ---- Recipient registry ---------------------------------------------------------------

  /** The recipient schemas use Portuguese keys: rua = street, numero = number,
      complemento = complement, estado = state, cidade = city, cep = zip. */
  datatype RecipientBody = RecipientBody(
    name: Option<string>,
    rua: Option<string>,
    numero: Option<string>,
    complemento: Option<string>,
    estado: Option<string>,
    cidade: Option<string>,
    cep: Option<string>)

  /** The `store` schema. */
  predicate RecipientStoreValid(b: RecipientBody)
  {
    && Given(b.name) && MinLength(b.name, 3)
    && Given(b.rua)
    && Given(b.numero)
    && Given(b.estado) && ExactLength(b.estado, 2)
    && Given(b.cidade)
    && Given(b.cep) && ExactLength(b.cep, 8)
  }

  /** The `when` condition of the `update` schema: `rua || numero || estado || cidade === true`;
      `cidade` is a string, never the boolean `true`, so it never counts. */
  predicate ZipDemanded(b: RecipientBody)
  {
    Given(b.rua) || Given(b.numero) || Given(b.estado)
  }

  /** The `update` schema. */
  predicate RecipientUpdateValid(b: RecipientBody)
  {
    && MinLength(b.name, 3)
    && ExactLength(b.estado, 2)
    && ExactLength(b.cep, 8)
    && (ZipDemanded(b) ==> Given(b.cep))
  }

  /** The recipient `store` creates from a valid body. */
  function NewRecipient(b: RecipientBody): (r: Recipient)
    requires RecipientStoreValid(b)
    ensures |r.name| >= 3 && |r.state| == 2 && |r.zip| == 8
    ensures r.street != "" && r.number != "" && r.city != ""
    ensures r.complement == b.complemento
    ensures Some(r.name) == b.name && Some(r.street) == b.rua && Some(r.number) == b.numero
    ensures Some(r.state) == b.estado && Some(r.city) == b.cidade && Some(r.zip) == b.cep
  {
    Recipient(b.name.value, b.rua.value, b.numero.value, b.complemento, b.estado.value, b.cidade.value, b.cep.value)
  }

  /** `recipient.update(req.body)`: the given fields overwrite, the others stay. */
  function MergeRecipient(r: Recipient, b: RecipientBody): Recipient
  {
    Recipient(
      if b.name.Some? then b.name.value else r.name,
      if b.rua.Some? then b.rua.value else r.street,
      if b.numero.Some? then b.numero.value else r.number,
      if b.complemento.Some? then b.complemento else r.complement,
      if b.estado.Some? then b.estado.value else r.state,
      if b.cidade.Some? then b.cidade.value else r.city,
      if b.cep.Some? then b.cep.value else r.zip)
  }

  /** A body `store` accepts is one `update` accepts too. */
  lemma RecipientStoreRulesAreStricter(b: RecipientBody)
    requires RecipientStoreValid(b)
    ensures RecipientUpdateValid(b)
  {
  }

  /** A changed city alone does not make `cep` required, while a changed street does. */
  lemma CityAloneDemandsNoZip(city: string, street: string)
    requires street != ""
    ensures RecipientUpdateValid(RecipientBody(None, None, None, None, None, Some(city), None))
    ensures !RecipientUpdateValid(RecipientBody(None, Some(street), None, None, None, Some(city), None))
  {
    assert Given(Some(street));
  }

  /** Updating with a valid body keeps the length rules of a valid recipient. */
  lemma MergeKeepsLengthRules(r: Recipient, b: RecipientBody)
    requires |r.name| >= 3 && |r.state| == 2 && |r.zip| == 8
    requires RecipientUpdateValid(b)
    ensures var m := MergeRecipient(r, b); |m.name| >= 3 && |m.state| == 2 && |m.zip| == 8
  {
  }

  // ---- Order and problem bodies --------------------------------------------------------

  /** The body of order `store` and `update`. */
  datatype OrderBody = OrderBody(product: Option<string>, recipient_id: Option<nat>, deliveryman_id: Option<nat>)

  /** `order.update(req.body)` with a body whose two ids both resolved: the product changes
      when given, the ids always. */
  function MergeOrder(o: Order, b: OrderBody): (r: Order)
    requires b.recipient_id.Some? && b.deliveryman_id.Some?
    ensures r.start_date == o.start_date && r.end_date == o.end_date
    ensures r.canceled_at == o.canceled_at && r.signature_id == o.signature_id
    ensures r.recipient_id == b.recipient_id.value && r.deliveryman_id == b.deliveryman_id.value
    ensures r.product == if b.product.Some? then b.product.value else o.product
  {
    o.(product := if b.product.Some? then b.product.value else o.product,
       recipient_id := b.recipient_id.value,
       deliveryman_id := b.deliveryman_id.value)
  }

  /** The order `store` schema: all three fields required. */
  predicate OrderStoreValid(b: OrderBody)
  {
    Given(b.product) && b.recipient_id.Some? && b.deliveryman_id.Some?
  }

  /** The problem `store` schema: a description of at least five characters. */
  predicate DescriptionValid(d: Option<string>)
  {
    Given(d) && MinLength(d, 5)
  }
}
