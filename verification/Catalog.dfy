/** Products: the entity, the validation of partial updates, and the guarded write. */
module Catalog {
  import opened Base
  import opened Slug

  datatype Product = Product(
    merchantId: string,
    slug: Option<string>,
    name: string,
    description: string,
    price: int,
    currency: string,
    archived: bool,
    firstPurchasedAt: Option<int>)

  datatype UpdateRequest = UpdateRequest(
    name: Option<string>,
    description: Option<string>,
    slug: Option<string>,
    price: Option<int>,
    currency: Option<string>)

  datatype InfoUpdate = InfoUpdate(name: Option<string>, description: Option<string>)

  datatype LockedAfterPurchase = LockedAfterPurchase(slug: Option<string>, price: Option<int>, currency: Option<string>)

  datatype Update = Update(info: Option<InfoUpdate>, locked: Option<LockedAfterPurchase>)

  datatype UpdateError =
    | EmptyUpdate
    | Archived
    | FieldsLocked
    | SlugRemoval
    | InvalidSlug
    | SlugConflict
    | NotFound
    | DatabaseError

  datatype Validated = Ok(update: Update) | Err(error: UpdateError)

  /** Validates a partial update against the product as it was read. */
  function NewUpdate(req: UpdateRequest, p: Product): Validated {
    var info := if req.name.Some? || req.description.Some? then Some(InfoUpdate(req.name, req.description)) else None;
    var locked :=
      if req.slug.Some? || req.price.Some? || req.currency.Some?
      then Some(LockedAfterPurchase(req.slug, req.price, req.currency)) else None;
    if info.None? && locked.None? then Err(EmptyUpdate)
    else if p.archived then Err(Archived)
    else if locked.Some? && p.firstPurchasedAt.Some? then Err(FieldsLocked)
    else if locked.Some? && locked.value.slug == Some("") then Err(SlugRemoval)
    else if locked.Some? && locked.value.slug.Some? && !ValidateSlug(locked.value.slug.value) then Err(InvalidSlug)
    else Ok(Update(info, locked))
  }

  /** The WHERE clause of the UPDATE, beyond the key. */
  predicate Guard(p: Product, u: Update) {
    !p.archived && (u.locked.Some? ==> p.firstPurchasedAt.None?)
  }

  function Or<T>(new_: Option<T>, current: T): T {
    if new_.Some? then new_.value else current
  }

  /** The SET clause: absent fields keep the values of the current row. */
  function Apply(p: Product, u: Update): Product {
    var p1 := if u.info.None? then p
              else p.(name := Or(u.info.value.name, p.name),
                      description := Or(u.info.value.description, p.description));
    if u.locked.None? then p1
    else p1.(slug := if u.locked.value.slug.Some? then u.locked.value.slug else p1.slug,
             price := Or(u.locked.value.price, p1.price), currency := Or(u.locked.value.currency, p1.currency))
  }

  /** The CHECK constraints of the table. */
  predicate CheckOk(p: Product) {
    p.price > 0 && |p.currency| == 3
  }

  /** The partial unique index on (merchant_id, slug). */
  predicate SlugTaken(products: map<Id, Product>, id: Id, p: Product) {
    exists other :: other in products && other != id && SlugClash(products[other], p)
  }

  predicate SlugClash(a: Product, b: Product) {
    a.slug.Some? && a.slug == b.slug && a.merchantId == b.merchantId
  }

  predicate Owned(products: map<Id, Product>, merchant: string, id: Id) {
    id in products && products[id].merchantId == merchant
  }

  // The guard re-checks exactly what validation depends on.

  /** An update validated against one version of a product meets the guard of another version exactly when
      validating against that version accepts it too, and then it is the same update. */
  lemma GuardIsRevalidation(req: UpdateRequest, seen: Product, current: Product)
    requires NewUpdate(req, seen).Ok?
    ensures Guard(current, NewUpdate(req, seen).update) <==> NewUpdate(req, current).Ok?
    ensures NewUpdate(req, current).Ok? ==> NewUpdate(req, current) == NewUpdate(req, seen)
    ensures Guard(seen, NewUpdate(req, seen).update)
  {}

  /** Which update an accepted request stands for, field by field. */
  lemma AcceptedUpdate(req: UpdateRequest, p: Product)
    requires NewUpdate(req, p).Ok?
    ensures var q := Apply(p, NewUpdate(req, p).update);
      && q.name == Or(req.name, p.name) && q.description == Or(req.description, p.description)
      && q.slug == (if req.slug.Some? then req.slug else p.slug)
      && q.price == Or(req.price, p.price) && q.currency == Or(req.currency, p.currency)
      && q.merchantId == p.merchantId && q.archived == p.archived && q.firstPurchasedAt == p.firstPurchasedAt
    ensures req.slug.Some? ==> ValidateSlug(req.slug.value)
    ensures p.firstPurchasedAt.Some? ==> req.slug.None? && req.price.None? && req.currency.None?
  {}
}
