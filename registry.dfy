/**
 * The (domain, tag) -> type registrations the library decodes with, as one
 * constant table per direction: apps/shopping/init.go (domains "cart",
 * "user", "product"), apps/banking/init.go (domain "accounts") and the
 * "payments" registrations of apps/banking/banking_test.go, which are the
 * ones the payment service's envelopes are tagged with.
 */
module Registry {
  import opened Wrappers
  import opened Json
  import opened Envelopes
  import opened Payloads

  const EventTypes: map<(string, string), EventKind> := map[
    ("cart", "created") := CartCreatedKind,
    ("cart", "item_added") := CartItemAddedKind,
    ("cart", "item_removed") := CartItemRemovedKind,
    ("cart", "discount_applied") := CartDiscountAppliedKind,
    ("user", "created") := UserCreatedKind,
    ("user", "cart_added") := CartAddedToUserKind,
    ("product", "created") := ProductCreatedKind,
    ("product", "name_updated") := ProductNameUpdatedKind,
    ("product", "price_updated") := ProductPriceUpdatedKind,
    ("product", "deleted") := ProductDeletedKind,
    ("accounts", "debited") := AccountDebitedKind,
    ("accounts", "credited") := AccountCreditedKind,
    ("payments", "debited") := AccountDebitedKind,
    ("payments", "credited") := AccountCreditedKind,
    ("payments", "created") := AccountCreatedKind]

  const CommandTypes: map<(string, string), CommandKind> := map[
    ("cart", "create") := CartCreateKind,
    ("cart", "add_item") := CartItemAddKind,
    ("cart", "remove_item") := CartItemRemoveKind,
    ("cart", "apply_discount") := CartDiscountApplyKind,
    ("user", "create") := UserCreateKind,
    ("user", "add_cart") := CartAddToUserKind,
    ("product", "create") := ProductCreateKind,
    ("product", "update_name") := ProductUpdateNameKind,
    ("product", "update_price") := ProductUpdatePriceKind,
    ("product", "delete") := ProductDeleteKind,
    ("accounts", "debit") := DebitAccountKind,
    ("payments", "debit") := DebitAccountKind,
    ("payments", "credit") := CreditAccountKind,
    ("payments", "create") := CreateAccountKind]

  /** Decoding an event envelope: look up its (aggregate type, event type), then unmarshal. */
  function DecodeEvent(e: EventEnvelope): Result<Event, Error> {
    if (e.aggregateType, e.eventType) in EventTypes
    then DecodeEventAs(EventTypes[(e.aggregateType, e.eventType)], e.payload)
    else Err(UnregisteredType)
  }

  function DecodeCommand(c: CommandEnvelope): Result<Command, Error> {
    if (c.aggregate, c.commandType) in CommandTypes
    then DecodeCommandAs(CommandTypes[(c.aggregate, c.commandType)], c.payload)
    else Err(UnregisteredType)
  }

  /** Decoding fails only with a decode error, and succeeds only on a registered tag. */
  lemma DecodeErrorsAreDecodeErrors(e: EventEnvelope, c: CommandEnvelope)
    ensures DecodeEvent(e).Err? ==> IsDecodeError(DecodeEvent(e).error)
    ensures DecodeEvent(e).Ok? ==>
      (e.aggregateType, e.eventType) in EventTypes && KindOf(DecodeEvent(e).value) == EventTypes[(e.aggregateType, e.eventType)]
    ensures DecodeCommand(c).Err? ==> IsDecodeError(DecodeCommand(c).error)
    ensures DecodeCommand(c).Ok? ==>
      (c.aggregate, c.commandType) in CommandTypes && CommandKindOf(DecodeCommand(c).value) == CommandTypes[(c.aggregate, c.commandType)]
  {
  }

  /** An event encoded under a tag registered for its own type decodes back to it. */
  lemma DecodeRegisteredEvent(domain: string, id: string, tag: string, ev: Event, md: map<string, string>)
    requires (domain, tag) in EventTypes && EventTypes[(domain, tag)] == KindOf(ev)
    ensures DecodeEvent(EventEnvelope(domain, id, tag, EncodeEvent(ev), md)) == Ok(ev)
  {
    EventRoundTrip(ev);
  }

  /** A command encoded under a tag registered for its own type decodes back to it. */
  lemma DecodeRegisteredCommand(domain: string, id: string, tag: string, cmd: Command,
                                md: map<string, string>, extra: map<string, JVal>, ts: int)
    requires (domain, tag) in CommandTypes && CommandTypes[(domain, tag)] == CommandKindOf(cmd)
    ensures DecodeCommand(CommandEnvelope(domain, id, tag, EncodeCommand(cmd), md, extra, ts)) == Ok(cmd)
  {
    CommandRoundTrip(cmd);
  }

  /** In each domain that has one, the tag "create" only ever decodes to that domain's create command. */
  lemma CreateTagDecodesAsCreate(c: CommandEnvelope)
    requires c.commandType == "create" && DecodeCommand(c).Ok?
    ensures c.aggregate == "cart" ==> DecodeCommand(c).value.CartCreate?
    ensures c.aggregate == "user" ==> DecodeCommand(c).value.UserCreate?
    ensures c.aggregate == "product" ==> DecodeCommand(c).value.ProductCreate?
    ensures c.aggregate == "payments" ==> DecodeCommand(c).value.CreateAccountCommand?
  {
    assert CommandTypes[("cart", "create")] == CartCreateKind;
    assert CommandTypes[("user", "create")] == UserCreateKind;
    assert CommandTypes[("product", "create")] == ProductCreateKind;
    assert CommandTypes[("payments", "create")] == CreateAccountKind;
  }

  /** The tag "created" names three different types, one per shopping domain. */
  lemma CreatedIsKeyedByDomain()
    ensures EventTypes[("cart", "created")] == CartCreatedKind
    ensures EventTypes[("user", "created")] == UserCreatedKind
    ensures EventTypes[("product", "created")] == ProductCreatedKind
  {
  }

  /** The cart's event tags and the types they decode to. */
  lemma CartEventKinds()
    ensures ("cart", "item_added") in EventTypes && EventTypes[("cart", "item_added")] == CartItemAddedKind
    ensures ("cart", "item_removed") in EventTypes && EventTypes[("cart", "item_removed")] == CartItemRemovedKind
    ensures ("cart", "discount_applied") in EventTypes && EventTypes[("cart", "discount_applied")] == CartDiscountAppliedKind
  {
  }

  /** "create" is never an event tag. */
  lemma CreateIsNoEventTag()
    ensures forall k :: k in EventTypes ==> k.1 != "create"
  {
  }

  /** "created" is never a command tag. */
  lemma CreatedIsNoCommandTag()
    ensures forall k :: k in CommandTypes ==> k.1 != "created"
  {
  }

  /** The cart registers exactly four event tags and four command tags. */
  lemma CartRegistrations()
    ensures forall t :: ("cart", t) in EventTypes <==> t in {"created", "item_added", "item_removed", "discount_applied"}
    ensures forall t :: ("cart", t) in CommandTypes <==> t in {"create", "add_item", "remove_item", "apply_discount"}
  {
    CartEventTags();
    CartCommandTags();
  }

  lemma CartEventTags()
    ensures forall t :: ("cart", t) in EventTypes <==> t in {"created", "item_added", "item_removed", "discount_applied"}
  {
  }

  lemma CartCommandTags()
    ensures forall t :: ("cart", t) in CommandTypes <==> t in {"create", "add_item", "remove_item", "apply_discount"}
  {
  }

  /** The user registers "create" and "add_cart" commands and "created" and "cart_added" events. */
  lemma UserRegistrations()
    ensures forall t :: ("user", t) in EventTypes <==> t in {"created", "cart_added"}
    ensures forall t :: ("user", t) in CommandTypes <==> t in {"create", "add_cart"}
    ensures CommandTypes[("user", "create")] == UserCreateKind && CommandTypes[("user", "add_cart")] == CartAddToUserKind
    ensures EventTypes[("user", "created")] == UserCreatedKind && EventTypes[("user", "cart_added")] == CartAddedToUserKind
  {
    UserEventTags();
    UserCommandTags();
  }

  lemma UserEventTags()
    ensures forall t :: ("user", t) in EventTypes <==> t in {"created", "cart_added"}
    ensures EventTypes[("user", "created")] == UserCreatedKind && EventTypes[("user", "cart_added")] == CartAddedToUserKind
  {
  }

  lemma UserCommandTags()
    ensures forall t :: ("user", t) in CommandTypes <==> t in {"create", "add_cart"}
    ensures CommandTypes[("user", "create")] == UserCreateKind && CommandTypes[("user", "add_cart")] == CartAddToUserKind
  {
  }

  /** The product registers four event tags and four command tags. */
  lemma ProductRegistrations()
    ensures forall t :: ("product", t) in EventTypes <==> t in {"created", "name_updated", "price_updated", "deleted"}
    ensures forall t :: ("product", t) in CommandTypes <==> t in {"create", "update_name", "update_price", "delete"}
  {
  }

  /** Each product event tag names its own event type. */
  lemma ProductEventKinds()
    ensures EventTypes[("product", "created")] == ProductCreatedKind
    ensures EventTypes[("product", "name_updated")] == ProductNameUpdatedKind
    ensures EventTypes[("product", "price_updated")] == ProductPriceUpdatedKind
    ensures EventTypes[("product", "deleted")] == ProductDeletedKind
  {
  }
}
