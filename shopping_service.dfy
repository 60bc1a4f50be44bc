/**
 * CartService.Handle and UserService.Handle of apps/shopping/service.go.
 * The cart service looks up the current state of a product before a removal
 * and hands it to the cart as a snapshot in the command's extra metadata; the
 * user service adds a "cart_added" event to every user create.
 */
module ShoppingService {
  import opened Wrappers
  import opened Json
  import opened Envelopes
  import opened Payloads
  import opened Registry
  import opened EventLog
  import opened ShoppingAggregates

  function RebuiltCart(log: seq<EventEnvelope>, c: CommandEnvelope, policy: Policy): Cart {
    Fold(CartStep, Cart(c.aggregateId, [], 0, 0, false), Stream(log, c.aggregate, c.aggregateId), policy).state
  }

  function RebuiltProduct(log: seq<EventEnvelope>, pid: string, policy: Policy): ProductState {
    Fold(ProductStep, ProductState(pid, "", 0, false), Stream(log, "product", pid), policy).state
  }

  /** The product as the cart service snapshots it: id, name and price of the replayed product, no cart id. */
  function ProductSnapshot(log: seq<EventEnvelope>, pid: string, policy: Policy): Product {
    var p := RebuiltProduct(log, pid, policy);
    Product(p.id, "", p.name, p.price)
  }

  /** The command with its extra metadata replaced by the snapshot. */
  function WithSnapshot(c: CommandEnvelope, p: Product): CommandEnvelope {
    c.(extraMetadata := map["product" := EncodeProduct(p)])
  }

  /**
   * What CartService.Handle returns: a command that does not decode is
   * refused before the cart is consulted; a removal is decided with the
   * snapshot of the product it names; any other command as it came.
   */
  function CartHandle(log: seq<EventEnvelope>, c: CommandEnvelope, policy: Policy): (r: Outcome)
    ensures r.err.Some? <==> r.events == []
    ensures DecodeCommand(c).Err? ==> r == Outcome([], Some(DecodeCommand(c).error))
  {
    var cart := RebuiltCart(log, c, policy);
    match DecodeCommand(c)
    case Err(err) => Outcome([], Some(err))
    case Ok(CartItemRemove(pid)) =>
      var d := CartDecide(cart, WithSnapshot(c, ProductSnapshot(log, pid, policy)));
      Outcome(d.events, d.err)
    case Ok(_) =>
      var d := CartDecide(cart, c);
      Outcome(d.events, d.err)
  }

  method HandleCart(log: seq<EventEnvelope>, c: CommandEnvelope, policy: Policy) returns (events: seq<EventEnvelope>, err: Option<Error>)
    ensures Outcome(events, err) == CartHandle(log, c, policy)
  {
    var agg := new ShoppingCartAggregate(c.aggregateId);
    var _ := agg.Replay(Stream(log, c.aggregate, c.aggregateId), policy);
    var cmd := DecodeCommand(c);
    if cmd.Err? {
      return [], Some(cmd.error);
    }
    var m := c;
    if cmd.value.CartItemRemove? {
      var productAgg := new ProductAggregate(cmd.value.productId);
      var _ := productAgg.Replay(Stream(log, "product", cmd.value.productId), policy);
      m := WithSnapshot(c, Product(productAgg.ID, "", productAgg.Name, productAgg.Price));
    }
    events, err := agg.ApplyCommand(m);
  }

  /** The snapshot reaches the cart intact: the cart reads back exactly the product the service stored. */
  lemma SnapshotReadsBack(c: CommandEnvelope, p: Product)
    ensures Snapshot(WithSnapshot(c, p)) == Some(p)
  {
    ProductRoundTrip(p);
  }

  /** Every command other than a removal reaches the cart unchanged. */
  lemma OtherCommandsPassThrough(log: seq<EventEnvelope>, c: CommandEnvelope, policy: Policy)
    requires DecodeCommand(c).Ok? && !DecodeCommand(c).value.CartItemRemove?
    ensures var d := CartDecide(RebuiltCart(log, c, policy), c);
      CartHandle(log, c, policy) == Outcome(d.events, d.err)
  {
  }

  /**
   * A product that was never created (no event of its stream decodes) is
   * snapshotted with the requested id and no name or price, so the removal
   * still names the requested product.
   */
  lemma NeverCreatedProductSnapshot(log: seq<EventEnvelope>, pid: string)
    requires forall i :: 0 <= i < |Stream(log, "product", pid)| ==> DecodeEvent(Stream(log, "product", pid)[i]).Err?
    ensures ProductSnapshot(log, pid, Continue) == Product(pid, "", "", 0)
  {
    NoDecodedEventChangesNothing(ProductState(pid, "", 0, false), Stream(log, "product", pid));
  }

  lemma {:induction false} NoDecodedEventChangesNothing(s: ProductState, h: seq<EventEnvelope>)
    requires forall i :: 0 <= i < |h| ==> DecodeEvent(h[i]).Err?
    ensures Fold(ProductStep, s, h, Continue).state == s
    decreases |h|
  {
    if h != [] {
      NoDecodedEventChangesNothing(s, h[..|h| - 1]);
    }
  }

  /** A product whose stream ends in a deletion is snapshotted blank, with an empty id. */
  lemma DeletedProductSnapshot(log: seq<EventEnvelope>, pid: string, id: string)
    requires Stream(log, "product", pid) != []
    requires DecodeEvent(Stream(log, "product", pid)[|Stream(log, "product", pid)| - 1]) == Ok(ProductDeleted(id))
    ensures ProductSnapshot(log, pid, Continue) == Product("", "", "", 0)
  {
    var h := Stream(log, "product", pid);
    var h' := h[..|h| - 1];
    assert h == h' + [h[|h| - 1]];
    DeletedProductIsBlank(ProductState(pid, "", 0, false), h', h[|h| - 1], id);
  }

  /** The removal event the cart returns for snapshot `p`, once stored under the cart. */
  lemma RemovalWithSnapshot(cart: Cart, c: CommandEnvelope, pid: string, p: Product)
    requires c.aggregate == "cart" && c.commandType != "create" && cart.found
    requires DecodeCommand(c) == Ok(CartItemRemove(pid))
    ensures var d := CartDecide(cart, WithSnapshot(c, p));
      && d.err.None? && |d.events| == 1
      && DecodeEvent(Stamp(c, d.events[0])) == Ok(CartItemRemoved(p.id, p))
  {
    var e := EventEnvelope("", c.aggregateId, "item_removed", EncodeEvent(CartItemRemoved(p.id, p)), c.metadata);
    RemovalDecision(cart, c, pid, p);
    assert Stamp(c, e) == EventEnvelope("cart", c.aggregateId, "item_removed", EncodeEvent(CartItemRemoved(p.id, p)), c.metadata);
    DecodeRegisteredEvent("cart", c.aggregateId, "item_removed", CartItemRemoved(p.id, p), c.metadata);
  }

  lemma RemovalDecision(cart: Cart, c: CommandEnvelope, pid: string, p: Product)
    requires c.commandType != "create" && cart.found
    requires DecodeCommand(c) == Ok(CartItemRemove(pid))
    ensures CartDecide(cart, WithSnapshot(c, p))
         == Decision(cart, [EventEnvelope("", c.aggregateId, "item_removed", EncodeEvent(CartItemRemoved(p.id, p)), c.metadata)], None)
  {
    SnapshotReadsBack(c, p);
    assert DecodeCommand(WithSnapshot(c, p)) == DecodeCommand(c);
  }

  /** A removal is decided on the snapshot of the product it names. */
  lemma RemovalHandle(log: seq<EventEnvelope>, c: CommandEnvelope, pid: string, policy: Policy)
    requires DecodeCommand(c) == Ok(CartItemRemove(pid))
    ensures var d := CartDecide(RebuiltCart(log, c, policy), WithSnapshot(c, ProductSnapshot(log, pid, policy)));
      CartHandle(log, c, policy) == Outcome(d.events, d.err)
  {
  }

  /**
   * Removing a product whose stream ends in a deletion: the snapshot has an
   * empty id, so the removal event names the empty id, and replaying it takes
   * nothing out of a cart none of whose items has an empty id.
   */
  lemma DeletedProductRemovesNothing(log: seq<EventEnvelope>, c: CommandEnvelope, pid: string, id: string)
    requires c.aggregate == "cart" && DecodeCommand(c) == Ok(CartItemRemove(pid))
    requires RebuiltCart(log, c, Continue).found
    requires Stream(log, "product", pid) != []
    requires DecodeEvent(Stream(log, "product", pid)[|Stream(log, "product", pid)| - 1]) == Ok(ProductDeleted(id))
    requires forall j :: 0 <= j < |RebuiltCart(log, c, Continue).items| ==> RebuiltCart(log, c, Continue).items[j].id != ""
    ensures var r := CartHandle(log, c, Continue);
      var cart := RebuiltCart(log, c, Continue);
      && r.err.None? && |r.events| == 1
      && CartStep(cart, Stamp(c, r.events[0])) == Applied(cart, None)
  {
    if c.commandType == "create" {
      CreateTagDecodesAsCreate(c);
    }
    var p := Product("", "", "", 0);
    DeletedProductSnapshot(log, pid, id);
    var cart := RebuiltCart(log, c, Continue);
    RemovalWithSnapshot(cart, c, pid, p);
    RemovalHandle(log, c, pid, Continue);
    var d := CartDecide(cart, WithSnapshot(c, p));
    CartRemovalWithoutMatch(cart, Stamp(c, d.events[0]), "", p);
  }

  // ================================================================ user

  function RebuiltUser(log: seq<EventEnvelope>, c: CommandEnvelope, policy: Policy): User {
    Fold(UserStep, User(c.aggregateId, "", "", [], false), Stream(log, c.aggregate, c.aggregateId), policy).state
  }

  /** A character that can stand inside a JSON string literal as itself. */
  predicate PlainJsonChar(ch: char) {
    ch != '"' && ch != '\\' && ch >= ' '
  }

  /**
   * The payload `{"cart_id": "<id>"}` the user service writes by string
   * concatenation: an object with that id when the id needs no escaping,
   * otherwise treated as not a JSON object.
   */
  function CartIdPayload(id: string): (v: JVal)
    ensures v.JObj? <==> forall i :: 0 <= i < |id| ==> PlainJsonChar(id[i])
  {
    if forall i :: 0 <= i < |id| ==> PlainJsonChar(id[i]) then JObj(map["cart_id" := JStr(id)]) else JMalformed
  }

  /** The extra event a user create is followed by. */
  function CartAddedEvent(c: CommandEnvelope): EventEnvelope {
    EventEnvelope("", "", "cart_added", CartIdPayload(Meta(c.metadata, "cart_id")), c.metadata)
  }

  /**
   * What UserService.Handle returns: the existence gate, then the user's
   * decision; a create is always followed by a "cart_added" event, which is
   * returned even when the decision failed, together with its error.
   */
  function UserHandle(log: seq<EventEnvelope>, c: CommandEnvelope, policy: Policy): (r: Outcome)
    ensures c.commandType == "create" && r.err != Some(AlreadyExists) ==> |r.events| >= 1 && r.events[|r.events| - 1] == CartAddedEvent(c)
  {
    var u := RebuiltUser(log, c, policy);
    if u.found && c.commandType == "create" then Outcome([], Some(AlreadyExists))
    else if !u.found && c.commandType != "create" then Outcome([], Some(NotFound))
    else
      var d := UserDecide(u, c);
      if c.commandType == "create" then
        if d.state.found then Outcome([], Some(AlreadyExists))
        else Outcome(d.events + [CartAddedEvent(c)], d.err)
      else Outcome(d.events, d.err)
  }

  /**
   * The user service's existence gate, under the Continue policy: a user
   * exists exactly when some event of its stream decodes. A create is refused
   * for an existing user and every other command for a missing one, both
   * without events.
   */
  lemma UserExistenceGate(log: seq<EventEnvelope>, c: CommandEnvelope)
    ensures var h := Stream(log, c.aggregate, c.aggregateId);
      var exists_ := exists i :: 0 <= i < |h| && DecodeEvent(h[i]).Ok?;
      && (exists_ && c.commandType == "create" ==> UserHandle(log, c, Continue) == Outcome([], Some(AlreadyExists)))
      && (!exists_ && c.commandType != "create" ==> UserHandle(log, c, Continue) == Outcome([], Some(NotFound)))
  {
    var h := Stream(log, c.aggregate, c.aggregateId);
    var found := exists i :: 0 <= i < |h| && DecodeEvent(h[i]).Ok?;
    UserFoundAfterReplay(User(c.aggregateId, "", "", [], false), h);
    var agg := RebuiltUser(log, c, Continue);
    assert agg.found == found;
    if found && c.commandType == "create" {
      assert agg.found && c.commandType == "create";
    } else if !found && c.commandType != "create" {
      assert !agg.found && c.commandType != "create";
    }
  }

  /**
   * Past the gate, Handle returns what the rebuilt user decides; a create
   * gets the "cart_added" event after the decision's events, with the
   * decision's error. The second existence check after ApplyCommand never
   * fires, since a decision does not change `found`.
   */
  lemma UserPastTheGate(log: seq<EventEnvelope>, c: CommandEnvelope, policy: Policy)
    requires RebuiltUser(log, c, policy).found <==> c.commandType != "create"
    ensures var d := UserDecide(RebuiltUser(log, c, policy), c);
      UserHandle(log, c, policy)
      == if c.commandType == "create" then Outcome(d.events + [CartAddedEvent(c)], d.err) else Outcome(d.events, d.err)
  {
  }

  method HandleUser(log: seq<EventEnvelope>, c: CommandEnvelope, policy: Policy) returns (events: seq<EventEnvelope>, err: Option<Error>)
    ensures Outcome(events, err) == UserHandle(log, c, policy)
  {
    var agg := new UserAggregate(c.aggregateId);
    var _ := agg.Replay(Stream(log, c.aggregate, c.aggregateId), policy);
    if agg.found && c.commandType == "create" {
      return [], Some(AlreadyExists);
    } else if !agg.found && c.commandType != "create" {
      return [], Some(NotFound);
    }
    events := [];
    var cmdEvents;
    cmdEvents, err := agg.ApplyCommand(c);
    events := events + cmdEvents;
    if c.commandType == "create" {
      if agg.found {
        return [], Some(AlreadyExists);
      }
      events := events + [CartAddedEvent(c)];
    }
  }

  /** What Handle returns for an accepted create of a new user: the created event, then the cart_added event. */
  lemma UserCreateOutcome(log: seq<EventEnvelope>, c: CommandEnvelope, id: string, name: string, email: string)
    requires c.commandType == "create" && DecodeCommand(c) == Ok(UserCreate(id, name, email))
    requires !RebuiltUser(log, c, Continue).found
    ensures UserHandle(log, c, Continue) == Outcome([Forward(c, "", "created"), CartAddedEvent(c)], None)
  {
  }

  /** The two events of a user create, stored under the user, decode to the user and its cart. */
  lemma UserCreateEventsDecode(c: CommandEnvelope, id: string, name: string, email: string)
    requires c.aggregate == "user" && c.commandType == "create" && DecodeCommand(c) == Ok(UserCreate(id, name, email))
    requires forall i :: 0 <= i < |Meta(c.metadata, "cart_id")| ==> PlainJsonChar(Meta(c.metadata, "cart_id")[i])
    ensures DecodeEvent(Stamp(c, Forward(c, "", "created"))) == Ok(UserCreated(id, name, email))
    ensures DecodeEvent(Stamp(c, CartAddedEvent(c))) == Ok(CartAddedToUser(Meta(c.metadata, "cart_id")))
  {
    CreatedEventDecodes(c, id, name, email);
    CartAddedEventDecodes(c);
  }

  lemma CreatedEventDecodes(c: CommandEnvelope, id: string, name: string, email: string)
    requires c.aggregate == "user" && c.commandType == "create" && DecodeCommand(c) == Ok(UserCreate(id, name, email))
    ensures DecodeEvent(Stamp(c, Forward(c, "", "created"))) == Ok(UserCreated(id, name, email))
  {
    UserRegistrations();
    ForwardedUserCreate(c.payload);
  }

  lemma CartAddedEventDecodes(c: CommandEnvelope)
    requires c.aggregate == "user"
    requires forall i :: 0 <= i < |Meta(c.metadata, "cart_id")| ==> PlainJsonChar(Meta(c.metadata, "cart_id")[i])
    ensures DecodeEvent(Stamp(c, CartAddedEvent(c))) == Ok(CartAddedToUser(Meta(c.metadata, "cart_id")))
  {
    UserRegistrations();
  }

  /** Replaying two events under Continue is two steps. */
  lemma FoldTwo<S>(step: (S, EventEnvelope) -> Applied<S>, s: S, a: EventEnvelope, b: EventEnvelope)
    ensures var r1 := step(s, a);
      var r2 := step(r1.state, b);
      Fold(step, s, [a, b], Continue) == Applied(r2.state, FirstError(r1.err, r2.err))
  {
    assert [a, b][..1] == [a];
    assert [a][..0] == [];
    assert Fold(step, s, [a], Continue) == Applied(step(s, a).state, step(s, a).err);
  }

  /**
   * A user create on a new user, stored under the user, replays to the user
   * it named, with the cart from its metadata as the user's only cart.
   */
  lemma UserCreateReplaysWithItsCart(log: seq<EventEnvelope>, c: CommandEnvelope, id: string, name: string, email: string)
    requires c.aggregate == "user" && c.commandType == "create"
    requires DecodeCommand(c) == Ok(UserCreate(id, name, email))
    requires !RebuiltUser(log, c, Continue).found
    requires forall i :: 0 <= i < |Meta(c.metadata, "cart_id")| ==> PlainJsonChar(Meta(c.metadata, "cart_id")[i])
    ensures var r := UserHandle(log, c, Continue);
      && r.err.None? && |r.events| == 2
      && Fold(UserStep, User(c.aggregateId, "", "", [], false), StampAll(c, r.events), Continue)
         == Applied(User(c.aggregateId, name, email, [Meta(c.metadata, "cart_id")], true), None)
  {
    UserCreateOutcome(log, c, id, name, email);
    UserCreateEventsDecode(c, id, name, email);
    var e1, e2 := Stamp(c, Forward(c, "", "created")), Stamp(c, CartAddedEvent(c));
    assert StampAll(c, UserHandle(log, c, Continue).events) == [e1, e2];
    var s0 := User(c.aggregateId, "", "", [], false);
    FoldTwo(UserStep, s0, e1, e2);
    UserCreatedApplies(s0, e1, id, name, email);
    assert e1.aggregateId == c.aggregateId;
    assert [] + [Meta(c.metadata, "cart_id")] == [Meta(c.metadata, "cart_id")];
    CartAddedApplies(User(c.aggregateId, name, email, [], true), e2, Meta(c.metadata, "cart_id"));
  }

  lemma UserCreatedApplies(s: User, e: EventEnvelope, id: string, name: string, email: string)
    requires DecodeEvent(e) == Ok(UserCreated(id, name, email))
    ensures UserStep(s, e) == Applied(User(e.aggregateId, name, email, s.carts, true), None)
  {
  }

  lemma CartAddedApplies(s: User, e: EventEnvelope, cid: string)
    requires DecodeEvent(e) == Ok(CartAddedToUser(cid))
    ensures UserStep(s, e) == Applied(s.(carts := s.carts + [cid], found := true), None)
  {
  }

  /**
   * A user create whose payload does not decode is still answered with the
   * "cart_added" event, alongside the unknown-command error.
   */
  lemma UndecodableCreateStillAddsCart(log: seq<EventEnvelope>, c: CommandEnvelope)
    requires c.commandType == "create" && !RebuiltUser(log, c, Continue).found
    requires DecodeCommand(c).Err?
    ensures UserHandle(log, c, Continue) == Outcome([CartAddedEvent(c)], Some(UnknownCommandType))
  {
  }
}
