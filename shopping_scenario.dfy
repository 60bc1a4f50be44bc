/**
 * The shopping scenario of apps/shopping/shopping_test.go, run against the
 * model: a cart is created, the same item is added twice and removed once,
 * and a user is created with that cart in its metadata. Each command goes
 * through its service against the log built so far and its events are
 * appended the way the command loop appends them; the checks of the test are
 * read back by replaying the cart and the user.
 *
 * The test's user payload spells its keys "name" and "email", which Go
 * matches to the fields Name and Email without regard to case; this model
 * matches keys exactly, so the payload here spells them as the fields do.
 */
module ShoppingScenario {
  import opened Wrappers
  import opened Json
  import opened Envelopes
  import opened Payloads
  import opened Registry
  import opened EventLog
  import opened ShoppingAggregates
  import opened ShoppingService

  /** One cart command through CartService.Handle, its events appended to the log. */
  function RunCart(log: seq<EventEnvelope>, c: CommandEnvelope, policy: Policy): seq<EventEnvelope> {
    Publish(log, c, CartHandle(log, c, policy).events)
  }

  /** ShoppingCartAggregate{ID: "cart-1"} after replaying its stream. */
  function ReplayedCart(log: seq<EventEnvelope>, policy: Policy): Applied<Cart> {
    Fold(CartStep, Cart("cart-1", [], 0, 0, false), Stream(log, "cart", "cart-1"), policy)
  }

  const Item := Product("item1", "", "Test Item", 10)
  const Source := map["source" := "test"]

  const CreateCart := CommandEnvelope("cart", "cart-1", "create", JObj(map["total" := JInt(0), "discount" := JInt(0)]), map[], map[], 0)
  const AddItem := CommandEnvelope("cart", "cart-1", "add_item", EncodeCommand(CartItemAdd(Item)), Source, map[], 0)
  const RemoveItem := CommandEnvelope("cart", "cart-1", "remove_item", EncodeCommand(CartItemRemove("item1")), Source, map[], 0)

  /** The product "item1" was never created, so the snapshot carries only its id. */
  const Snap := Product("item1", "", "", 0)

  const Created := EventEnvelope("cart", "cart-1", "created", CreateCart.payload, map[])
  const Added := EventEnvelope("cart", "cart-1", "item_added", AddItem.payload, Source)
  const Removed := EventEnvelope("cart", "cart-1", "item_removed", EncodeEvent(CartItemRemoved("item1", Snap)), Source)

  const K1 := [Created]
  const K2 := K1 + [Added]
  const K3 := K2 + [Added]
  const K4 := K3 + [Removed]

  lemma CommandsDecode()
    ensures DecodeCommand(CreateCart) == Ok(CartCreate(""))
    ensures DecodeCommand(AddItem) == Ok(CartItemAdd(Item))
    ensures DecodeCommand(RemoveItem) == Ok(CartItemRemove("item1"))
  {
    assert CommandTypes[("cart", "create")] == CartCreateKind;
    DecodeRegisteredCommand("cart", "cart-1", "add_item", CartItemAdd(Item), Source, map[], 0);
    DecodeRegisteredCommand("cart", "cart-1", "remove_item", CartItemRemove("item1"), Source, map[], 0);
  }

  /** The cart's "created" event decodes to CartCreated and marks the cart found, but the cart step has no case for it and reports an unknown event type. */
  lemma CreatedStep(items: seq<Product>, total: int, found: bool)
    ensures CartStep(Cart("cart-1", items, total, 0, found), Created) == Applied(Cart("cart-1", items, total, 0, true), Some(UnknownEventType))
  {
    CreatedIsKeyedByDomain();
  }

  lemma AddedStep(items: seq<Product>, total: int, found: bool)
    ensures CartStep(Cart("cart-1", items, total, 0, found), Added) == Applied(Cart("cart-1", items + [Item], total + 10, 0, true), None)
  {
    assert AddItem.payload == EncodeEvent(CartItemAdded(Item));
    CartEventKinds();
    DecodeRegisteredEvent("cart", "cart-1", "item_added", CartItemAdded(Item), Source);
  }

  lemma RemovedStep(total: int, found: bool)
    ensures CartStep(Cart("cart-1", [Item, Item], total, 0, found), Removed) == Applied(Cart("cart-1", [Item], total - 10, 0, true), None)
  {
    CartEventKinds();
    DecodeRegisteredEvent("cart", "cart-1", "item_removed", CartItemRemoved("item1", Snap), Source);
    assert FirstMatch([Item, Item], "item1") == Some(0);
    assert [Item, Item][..0] + [Item, Item][1..] == [Item];
  }

  /** One more event on a replay; under Halt nothing is applied after an error. */
  lemma FoldOneMore<S>(step: (S, EventEnvelope) -> Applied<S>, s: S, h: seq<EventEnvelope>, e: EventEnvelope, policy: Policy)
    ensures var prev := Fold(step, s, h, policy);
      Fold(step, s, h + [e], policy)
      == if policy == Halt && prev.err.Some? then prev
         else Applied(step(prev.state, e).state, FirstError(prev.err, step(prev.state, e).err))
  {
    assert (h + [e])[..|h|] == h;
  }

  /** An event of cart-1 appended to any log is the next step of the cart's replay. */
  lemma CartOneMore(h: seq<EventEnvelope>, e: EventEnvelope, policy: Policy)
    requires e.aggregateType == "cart" && e.aggregateId == "cart-1"
    ensures var prev := ReplayedCart(h, policy);
      ReplayedCart(h + [e], policy)
      == if policy == Halt && prev.err.Some? then prev
         else Applied(CartStep(prev.state, e).state, FirstError(prev.err, CartStep(prev.state, e).err))
  {
    StreamSnoc(h, e, "cart", "cart-1");
    FoldOneMore(CartStep, Cart("cart-1", [], 0, 0, false), Stream(h, "cart", "cart-1"), e, policy);
  }

  /**
   * The cart as replay leaves it after each prefix of the log. The cart's own
   * "created" event fails on replay; under Continue the items after it are
   * still applied, under Halt none are.
   */
  lemma ReplayedK1(policy: Policy)
    ensures ReplayedCart(K1, policy) == Applied(Cart("cart-1", [], 0, 0, true), Some(UnknownEventType))
  {
    CartOneMore([], Created, policy);
    CreatedStep([], 0, false);
    assert [] + [Created] == K1;
  }

  lemma ReplayedK2(policy: Policy)
    ensures policy == Continue ==> ReplayedCart(K2, policy) == Applied(Cart("cart-1", [Item], 10, 0, true), Some(UnknownEventType))
    ensures policy == Halt ==> ReplayedCart(K2, policy) == ReplayedCart(K1, policy)
  {
    ReplayedK1(policy);
    CartOneMore(K1, Added, policy);
    AddedStep([], 0, true);
    assert [] + [Item] == [Item];
  }

  lemma ReplayedK3(policy: Policy)
    ensures policy == Continue ==> ReplayedCart(K3, policy) == Applied(Cart("cart-1", [Item, Item], 20, 0, true), Some(UnknownEventType))
    ensures policy == Halt ==> ReplayedCart(K3, policy) == ReplayedCart(K1, policy)
  {
    ReplayedK2(policy);
    CartOneMore(K2, Added, policy);
    AddedStep([Item], 10, true);
    assert [Item] + [Item] == [Item, Item];
  }

  lemma ReplayedK4(policy: Policy)
    ensures policy == Continue ==> ReplayedCart(K4, policy) == Applied(Cart("cart-1", [Item], 10, 0, true), Some(UnknownEventType))
    ensures policy == Halt ==> ReplayedCart(K4, policy) == ReplayedCart(K1, policy)
  {
    ReplayedK3(policy);
    CartOneMore(K3, Removed, policy);
    if policy == Continue {
      var prev := Cart("cart-1", [Item, Item], 20, 0, true);
      assert ReplayedCart(K3, policy) == Applied(prev, Some(UnknownEventType));
      RemovedStep(20, true);
      assert ReplayedCart(K4, policy) == Applied(CartStep(prev, Removed).state, Some(UnknownEventType));
    } else {
      ReplayedK1(policy);
    }
  }

  /** The log after each command: every command is accepted and appends one event, under either policy. */
  lemma CreateStep(policy: Policy)
    ensures CartHandle([], CreateCart, policy) == Outcome([Forward(CreateCart, "cart-1", "created")], None)
    ensures RunCart([], CreateCart, policy) == K1
  {
    CommandsDecode();
    assert RebuiltCart([], CreateCart, policy) == Cart("cart-1", [], 0, 0, false);
    assert Stamp(CreateCart, Forward(CreateCart, "cart-1", "created")) == Created;
  }

  /** An add_item on a cart that exists is accepted and forwarded as it came. */
  lemma AddHandled(log: seq<EventEnvelope>, policy: Policy)
    requires RebuiltCart(log, AddItem, policy).found
    ensures CartHandle(log, AddItem, policy) == Outcome([Forward(AddItem, "cart-1", "item_added")], None)
    ensures RunCart(log, AddItem, policy) == log + [Added]
  {
    CommandsDecode();
    assert Stamp(AddItem, Forward(AddItem, "cart-1", "item_added")) == Added;
  }

  lemma AddSteps(policy: Policy)
    ensures RunCart(K1, AddItem, policy) == K2
    ensures RunCart(K2, AddItem, policy) == K3
  {
    ReplayedK1(policy);
    AddHandled(K1, policy);
    ReplayedK2(policy);
    AddHandled(K2, policy);
  }

  /** The removal as the cart decides it, before the command loop stamps it. */
  const Removal := EventEnvelope("", "cart-1", "item_removed", EncodeEvent(CartItemRemoved("item1", Snap)), Source)

  /**
   * A remove_item on a cart that exists, while product item1 has no events:
   * the snapshot carries only the id, and the removal names it.
   */
  lemma RemoveHandled(log: seq<EventEnvelope>, policy: Policy)
    requires RebuiltCart(log, RemoveItem, policy).found
    requires Stream(log, "product", "item1") == []
    ensures CartHandle(log, RemoveItem, policy) == Outcome([Removal], None)
  {
    CommandsDecode();
    assert ProductSnapshot(log, "item1", policy) == Snap;
    RemovalHandle(log, RemoveItem, "item1", policy);
    SnapshotReadsBack(RemoveItem, Snap);
    assert DecodeCommand(WithSnapshot(RemoveItem, Snap)) == DecodeCommand(RemoveItem);
  }

  /** Cart commands replay the stream of the cart they are addressed to. */
  lemma RebuiltIsReplayed(log: seq<EventEnvelope>, c: CommandEnvelope, policy: Policy)
    requires c.aggregate == "cart" && c.aggregateId == "cart-1"
    ensures RebuiltCart(log, c, policy) == ReplayedCart(log, policy).state
  {
  }

  lemma FoundBeforeRemove(policy: Policy)
    ensures RebuiltCart(K3, RemoveItem, policy).found
  {
    RebuiltIsReplayed(K3, RemoveItem, policy);
    if policy == Continue {
      ReplayedK3(policy);
    } else {
      ReplayedK1(policy);
      ReplayedK3(policy);
    }
  }

  lemma NoProductEvents()
    ensures Stream(K3, "product", "item1") == []
  {
    StreamWithoutSelector(K3, "product", "item1");
  }

  lemma RemoveStep(policy: Policy)
    ensures CartHandle(K3, RemoveItem, policy).err.None?
    ensures RunCart(K3, RemoveItem, policy) == K4
  {
    FoundBeforeRemove(policy);
    NoProductEvents();
    RemoveHandled(K3, policy);
    assert Stamp(RemoveItem, Removal) == Removed;
  }

  /**
   * The test's cart checks, under Continue: after the two additions the cart
   * holds two items worth 20, after the removal one item worth 10.
   */
  lemma {:induction false} CartScenario()
    ensures var log3 := RunCart(RunCart(RunCart([], CreateCart, Continue), AddItem, Continue), AddItem, Continue);
      var log4 := RunCart(log3, RemoveItem, Continue);
      && |ReplayedCart(log3, Continue).state.items| == 2 && ReplayedCart(log3, Continue).state.total == 20
      && |ReplayedCart(log4, Continue).state.items| == 1 && ReplayedCart(log4, Continue).state.total == 10
  {
    CreateStep(Continue);
    AddSteps(Continue);
    RemoveStep(Continue);
    ReplayedK3(Continue);
    ReplayedK4(Continue);
  }

  /**
   * Under Halt the same commands are all accepted (the failed "created"
   * event still marks the cart found), yet replay stops at that event, so
   * the cart never shows the items the test expects.
   */
  lemma {:induction false} CartScenarioUnderHalt()
    ensures var log3 := RunCart(RunCart(RunCart([], CreateCart, Halt), AddItem, Halt), AddItem, Halt);
      && log3 == K3
      && ReplayedCart(log3, Halt).state.items == []
      && ReplayedCart(log3, Halt).err == Some(UnknownEventType)
  {
    CreateStep(Halt);
    AddSteps(Halt);
    ReplayedK1(Halt);
    ReplayedK3(Halt);
  }

  // ---------------------------------------------------------------- user

  const CreateUser := CommandEnvelope("user", "user-1", "create",
    JObj(map["Name" := JStr("Test User"), "Email" := JStr("x@x.x")]), map["cart_id" := "cart-1"], map[], 0)

  lemma CreateUserDecodes()
    ensures DecodeCommand(CreateUser) == Ok(UserCreate("", "Test User", "x@x.x"))
  {
    UserRegistrations();
  }

  lemma CartIdIsPlain()
    ensures forall i :: 0 <= i < |Meta(CreateUser.metadata, "cart_id")| ==> PlainJsonChar(Meta(CreateUser.metadata, "cart_id")[i])
  {
    assert Meta(CreateUser.metadata, "cart_id") == "cart-1";
  }

  /** The user create's two events, as the user service returns them. */
  const UserEvents := [Forward(CreateUser, "", "created"), CartAddedEvent(CreateUser)]

  /** Against a log with no user-1 events, the create is accepted and its events replay to the expected user. */
  lemma UserCreateHandled(log: seq<EventEnvelope>)
    requires Stream(log, "user", "user-1") == []
    ensures UserHandle(log, CreateUser, Continue) == Outcome(UserEvents, None)
    ensures Fold(UserStep, User("user-1", "", "", [], false), StampAll(CreateUser, UserEvents), Continue)
         == Applied(User("user-1", "Test User", "x@x.x", ["cart-1"], true), None)
  {
    CreateUserDecodes();
    CartIdIsPlain();
    assert RebuiltUser(log, CreateUser, Continue) == User("user-1", "", "", [], false);
    UserCreateOutcome(log, CreateUser, "", "Test User", "x@x.x");
    UserCreateReplaysWithItsCart(log, CreateUser, "", "Test User", "x@x.x");
  }

  /** After the create's events are appended, user-1's stream is exactly those events, stamped. */
  lemma UserStreamAfterCreate(log: seq<EventEnvelope>)
    requires Stream(log, "user", "user-1") == []
    ensures Stream(Publish(log, CreateUser, UserEvents), "user", "user-1") == StampAll(CreateUser, UserEvents)
  {
    var stamped := StampAll(CreateUser, UserEvents);
    StreamAppend(log, stamped, "user", "user-1");
    StreamOfSelector(stamped, "user", "user-1");
  }

  /**
   * The test's user checks: after the create is handled against the cart's
   * log, replaying user-1 gives its id, the payload's name and email, and
   * exactly one cart, the one named in the command's metadata.
   */
  lemma {:induction false} UserScenario()
    ensures var events := UserHandle(K4, CreateUser, Continue).events;
      var log := Publish(K4, CreateUser, events);
      Fold(UserStep, User("user-1", "", "", [], false), Stream(log, "user", "user-1"), Continue)
      == Applied(User("user-1", "Test User", "x@x.x", ["cart-1"], true), None)
  {
    StreamWithoutSelector(K4, "user", "user-1");
    UserCreateHandled(K4);
    UserStreamAfterCreate(K4);
  }
}
