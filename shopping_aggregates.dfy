/**
 * The three aggregates of apps/shopping/aggregates.go: the shopping cart,
 * the user and the product. Each class's ApplyEvent is proved against a pure
 * step function on a value of its state, and ApplyCommand (cart and user)
 * against a pure decision function; the properties are lemmas about those
 * functions. Prices and discounts are integers in minor units.
 */
module ShoppingAggregates {
  import opened Wrappers
  import opened Json
  import opened Envelopes
  import opened Payloads
  import opened Registry
  import opened EventLog

  /**
   * An event as the shopping aggregates return it: no aggregate type (the
   * command loop stores it under the command's) and the command's payload and
   * metadata passed through.
   */
  function Forward(c: CommandEnvelope, id: string, tag: string): EventEnvelope {
    EventEnvelope("", id, tag, c.payload, c.metadata)
  }

  // ================================================================ cart

  datatype Cart = Cart(id: string, items: seq<Product>, total: int, discount: int, found: bool)

  /** Σ of the prices of `items`. */
  function SumPrices(items: seq<Product>): int
    decreases |items|
  {
    if items == [] then 0 else SumPrices(items[..|items| - 1]) + items[|items| - 1].price
  }

  /** The index of the first item whose id is `pid`, if any. */
  function FirstMatch(items: seq<Product>, pid: string): (r: Option<nat>)
    ensures r.Some? ==> r.value < |items| && items[r.value].id == pid
    ensures r.Some? ==> forall j :: 0 <= j < r.value ==> items[j].id != pid
    ensures r.None? ==> forall j :: 0 <= j < |items| ==> items[j].id != pid
    decreases |items|
  {
    if items == [] then None
    else if items[0].id == pid then Some(0)
    else match FirstMatch(items[1..], pid)
      case None => None
      case Some(i) => Some(i + 1)
  }

  /**
   * ShoppingCartAggregate.ApplyEvent: `found` is set as soon as the payload
   * decodes; an added item is appended and its price added to the total; a
   * removal takes out the first item with the removed id (none if there is
   * no such item) and subtracts its own price; a discount replaces the
   * discount. Any other decoded event, "created" included, is an error.
   */
  function CartStep(s: Cart, e: EventEnvelope): (r: Applied<Cart>)
    ensures r.state.found == (s.found || DecodeEvent(e).Ok?)
    ensures r.state.id == s.id
    ensures r.err.Some? ==> r.state == s.(found := r.state.found)
  {
    match DecodeEvent(e)
    case Err(err) => Applied(s, Some(err))
    case Ok(ev) =>
      var s1 := s.(found := true);
      match ev
      case CartItemAdded(p) => Applied(s1.(items := s.items + [p], total := s.total + p.price), None)
      case CartItemRemoved(pid, _) =>
        (match FirstMatch(s.items, pid)
         case None => Applied(s1, None)
         case Some(i) => Applied(s1.(items := s.items[..i] + s.items[i + 1..], total := s.total - s.items[i].price), None))
      case CartDiscountApplied(d) => Applied(s1.(discount := d), None)
      case _ => Applied(s1, Some(UnknownEventType))
  }

  /**
   * The product snapshot the cart service stores under "product" in the
   * command's extra metadata, read leniently; None where the Go code's type
   * assertion would panic (no such key, or not an object).
   */
  function Snapshot(c: CommandEnvelope): Option<Product> {
    if "product" in c.extraMetadata && c.extraMetadata["product"].JObj?
    then Some(LenientProduct(c.extraMetadata["product"].fields))
    else None
  }

  /**
   * ShoppingCartAggregate.ApplyCommand: the existence gate on the command
   * type comes first; a payload that does not decode falls through to the
   * unknown-command error. Create resets the cart; add and discount forward
   * the command's payload; remove builds a removal of the snapshot product.
   */
  function CartDecide(s: Cart, c: CommandEnvelope): (d: Decision<Cart>)
    ensures d.err.Some? <==> d.events == []
    ensures d.err.Some? ==> d.state == s
    ensures s.found && c.commandType == "create" ==> d.err == Some(AlreadyExists)
    ensures !s.found && c.commandType != "create" ==> d.err == Some(NotFound)
    ensures d.state.found == s.found
    ensures forall i :: 0 <= i < |d.events| ==> d.events[i].aggregateType == "" && d.events[i].aggregateId == c.aggregateId
  {
    if s.found && c.commandType == "create" then Reject(s, AlreadyExists)
    else if !s.found && c.commandType != "create" then Reject(s, NotFound)
    else match DecodeCommand(c)
      case Err(_) => Reject(s, UnknownCommandType)
      case Ok(CartCreate(_)) =>
        if s.found then Reject(s, AlreadyExists)
        else Decision(Cart(c.aggregateId, [], 0, 0, s.found), [Forward(c, c.aggregateId, "created")], None)
      case Ok(CartItemAdd(_)) => Decision(s, [Forward(c, c.aggregateId, "item_added")], None)
      case Ok(CartItemRemove(_)) =>
        (match Snapshot(c)
         case None => Reject(s, MissingProductSnapshot)
         case Some(p) =>
           Decision(s, [EventEnvelope("", c.aggregateId, "item_removed", EncodeEvent(CartItemRemoved(p.id, p)), c.metadata)], None))
      case Ok(CartDiscountApply(_)) => Decision(s, [Forward(c, c.aggregateId, "discount_applied")], None)
      case Ok(_) => Reject(s, UnknownCommandType)
  }

  class ShoppingCartAggregate {
    var ID: string
    var Items: seq<Product>
    var Total: int
    var Discount: int
    var found: bool

    function State(): Cart
      reads this
    {
      Cart(ID, Items, Total, Discount, found)
    }

    constructor (id: string)
      ensures State() == Cart(id, [], 0, 0, false)
    {
      ID, Items, Total, Discount, found := id, [], 0, 0, false;
    }

    method ApplyEvent(e: EventEnvelope) returns (err: Option<Error>)
      modifies this
      ensures Applied(State(), err) == CartStep(old(State()), e)
    {
      var ev := DecodeEvent(e);
      if ev.Err? {
        return Some(ev.error);
      }
      found := true;
      err := None;
      match ev.value {
        case CartItemAdded(p) =>
          Items := Items + [p];
          Total := Total + p.price;
        case CartItemRemoved(pid, _) =>
          var items := Items;
          var i := 0;
          while i < |items| && items[i].id != pid
            invariant 0 <= i <= |items|
            invariant forall j :: 0 <= j < i ==> items[j].id != pid
          {
            i := i + 1;
          }
          if i < |items| {
            Total := Total - items[i].price;
            Items := items[..i] + items[i + 1..];
          }
        case CartDiscountApplied(d) =>
          Discount := d;
        case _ =>
          err := Some(UnknownEventType);
      }
    }

    /** The library's replay of this aggregate's stream. */
    method Replay(history: seq<EventEnvelope>, policy: Policy) returns (err: Option<Error>)
      modifies this
      ensures Applied(State(), err) == Fold(CartStep, old(State()), history, policy)
    {
      ghost var s0 := State();
      var i := 0;
      err := None;
      while i < |history| && !(policy == Halt && err.Some?)
        invariant 0 <= i <= |history|
        invariant Applied(State(), err) == Fold(CartStep, s0, history[..i], policy)
      {
        FoldPrefixStep(CartStep, s0, history, i, policy);
        var e := ApplyEvent(history[i]);
        err := FirstError(err, e);
        i := i + 1;
      }
      if i < |history| {
        HaltedFoldIsStable(CartStep, s0, history, i);
      } else {
        assert history[..i] == history;
      }
    }

    method ApplyCommand(c: CommandEnvelope) returns (events: seq<EventEnvelope>, err: Option<Error>)
      modifies this
      ensures Decision(State(), events, err) == CartDecide(old(State()), c)
    {
      if found && c.commandType == "create" {
        return [], Some(AlreadyExists);
      } else if !found && c.commandType != "create" {
        return [], Some(NotFound);
      }
      var cmd := DecodeCommand(c);
      if cmd.Err? {
        return [], Some(UnknownCommandType);
      }
      match cmd.value {
        case CartCreate(_) =>
          if found {
            return [], Some(AlreadyExists);
          }
          ID, Items, Total, Discount := c.aggregateId, [], 0, 0;
          events, err := [Forward(c, c.aggregateId, "created")], None;
        case CartItemAdd(_) =>
          events, err := [Forward(c, c.aggregateId, "item_added")], None;
        case CartItemRemove(_) =>
          if "product" in c.extraMetadata && c.extraMetadata["product"].JObj? {
            var p := LenientProduct(c.extraMetadata["product"].fields);
            events := [EventEnvelope("", c.aggregateId, "item_removed", EncodeEvent(CartItemRemoved(p.id, p)), c.metadata)];
            err := None;
          } else {
            events, err := [], Some(MissingProductSnapshot);
          }
        case CartDiscountApply(_) =>
          events, err := [Forward(c, c.aggregateId, "discount_applied")], None;
        case _ =>
          events, err := [], Some(UnknownCommandType);
      }
    }
  }

  // ---------------------------------------------------------------- cart lemmas

  lemma {:induction false} SumPricesAppend(a: seq<Product>, b: seq<Product>)
    ensures SumPrices(a + b) == SumPrices(a) + SumPrices(b)
    decreases |b|
  {
    if b == [] {
      assert a + b == a;
    } else {
      var b' := b[..|b| - 1];
      assert (a + b)[..|a + b| - 1] == a + b';
      SumPricesAppend(a, b');
    }
  }

  /** Taking item i out of a sequence takes its price out of the sum. */
  lemma SumPricesRemove(items: seq<Product>, i: nat)
    requires i < |items|
    ensures SumPrices(items[..i] + items[i + 1..]) == SumPrices(items) - items[i].price
  {
    var front, x, back := items[..i], items[i], items[i + 1..];
    assert items == (front + [x]) + back;
    assert (front + [x])[..|front + [x]| - 1] == front;
    SumPricesAppend(front + [x], back);
    SumPricesAppend(front, back);
  }

  predicate TotalIsSum(s: Cart) {
    s.total == SumPrices(s.items)
  }

  /** Every event keeps the cart's total equal to the sum of its items' prices. */
  lemma CartStepKeepsTotal(s: Cart, e: EventEnvelope)
    requires TotalIsSum(s)
    ensures TotalIsSum(CartStep(s, e).state)
  {
    var r := CartStep(s, e);
    if DecodeEvent(e).Ok? && DecodeEvent(e).value.CartItemAdded? {
      var p := DecodeEvent(e).value.product;
      assert r.state.items == s.items + [p] && r.state.total == s.total + p.price;
      SumPricesAppend(s.items, [p]);
      assert SumPrices([p]) == SumPrices([]) + p.price;
    } else if DecodeEvent(e).Ok? && DecodeEvent(e).value.CartItemRemoved? {
      var m := FirstMatch(s.items, DecodeEvent(e).value.productId);
      if m.Some? {
        assert r.state.items == s.items[..m.value] + s.items[m.value + 1..] && r.state.total == s.total - s.items[m.value].price;
        SumPricesRemove(s.items, m.value);
      } else {
        assert r.state.items == s.items && r.state.total == s.total;
      }
    } else {
      assert r.state.items == s.items && r.state.total == s.total;
    }
  }

  /** A cart rebuilt from any stream, under either policy, has total == Σ prices of its items. */
  lemma ReplayedCartTotal(id: string, h: seq<EventEnvelope>, policy: Policy)
    ensures TotalIsSum(Fold(CartStep, Cart(id, [], 0, 0, false), h, policy).state)
  {
    forall x, e | TotalIsSum(x) ensures TotalIsSum(CartStep(x, e).state) {
      CartStepKeepsTotal(x, e);
    }
    FoldPreserves(CartStep, TotalIsSum, Cart(id, [], 0, 0, false), h, policy);
  }

  /** A removal whose id no item carries leaves the items as they were. */
  lemma CartRemovalWithoutMatch(s: Cart, e: EventEnvelope, pid: string, p: Product)
    requires DecodeEvent(e) == Ok(CartItemRemoved(pid, p))
    requires forall j :: 0 <= j < |s.items| ==> s.items[j].id != pid
    ensures CartStep(s, e) == Applied(s.(found := true), None)
  {
  }

  /**
   * Otherwise it takes out exactly one item, the first with the removed id,
   * and keeps the order of the rest.
   */
  lemma CartRemovalOfFirstMatch(s: Cart, e: EventEnvelope, pid: string, p: Product, i: nat)
    requires DecodeEvent(e) == Ok(CartItemRemoved(pid, p))
    requires i < |s.items| && s.items[i].id == pid
    requires forall j :: 0 <= j < i ==> s.items[j].id != pid
    ensures CartStep(s, e).state.items == s.items[..i] + s.items[i + 1..]
    ensures multiset(CartStep(s, e).state.items) == multiset(s.items) - multiset{s.items[i]}
  {
    assert FirstMatch(s.items, pid) == Some(i);
    MultisetWithout(s.items, i);
  }

  lemma MultisetWithout<T>(xs: seq<T>, i: nat)
    requires i < |xs|
    ensures multiset(xs[..i] + xs[i + 1..]) == multiset(xs) - multiset{xs[i]}
  {
    assert xs == xs[..i] + [xs[i]] + xs[i + 1..];
  }

  /**
   * The cart's own "created" event is refused when replayed: it marks the
   * cart found and returns an unknown-event error, changing nothing else.
   */
  lemma CartCreatedIsRefusedOnReplay(s: Cart, e: EventEnvelope, cid: string)
    requires DecodeEvent(e) == Ok(CartCreated(cid))
    ensures CartStep(s, e) == Applied(s.(found := true), Some(UnknownEventType))
  {
  }

  /**
   * Deciding then replaying agree: once the command loop stores an accepted
   * add or discount under the cart, replaying that event adds the item (and
   * its price) or sets the discount the command carried.
   */
  lemma CartDecisionsReplay(s: Cart, c: CommandEnvelope)
    requires c.aggregate == "cart" && CartDecide(s, c).err.None? && s.found
    ensures DecodeCommand(c).Ok? && DecodeCommand(c).value.CartItemAdd? ==>
      var p := DecodeCommand(c).value.product;
      CartStep(s, Stamp(c, CartDecide(s, c).events[0])) == Applied(s.(items := s.items + [p], total := s.total + p.price), None)
    ensures DecodeCommand(c).Ok? && DecodeCommand(c).value.CartDiscountApply? ==>
      var d := DecodeCommand(c).value.discount;
      CartStep(s, Stamp(c, CartDecide(s, c).events[0])) == Applied(s.(discount := d), None)
  {
    var cmd := DecodeCommand(c);
    if cmd.Ok? && cmd.value.CartItemAdd? {
      assert CartDecide(s, c).events[0] == Forward(c, c.aggregateId, "item_added");
      AddReplays(s, c, cmd.value.product);
    } else if cmd.Ok? && cmd.value.CartDiscountApply? {
      assert CartDecide(s, c).events[0] == Forward(c, c.aggregateId, "discount_applied");
      DiscountReplays(s, c, cmd.value.discount);
    }
  }

  lemma AddReplays(s: Cart, c: CommandEnvelope, p: Product)
    requires c.aggregate == "cart" && DecodeCommand(c) == Ok(CartItemAdd(p))
    ensures CartStep(s, Stamp(c, Forward(c, c.aggregateId, "item_added"))) == Applied(s.(found := true, items := s.items + [p], total := s.total + p.price), None)
  {
    assert CommandTypes[("cart", c.commandType)] == CartItemAddKind;
    CartEventKinds();
    ForwardedAdd(c.payload);
  }

  lemma DiscountReplays(s: Cart, c: CommandEnvelope, d: int)
    requires c.aggregate == "cart" && DecodeCommand(c) == Ok(CartDiscountApply(d))
    ensures CartStep(s, Stamp(c, Forward(c, c.aggregateId, "discount_applied"))) == Applied(s.(found := true, discount := d), None)
  {
    assert CommandTypes[("cart", c.commandType)] == CartDiscountApplyKind;
    CartEventKinds();
    ForwardedDiscount(c.payload);
  }

  /**
   * An accepted create, add or discount command returns exactly one event
   * under its own tag, addressed to the cart, carrying the command's payload
   * and metadata unchanged; create also resets the items, total and discount.
   */
  lemma CartCommandsForwardPayload(s: Cart, c: CommandEnvelope)
    requires CartDecide(s, c).err.None? && DecodeCommand(c).Ok?
    requires !DecodeCommand(c).value.CartItemRemove?
    ensures var d := CartDecide(s, c);
      var cmd := DecodeCommand(c).value;
      && |d.events| == 1
      && d.events[0] == EventEnvelope("", c.aggregateId, d.events[0].eventType, c.payload, c.metadata)
      && (cmd.CartCreate? ==> d.events[0].eventType == "created" && d.state == Cart(c.aggregateId, [], 0, 0, false))
      && (cmd.CartItemAdd? ==> d.events[0].eventType == "item_added" && d.state == s)
      && (cmd.CartDiscountApply? ==> d.events[0].eventType == "discount_applied" && d.state == s)
  {
  }

  /** An accepted removal's event, once stored under the cart, decodes to the snapshot it was built from. */
  lemma CartRemovalEventDecodes(s: Cart, c: CommandEnvelope)
    requires c.aggregate == "cart" && CartDecide(s, c).err.None?
    requires DecodeCommand(c).Ok? && DecodeCommand(c).value.CartItemRemove?
    ensures Snapshot(c).Some?
    ensures DecodeEvent(Stamp(c, CartDecide(s, c).events[0])) == Ok(CartItemRemoved(Snapshot(c).value.id, Snapshot(c).value))
  {
    var p := Snapshot(c).value;
    var e := EventEnvelope("", c.aggregateId, "item_removed", EncodeEvent(CartItemRemoved(p.id, p)), c.metadata);
    assert CartDecide(s, c).events == [e];
    assert Stamp(c, e) == e.(aggregateType := "cart");
    CartEventKinds();
    DecodeRegisteredEvent("cart", c.aggregateId, "item_removed", CartItemRemoved(p.id, p), c.metadata);
  }

  // ================================================================ user

  datatype User = User(id: string, name: string, email: string, carts: seq<string>, found: bool)

  /**
   * UserAggregate.ApplyEvent: `found` is set once the payload decodes; a
   * created event takes the id from the envelope and name and email from the
   * payload; a cart_added event appends its cart id.
   */
  function UserStep(s: User, e: EventEnvelope): (r: Applied<User>)
    ensures r.state.found == (s.found || DecodeEvent(e).Ok?)
    ensures r.err.Some? ==> r.state == s.(found := r.state.found)
  {
    match DecodeEvent(e)
    case Err(err) => Applied(s, Some(err))
    case Ok(ev) =>
      var s1 := s.(found := true);
      match ev
      case UserCreated(_, name, email) => Applied(s1.(id := e.aggregateId, name := name, email := email), None)
      case CartAddedToUser(cid) => Applied(s1.(carts := s.carts + [cid]), None)
      case _ => Applied(s1, Some(UnknownEventType))
  }

  /**
   * UserAggregate.ApplyCommand: the same existence gate as the cart. Create
   * records the user and returns a "created" event with no aggregate id;
   * add_cart returns a "cart_added" event addressed to the cart id found in
   * the command's metadata.
   */
  function UserDecide(s: User, c: CommandEnvelope): (d: Decision<User>)
    ensures d.err.Some? <==> d.events == []
    ensures d.err.Some? ==> d.state == s
    ensures s.found && c.commandType == "create" ==> d.err == Some(AlreadyExists)
    ensures !s.found && c.commandType != "create" ==> d.err == Some(NotFound)
    ensures d.state.found == s.found && d.state.carts == s.carts
  {
    if s.found && c.commandType == "create" then Reject(s, AlreadyExists)
    else if !s.found && c.commandType != "create" then Reject(s, NotFound)
    else match DecodeCommand(c)
      case Err(_) => Reject(s, UnknownCommandType)
      case Ok(UserCreate(_, name, email)) =>
        if s.found then Reject(s, AlreadyExists)
        else Decision(s.(id := c.aggregateId, name := name, email := email), [Forward(c, "", "created")], None)
      case Ok(CartAddToUser(_)) => Decision(s, [Forward(c, Meta(c.metadata, "cart_id"), "cart_added")], None)
      case Ok(_) => Reject(s, UnknownCommandType)
  }

  class UserAggregate {
    var ID: string
    var Name: string
    var Email: string
    var Carts: seq<string>
    var found: bool

    function State(): User
      reads this
    {
      User(ID, Name, Email, Carts, found)
    }

    constructor (id: string)
      ensures State() == User(id, "", "", [], false)
    {
      ID, Name, Email, Carts, found := id, "", "", [], false;
    }

    method ApplyEvent(e: EventEnvelope) returns (err: Option<Error>)
      modifies this
      ensures Applied(State(), err) == UserStep(old(State()), e)
    {
      var ev := DecodeEvent(e);
      if ev.Err? {
        return Some(ev.error);
      }
      found := true;
      err := None;
      match ev.value {
        case UserCreated(_, name, email) =>
          ID, Name, Email := e.aggregateId, name, email;
        case CartAddedToUser(cid) =>
          Carts := Carts + [cid];
        case _ =>
          err := Some(UnknownEventType);
      }
    }

    /** The library's replay of this aggregate's stream. */
    method Replay(history: seq<EventEnvelope>, policy: Policy) returns (err: Option<Error>)
      modifies this
      ensures Applied(State(), err) == Fold(UserStep, old(State()), history, policy)
    {
      ghost var s0 := State();
      var i := 0;
      err := None;
      while i < |history| && !(policy == Halt && err.Some?)
        invariant 0 <= i <= |history|
        invariant Applied(State(), err) == Fold(UserStep, s0, history[..i], policy)
      {
        FoldPrefixStep(UserStep, s0, history, i, policy);
        var e := ApplyEvent(history[i]);
        err := FirstError(err, e);
        i := i + 1;
      }
      if i < |history| {
        HaltedFoldIsStable(UserStep, s0, history, i);
      } else {
        assert history[..i] == history;
      }
    }

    method ApplyCommand(c: CommandEnvelope) returns (events: seq<EventEnvelope>, err: Option<Error>)
      modifies this
      ensures Decision(State(), events, err) == UserDecide(old(State()), c)
    {
      if found && c.commandType == "create" {
        return [], Some(AlreadyExists);
      } else if !found && c.commandType != "create" {
        return [], Some(NotFound);
      }
      var cmd := DecodeCommand(c);
      if cmd.Err? {
        return [], Some(UnknownCommandType);
      }
      match cmd.value {
        case UserCreate(_, name, email) =>
          if found {
            return [], Some(AlreadyExists);
          }
          ID, Name, Email := c.aggregateId, name, email;
          events, err := [Forward(c, "", "created")], None;
        case CartAddToUser(_) =>
          events, err := [Forward(c, Meta(c.metadata, "cart_id"), "cart_added")], None;
        case _ =>
          events, err := [], Some(UnknownCommandType);
      }
    }
  }

  // ---------------------------------------------------------------- user lemmas

  /** Every event of `h` decodes to a cart being added to the user. */
  predicate AllCartAdds(h: seq<EventEnvelope>) {
    forall i :: 0 <= i < |h| ==> DecodeEvent(h[i]).Ok? && DecodeEvent(h[i]).value.CartAddedToUser?
  }

  /** The cart ids those events carry, in log order. */
  function CartIds(h: seq<EventEnvelope>): (r: seq<string>)
    requires AllCartAdds(h)
    ensures |r| == |h|
    ensures forall i :: 0 <= i < |h| ==> r[i] == DecodeEvent(h[i]).value.cartId
  {
    seq(|h|, i requires 0 <= i < |h| => DecodeEvent(h[i]).value.cartId)
  }

  /** Replaying cart_added events appends their cart ids to the user's carts, in order, with no error. */
  lemma {:induction false} UserCartsInOrder(s: User, h: seq<EventEnvelope>, policy: Policy)
    requires AllCartAdds(h)
    ensures Fold(UserStep, s, h, policy) == Applied(s.(carts := s.carts + CartIds(h), found := s.found || h != []), None)
    decreases |h|
  {
    if h == [] {
      assert s.carts + CartIds(h) == s.carts;
    } else {
      var n := |h| - 1;
      assert AllCartAdds(h[..n]);
      UserCartsInOrder(s, h[..n], policy);
      var prev := s.(carts := s.carts + CartIds(h[..n]), found := s.found || h[..n] != []);
      var cid := DecodeEvent(h[n]).value.cartId;
      assert UserStep(prev, h[n]) == Applied(prev.(carts := prev.carts + [cid], found := true), None);
      assert CartIds(h) == CartIds(h[..n]) + [cid];
      assert s.carts + CartIds(h[..n]) + [cid] == s.carts + CartIds(h);
    }
  }

  /**
   * A user's create, once stored under the command's user, replays to the
   * user the decision recorded: id from the command, name and email from the
   * payload.
   */
  lemma UserCreateReplays(s: User, c: CommandEnvelope)
    requires c.aggregate == "user" && UserDecide(s, c).err.None?
    requires DecodeCommand(c).Ok? && DecodeCommand(c).value.UserCreate?
    ensures var e := Stamp(c, UserDecide(s, c).events[0]);
      && e.aggregateType == "user" && e.aggregateId == c.aggregateId
      && UserStep(s, e) == Applied(UserDecide(s, c).state.(found := true), None)
  {
    UserRegistrations();
    ForwardedUserCreate(c.payload);
  }

  /**
   * add_cart is addressed to the cart id in the metadata, not to the user;
   * and because the command marshals its id under "CartID" while the event
   * reads "cart_id", a builder-made payload replays as an empty cart id.
   */
  lemma AddCartEventLosesCartId(s: User, c: CommandEnvelope, cid: string)
    requires c.aggregate == "user" && c.commandType == "add_cart" && s.found
    requires c.payload == EncodeCommand(CartAddToUser(cid))
    ensures var d := UserDecide(s, c);
      && d.err.None? && |d.events| == 1
      && Stamp(c, d.events[0]).aggregateId == (if Meta(c.metadata, "cart_id") == "" then c.aggregateId else Meta(c.metadata, "cart_id"))
      && DecodeEvent(Stamp(c, d.events[0])) == Ok(CartAddedToUser(""))
  {
    UserRegistrations();
    AddCartPayloadLosesCartId(cid);
    assert DecodeCommand(c) == Ok(CartAddToUser(cid)) by {
      CommandRoundTrip(CartAddToUser(cid));
    }
  }

  // ================================================================ product

  datatype ProductState = ProductState(id: string, name: string, price: int, found: bool)

  /**
   * ProductAggregate.ApplyEvent: `found` is set once the payload decodes;
   * created takes the id from the envelope, name and price from the payload;
   * the updates set one field each; deleted blanks id, name and price but the
   * product stays found.
   */
  function ProductStep(s: ProductState, e: EventEnvelope): (r: Applied<ProductState>)
    ensures r.state.found == (s.found || DecodeEvent(e).Ok?)
    ensures r.err.Some? ==> r.state == s.(found := r.state.found)
  {
    match DecodeEvent(e)
    case Err(err) => Applied(s, Some(err))
    case Ok(ev) =>
      var s1 := s.(found := true);
      match ev
      case ProductCreated(_, name, price) => Applied(s1.(id := e.aggregateId, name := name, price := price), None)
      case ProductNameUpdated(name) => Applied(s1.(name := name), None)
      case ProductPriceUpdated(price) => Applied(s1.(price := price), None)
      case ProductDeleted(_) => Applied(ProductState("", "", 0, true), None)
      case _ => Applied(s1, Some(UnknownEventType))
  }

  class ProductAggregate {
    var ID: string
    var Name: string
    var Price: int
    var found: bool

    function State(): ProductState
      reads this
    {
      ProductState(ID, Name, Price, found)
    }

    constructor (id: string)
      ensures State() == ProductState(id, "", 0, false)
    {
      ID, Name, Price, found := id, "", 0, false;
    }

    method ApplyEvent(e: EventEnvelope) returns (err: Option<Error>)
      modifies this
      ensures Applied(State(), err) == ProductStep(old(State()), e)
    {
      var ev := DecodeEvent(e);
      if ev.Err? {
        return Some(ev.error);
      }
      found := true;
      err := None;
      match ev.value {
        case ProductCreated(_, name, price) =>
          ID, Name, Price := e.aggregateId, name, price;
        case ProductNameUpdated(name) =>
          Name := name;
        case ProductPriceUpdated(price) =>
          Price := price;
        case ProductDeleted(_) =>
          ID, Name, Price := "", "", 0;
        case _ =>
          err := Some(UnknownEventType);
      }
    }

    /** The library's replay of this aggregate's stream. */
    method Replay(history: seq<EventEnvelope>, policy: Policy) returns (err: Option<Error>)
      modifies this
      ensures Applied(State(), err) == Fold(ProductStep, old(State()), history, policy)
    {
      ghost var s0 := State();
      var i := 0;
      err := None;
      while i < |history| && !(policy == Halt && err.Some?)
        invariant 0 <= i <= |history|
        invariant Applied(State(), err) == Fold(ProductStep, s0, history[..i], policy)
      {
        FoldPrefixStep(ProductStep, s0, history, i, policy);
        var e := ApplyEvent(history[i]);
        err := FirstError(err, e);
        i := i + 1;
      }
      if i < |history| {
        HaltedFoldIsStable(ProductStep, s0, history, i);
      } else {
        assert history[..i] == history;
      }
    }
  }

  // ---------------------------------------------------------------- product lemmas

  /**
   * The product's event outcomes: created sets the id from the envelope and
   * name and price from the payload; each update changes its one field;
   * deleted blanks all three; every other decoded type is an error.
   */
  lemma ProductStepOutcomes(s: ProductState, e: EventEnvelope)
    requires DecodeEvent(e).Ok?
    ensures var ev := DecodeEvent(e).value; var r := ProductStep(s, e);
      && (ev.ProductCreated? ==> r == Applied(ProductState(e.aggregateId, ev.name, ev.price, true), None))
      && (ev.ProductNameUpdated? ==> r == Applied(s.(name := ev.name, found := true), None))
      && (ev.ProductPriceUpdated? ==> r == Applied(s.(price := ev.price, found := true), None))
      && (ev.ProductDeleted? ==> r == Applied(ProductState("", "", 0, true), None))
      && (!(ev.ProductCreated? || ev.ProductNameUpdated? || ev.ProductPriceUpdated? || ev.ProductDeleted?) ==>
            r == Applied(s.(found := true), Some(UnknownEventType)))
  {
  }

  /** The product as the last of a (Continue) replay leaves it when that last event is a deletion. */
  lemma {:induction false} DeletedProductIsBlank(s: ProductState, h: seq<EventEnvelope>, e: EventEnvelope, id: string)
    requires DecodeEvent(e) == Ok(ProductDeleted(id))
    ensures Fold(ProductStep, s, h + [e], Continue).state == ProductState("", "", 0, true)
  {
    var h' := h + [e];
    assert h'[..|h'| - 1] == h;
  }

  /** Under Continue, a replayed user is found exactly when some event of its stream decodes. */
  lemma {:induction false} UserFoundAfterReplay(s: User, h: seq<EventEnvelope>)
    ensures Fold(UserStep, s, h, Continue).state.found <==> s.found || exists i :: 0 <= i < |h| && DecodeEvent(h[i]).Ok?
    decreases |h|
  {
    if h != [] {
      var n := |h| - 1;
      UserFoundAfterReplay(s, h[..n]);
      if exists i :: 0 <= i < n && DecodeEvent(h[..n][i]).Ok? {
        var i :| 0 <= i < n && DecodeEvent(h[..n][i]).Ok?;
        assert h[i] == h[..n][i];
      }
      if exists i :: 0 <= i < |h| && DecodeEvent(h[i]).Ok? {
        var i :| 0 <= i < |h| && DecodeEvent(h[i]).Ok?;
        if i < n { assert h[..n][i] == h[i]; }
      }
    }
  }

  /** Under Continue, a replayed product is found exactly when some event of its stream decodes. */
  lemma {:induction false} ProductFoundAfterReplay(s: ProductState, h: seq<EventEnvelope>)
    ensures Fold(ProductStep, s, h, Continue).state.found <==> s.found || exists i :: 0 <= i < |h| && DecodeEvent(h[i]).Ok?
    decreases |h|
  {
    if h != [] {
      var n := |h| - 1;
      ProductFoundAfterReplay(s, h[..n]);
      if exists i :: 0 <= i < n && DecodeEvent(h[..n][i]).Ok? {
        var i :| 0 <= i < n && DecodeEvent(h[..n][i]).Ok?;
        assert h[i] == h[..n][i];
      }
      if exists i :: 0 <= i < |h| && DecodeEvent(h[i]).Ok? {
        var i :| 0 <= i < |h| && DecodeEvent(h[i]).Ok?;
        if i < n { assert h[..n][i] == h[i]; }
      }
    }
  }
}
