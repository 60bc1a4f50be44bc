/**
 * cmd/app/projections.go: the product command handler and the live
 * projections the web application keeps in memory. Each projection's
 * ApplyEvent is proved against a pure step function, and the lemmas relate
 * the projections to the aggregates whose events they read. The database
 * projection (ProductProjection) is not part of this model.
 */
module Projections {
  import opened Wrappers
  import opened Json
  import opened Envelopes
  import opened Payloads
  import opened Registry
  import opened EventLog
  import opened ShoppingAggregates

  // ================================================================ product commands

  /** The event of a product command: addressed to the command's product, no aggregate type, no metadata. */
  function ProductEvent(c: CommandEnvelope, tag: string, ev: Event): EventEnvelope {
    EventEnvelope("", c.aggregateId, tag, EncodeEvent(ev), map[])
  }

  /**
   * ProductService.Handle: a payload that does not decode is an error; each
   * product command becomes one event carrying only what the command says
   * (the created event's own id is left empty); any other command is
   * ignored without an error.
   */
  function ProductHandle(c: CommandEnvelope): (r: Outcome)
    ensures r.err.Some? <==> DecodeCommand(c).Err?
    ensures |r.events| <= 1
    ensures forall i :: 0 <= i < |r.events| ==> r.events[i].aggregateId == c.aggregateId && r.events[i].aggregateType == ""
  {
    match DecodeCommand(c)
    case Err(err) => Outcome([], Some(err))
    case Ok(ProductCreate(name, price)) => Outcome([ProductEvent(c, "created", ProductCreated("", name, price))], None)
    case Ok(ProductUpdateName(name)) => Outcome([ProductEvent(c, "name_updated", ProductNameUpdated(name))], None)
    case Ok(ProductUpdatePrice(price)) => Outcome([ProductEvent(c, "price_updated", ProductPriceUpdated(price))], None)
    case Ok(ProductDelete) => Outcome([ProductEvent(c, "deleted", ProductDeleted(""))], None)
    case Ok(_) => Outcome([], None)
  }

  /** The typed event each product command stands for (ProductDelete for anything else, which yields none). */
  function ProductEventOf(cmd: Command): Event {
    match cmd
    case ProductCreate(name, price) => ProductCreated("", name, price)
    case ProductUpdateName(name) => ProductNameUpdated(name)
    case ProductUpdatePrice(price) => ProductPriceUpdated(price)
    case _ => ProductDeleted("")
  }

  /** A product command's event, stored under the product, decodes to the event the command stands for. */
  lemma ProductEventDecodes(c: CommandEnvelope, tag: string)
    requires c.aggregate == "product" && DecodeCommand(c).Ok?
    requires ProductHandle(c).events != [] && tag == ProductHandle(c).events[0].eventType
    ensures DecodeEvent(Stamp(c, ProductHandle(c).events[0])) == Ok(ProductEventOf(DecodeCommand(c).value))
  {
    var ev := ProductEventOf(DecodeCommand(c).value);
    assert Stamp(c, ProductHandle(c).events[0]) == EventEnvelope("product", c.aggregateId, tag, EncodeEvent(ev), map[]);
    ProductEventKinds();
    assert EventTypes[("product", tag)] == KindOf(ev);
    DecodeRegisteredEvent("product", c.aggregateId, tag, ev, map[]);
  }

  /**
   * Handling then replaying agree: each product command's event, stored under
   * the product, does to the product aggregate what the command asked.
   */
  lemma ProductCommandsReplay(c: CommandEnvelope, s: ProductState)
    requires c.aggregate == "product" && DecodeCommand(c).Ok?
    ensures var r := ProductHandle(c);
      match DecodeCommand(c).value
      case ProductCreate(name, price) => ProductStep(s, Stamp(c, r.events[0])) == Applied(ProductState(c.aggregateId, name, price, true), None)
      case ProductUpdateName(name) => ProductStep(s, Stamp(c, r.events[0])) == Applied(s.(name := name, found := true), None)
      case ProductUpdatePrice(price) => ProductStep(s, Stamp(c, r.events[0])) == Applied(s.(price := price, found := true), None)
      case ProductDelete => ProductStep(s, Stamp(c, r.events[0])) == Applied(ProductState("", "", 0, true), None)
      case _ => r == Outcome([], None)
  {
    if ProductHandle(c).events != [] {
      ProductEventDecodes(c, ProductHandle(c).events[0].eventType);
    }
  }

  // ================================================================ ProductLiveView

  datatype LiveView = LiveView(err: Option<Error>, product: Product)

  /** The four events a product stream carries. */
  predicate IsProductEvent(ev: Event) {
    ev.ProductCreated? || ev.ProductNameUpdated? || ev.ProductPriceUpdated? || ev.ProductDeleted?
  }

  /**
   * ProductLiveView.ApplyEvent: a decode failure is returned and changes
   * nothing; otherwise the recorded error is cleared, the product id is taken
   * from the envelope, created/name/price events set their fields, a deletion
   * changes nothing more, and any other event is recorded (not returned) as
   * unsupported.
   */
  function LiveViewStep(v: LiveView, e: EventEnvelope): (r: Applied<LiveView>)
    ensures r.err.Some? <==> DecodeEvent(e).Err?
    ensures r.err.Some? ==> r.state == v
    ensures r.err.None? ==> r.state.product.id == e.aggregateId && r.state.product.cartId == v.product.cartId
    ensures DecodeEvent(e).Ok? ==> r.state.err == (if IsProductEvent(DecodeEvent(e).value) then None else Some(UnsupportedEvent))
  {
    match DecodeEvent(e)
    case Err(err) => Applied(v, Some(err))
    case Ok(ev) =>
      var p := v.product.(id := e.aggregateId);
      match ev
      case ProductCreated(_, name, price) => Applied(LiveView(None, p.(name := name, price := price)), None)
      case ProductNameUpdated(name) => Applied(LiveView(None, p.(name := name)), None)
      case ProductPriceUpdated(price) => Applied(LiveView(None, p.(price := price)), None)
      case ProductDeleted(_) => Applied(LiveView(None, p), None)
      case _ => Applied(LiveView(Some(UnsupportedEvent), p), None)
  }

  class ProductLiveView {
    var err: Option<Error>
    var Product: Product

    function State(): LiveView
      reads this
    {
      LiveView(err, Product)
    }

    constructor ()
      ensures State() == LiveView(None, Payloads.Product("", "", "", 0))
    {
      err := None;
      Product := Payloads.Product("", "", "", 0);
    }

    method ApplyEvent(e: EventEnvelope) returns (result: Option<Error>)
      modifies this
      ensures Applied(State(), result) == LiveViewStep(old(State()), e)
    {
      var ev := DecodeEvent(e);
      if ev.Err? {
        return Some(ev.error);
      }
      err := None;
      Product := Product.(id := e.aggregateId);
      match ev.value {
        case ProductCreated(_, name, price) =>
          Product := Product.(name := name, price := price);
          return None;
        case ProductNameUpdated(name) =>
          Product := Product.(name := name);
        case ProductPriceUpdated(price) =>
          Product := Product.(price := price);
        case ProductDeleted(_) =>
        case _ =>
          err := Some(UnsupportedEvent);
      }
      return None;
    }
  }

  /** The live view shows the product the aggregate holds: same id, name and price. */
  predicate ShowsProduct(v: LiveView, s: ProductState) {
    v.product.id == s.id && v.product.name == s.name && v.product.price == s.price
  }

  predicate IsDeletion(e: EventEnvelope) {
    DecodeEvent(e).Ok? && DecodeEvent(e).value.ProductDeleted?
  }

  /** One event of the product's own stream, other than a deletion, keeps the view and the aggregate in step. */
  lemma LiveViewStepAgrees(v: LiveView, s: ProductState, e: EventEnvelope)
    requires ShowsProduct(v, s) && e.aggregateId == s.id && !IsDeletion(e)
    ensures ShowsProduct(LiveViewStep(v, e).state, ProductStep(s, e).state)
  {
  }

  /**
   * Replaying a product's stream without deletions, the live view and the
   * product aggregate agree on id, name and price.
   */
  lemma {:induction false} LiveViewAgreesWithAggregate(v: LiveView, s: ProductState, h: seq<EventEnvelope>)
    requires ShowsProduct(v, s)
    requires forall i :: 0 <= i < |h| ==> h[i].aggregateId == s.id && !IsDeletion(h[i])
    ensures ShowsProduct(Fold(LiveViewStep, v, h, Continue).state, Fold(ProductStep, s, h, Continue).state)
    decreases |h|
  {
    if h != [] {
      var n := |h| - 1;
      LiveViewAgreesWithAggregate(v, s, h[..n]);
      ProductIdIsStableWithoutDeletion(s, h[..n]);
      LiveViewStepAgrees(Fold(LiveViewStep, v, h[..n], Continue).state, Fold(ProductStep, s, h[..n], Continue).state, h[n]);
    }
  }

  /** Without deletions, replaying a product's own stream never changes its id. */
  lemma {:induction false} ProductIdIsStableWithoutDeletion(s: ProductState, h: seq<EventEnvelope>)
    requires forall i :: 0 <= i < |h| ==> h[i].aggregateId == s.id && !IsDeletion(h[i])
    ensures Fold(ProductStep, s, h, Continue).state.id == s.id
    decreases |h|
  {
    if h != [] {
      ProductIdIsStableWithoutDeletion(s, h[..|h| - 1]);
    }
  }

  /** A deletion is where they part: the aggregate blanks the product, the view keeps its name and price. */
  lemma LiveViewKeepsDeletedProduct(v: LiveView, s: ProductState, e: EventEnvelope)
    requires IsDeletion(e)
    ensures LiveViewStep(v, e).state == LiveView(None, v.product.(id := e.aggregateId))
    ensures ProductStep(s, e).state == ProductState("", "", 0, true)
  {
  }

  // ================================================================ UpdateProductLiveProjection

  datatype ProductList = ProductList(err: Option<Error>, products: seq<Product>)

  /**
   * UpdateProductLiveProjection.ApplyEvent: a decode failure is returned;
   * a created product is appended (id from the envelope); any other event is
   * recorded as unsupported.
   */
  function ProductListStep(l: ProductList, e: EventEnvelope): (r: Applied<ProductList>)
    ensures r.err.Some? <==> DecodeEvent(e).Err?
    ensures r.err.Some? ==> r.state == l
    ensures DecodeEvent(e).Ok? ==> r.state.err == (if DecodeEvent(e).value.ProductCreated? then None else Some(UnsupportedEvent))
    ensures DecodeEvent(e).Ok? && !DecodeEvent(e).value.ProductCreated? ==> r.state.products == l.products
  {
    match DecodeEvent(e)
    case Err(err) => Applied(l, Some(err))
    case Ok(ProductCreated(_, name, price)) =>
      Applied(ProductList(None, l.products + [Payloads.Product(e.aggregateId, "", name, price)]), None)
    case Ok(_) => Applied(l.(err := Some(UnsupportedEvent)), None)
  }

  class UpdateProductLiveProjection {
    var err: Option<Error>
    var Products: seq<Product>

    function State(): ProductList
      reads this
    {
      ProductList(err, Products)
    }

    constructor ()
      ensures State() == ProductList(None, [])
    {
      err, Products := None, [];
    }

    method ApplyEvent(e: EventEnvelope) returns (result: Option<Error>)
      modifies this
      ensures Applied(State(), result) == ProductListStep(old(State()), e)
    {
      var ev := DecodeEvent(e);
      if ev.Err? {
        return Some(ev.error);
      }
      err := None;
      match ev.value {
        case ProductCreated(_, name, price) =>
          Products := Products + [Payloads.Product(e.aggregateId, "", name, price)];
          return None;
        case _ =>
          err := Some(UnsupportedEvent);
      }
      return None;
    }
  }

  /** The product a created event adds to the list, if `e` is one. */
  function CreatedBy(e: EventEnvelope): seq<Product> {
    if DecodeEvent(e).Ok? && DecodeEvent(e).value.ProductCreated?
    then [Payloads.Product(e.aggregateId, "", DecodeEvent(e).value.name, DecodeEvent(e).value.price)] else []
  }

  /** The products created in `h`, in order, each under its envelope's id. */
  function CreatedProducts(h: seq<EventEnvelope>): seq<Product>
    decreases |h|
  {
    if h == [] then [] else CreatedProducts(h[..|h| - 1]) + CreatedBy(h[|h| - 1])
  }

  lemma ProductListStepAdds(l: ProductList, e: EventEnvelope)
    ensures ProductListStep(l, e).state.products == l.products + CreatedBy(e)
  {
  }

  /**
   * The product list after a replay holds exactly the created products, in
   * the order they were created, and the replay fails only on an event that
   * does not decode.
   */
  lemma ProductListIsCreatedProducts(l: ProductList, h: seq<EventEnvelope>)
    ensures Fold(ProductListStep, l, h, Continue).state.products == l.products + CreatedProducts(h)
    ensures Fold(ProductListStep, l, h, Continue).err.Some? <==> exists i :: 0 <= i < |h| && DecodeEvent(h[i]).Err?
  {
    ProductListProducts(l, h);
    ProductListErrors(l, h);
  }

  lemma {:induction false} ProductListProducts(l: ProductList, h: seq<EventEnvelope>)
    ensures Fold(ProductListStep, l, h, Continue).state.products == l.products + CreatedProducts(h)
    decreases |h|
  {
    if h == [] {
      assert l.products + [] == l.products;
    } else {
      var n := |h| - 1;
      var prev := Fold(ProductListStep, l, h[..n], Continue);
      ProductListProducts(l, h[..n]);
      FoldPrefixStep(ProductListStep, l, h, n, Continue);
      assert h[..n + 1] == h;
      ProductListStepAdds(prev.state, h[n]);
      assert l.products + CreatedProducts(h[..n]) + CreatedBy(h[n]) == l.products + CreatedProducts(h);
    }
  }

  lemma {:induction false} ProductListErrors(l: ProductList, h: seq<EventEnvelope>)
    ensures Fold(ProductListStep, l, h, Continue).err.Some? <==> exists i :: 0 <= i < |h| && DecodeEvent(h[i]).Err?
    decreases |h|
  {
    if h != [] {
      var n := |h| - 1;
      ProductListErrors(l, h[..n]);
      FoldPrefixStep(ProductListStep, l, h, n, Continue);
      assert h[..n + 1] == h;
      assert forall i :: 0 <= i < n ==> h[..n][i] == h[i];
    }
  }

  // ================================================================ CartCounterLiveProjection

  datatype Counter = Counter(count: int, total: int)

  /**
   * CartCounterLiveProjection.ApplyEvent: an addition counts one more item
   * and adds its price; a removal counts one less and subtracts the price
   * carried by the removal; other events are ignored.
   */
  function CounterStep(c: Counter, e: EventEnvelope): (r: Applied<Counter>)
    ensures r.err.Some? <==> DecodeEvent(e).Err?
    ensures r.err.Some? ==> r.state == c
  {
    match DecodeEvent(e)
    case Err(err) => Applied(c, Some(err))
    case Ok(CartItemAdded(p)) => Applied(Counter(c.count + 1, c.total + p.price), None)
    case Ok(CartItemRemoved(_, p)) => Applied(Counter(c.count - 1, c.total - p.price), None)
    case Ok(_) => Applied(c, None)
  }

  class CartCounterLiveProjection {
    var Count: int
    var Total: int

    function State(): Counter
      reads this
    {
      Counter(Count, Total)
    }

    constructor ()
      ensures State() == Counter(0, 0)
    {
      Count, Total := 0, 0;
    }

    method ApplyEvent(e: EventEnvelope) returns (err: Option<Error>)
      modifies this
      ensures Applied(State(), err) == CounterStep(old(State()), e)
    {
      var ev := DecodeEvent(e);
      if ev.Err? {
        return Some(ev.error);
      }
      match ev.value {
        case CartItemAdded(p) =>
          Count := Count + 1;
          Total := Total + p.price;
        case CartItemRemoved(_, p) =>
          Count := Count - 1;
          Total := Total - p.price;
        case _ =>
      }
      return None;
    }
  }

  predicate IsRemoval(e: EventEnvelope) {
    DecodeEvent(e).Ok? && DecodeEvent(e).value.CartItemRemoved?
  }

  predicate IsAddition(e: EventEnvelope) {
    DecodeEvent(e).Ok? && DecodeEvent(e).value.CartItemAdded?
  }

  /** How many events of `h` satisfy `p`. */
  function CountWhere(h: seq<EventEnvelope>, p: EventEnvelope -> bool): (n: nat)
    ensures n <= |h|
    decreases |h|
  {
    if h == [] then 0 else CountWhere(h[..|h| - 1], p) + (if p(h[|h| - 1]) then 1 else 0)
  }

  /**
   * The counter's count is the number of additions minus the number of
   * removals replayed, whether or not the removed items were ever there.
   */
  lemma {:induction false} CounterCountsEvents(k: Counter, h: seq<EventEnvelope>)
    ensures Fold(CounterStep, k, h, Continue).state.count == k.count + CountWhere(h, IsAddition) - CountWhere(h, IsRemoval)
    decreases |h|
  {
    if h != [] {
      CounterCountsEvents(k, h[..|h| - 1]);
    }
  }

  /** The price an event adds to the counter's total: an addition's price, nothing otherwise. */
  function AddedPrice(e: EventEnvelope): int {
    match DecodeEvent(e)
    case Ok(CartItemAdded(p)) => p.price
    case _ => 0
  }

  /** The price an event takes off the counter's total: the price carried by a removal, nothing otherwise. */
  function RemovedPrice(e: EventEnvelope): int {
    match DecodeEvent(e)
    case Ok(CartItemRemoved(_, p)) => p.price
    case _ => 0
  }

  /** Σ of `f` over the events of `h`. */
  function SumWhere(h: seq<EventEnvelope>, f: EventEnvelope -> int): int
    decreases |h|
  {
    if h == [] then 0 else SumWhere(h[..|h| - 1], f) + f(h[|h| - 1])
  }

  /**
   * The counter's total is the sum of the prices added minus the sum of the
   * prices carried by the removals, whether or not the removed items were
   * ever there.
   */
  lemma {:induction false} CounterTotalsEvents(k: Counter, h: seq<EventEnvelope>)
    ensures Fold(CounterStep, k, h, Continue).state.total == k.total + SumWhere(h, AddedPrice) - SumWhere(h, RemovedPrice)
    decreases |h|
  {
    if h != [] {
      CounterTotalsEvents(k, h[..|h| - 1]);
    }
  }

  /** So a fresh counter that replays more removals than additions shows a negative count. */
  lemma CounterCanGoNegative(h: seq<EventEnvelope>)
    requires CountWhere(h, IsRemoval) > CountWhere(h, IsAddition)
    ensures Fold(CounterStep, Counter(0, 0), h, Continue).state.count < 0
  {
    CounterCountsEvents(Counter(0, 0), h);
  }

  /** The counter shows the cart's size and total. */
  predicate CountsCart(k: Counter, s: Cart) {
    k.count == |s.items| && k.total == s.total
  }

  /**
   * Without removals the counter agrees with the cart aggregate: count is
   * the number of items and total the cart's total.
   */
  lemma {:induction false} CounterAgreesWithoutRemovals(k: Counter, s: Cart, h: seq<EventEnvelope>)
    requires CountsCart(k, s)
    requires forall i :: 0 <= i < |h| ==> !IsRemoval(h[i])
    ensures CountsCart(Fold(CounterStep, k, h, Continue).state, Fold(CartStep, s, h, Continue).state)
    decreases |h|
  {
    if h != [] {
      CounterAgreesWithoutRemovals(k, s, h[..|h| - 1]);
    }
  }

  /**
   * A removal of an id no item carries changes nothing in the cart but still
   * counts one item less, so the two part ways.
   */
  lemma CounterCountsAbsentRemoval(k: Counter, s: Cart, e: EventEnvelope, pid: string, p: Product)
    requires DecodeEvent(e) == Ok(CartItemRemoved(pid, p))
    requires forall j :: 0 <= j < |s.items| ==> s.items[j].id != pid
    ensures CartStep(s, e).state.items == s.items && CartStep(s, e).state.total == s.total
    ensures CounterStep(k, e).state.count == k.count - 1
    ensures CounterStep(k, e).state.total == k.total - p.price
  {
    CartRemovalWithoutMatch(s, e, pid, p);
  }

  // ================================================================ CartProjection

  /** A product as the cart projection keeps it: id, name and price, no cart id. */
  function Strip(p: Product): Product {
    p.(cartId := "")
  }

  function StripAll(items: seq<Product>): (r: seq<Product>)
    ensures |r| == |items|
    ensures forall i :: 0 <= i < |items| ==> r[i] == Strip(items[i])
  {
    seq(|items|, i requires 0 <= i < |items| => Strip(items[i]))
  }

  /**
   * CartProjection.ApplyEvent: an addition appends the product without its
   * cart id; a removal takes out the first item with the removed id; other
   * events are ignored.
   */
  function CartViewStep(items: seq<Product>, e: EventEnvelope): (r: Applied<seq<Product>>)
    ensures r.err.Some? <==> DecodeEvent(e).Err?
    ensures r.err.Some? ==> r.state == items
  {
    match DecodeEvent(e)
    case Err(err) => Applied(items, Some(err))
    case Ok(CartItemAdded(p)) => Applied(items + [Strip(p)], None)
    case Ok(CartItemRemoved(pid, _)) =>
      (match FirstMatch(items, pid)
       case None => Applied(items, None)
       case Some(i) => Applied(items[..i] + items[i + 1..], None))
    case Ok(_) => Applied(items, None)
  }

  class CartProjection {
    var Items: seq<Product>

    constructor ()
      ensures Items == []
    {
      Items := [];
    }

    method ApplyEvent(e: EventEnvelope) returns (err: Option<Error>)
      modifies this
      ensures Applied(Items, err) == CartViewStep(old(Items), e)
    {
      var ev := DecodeEvent(e);
      if ev.Err? {
        return Some(ev.error);
      }
      match ev.value {
        case CartItemAdded(p) =>
          Items := Items + [Strip(p)];
        case CartItemRemoved(pid, _) =>
          var items := Items;
          var i := 0;
          while i < |items|
            invariant 0 <= i <= |items|
            invariant forall j :: 0 <= j < i ==> items[j].id != pid
            invariant Items == items
          {
            if items[i].id == pid {
              Items := items[..i] + items[i + 1..];
              break;
            }
            i := i + 1;
          }
        case _ =>
      }
      return None;
    }
  }

  /** Stripping cart ids keeps ids, so the first item with an id is the same in both. */
  lemma FirstMatchOfStripped(items: seq<Product>, pid: string)
    ensures FirstMatch(StripAll(items), pid) == FirstMatch(items, pid)
  {
  }

  /** One event keeps the cart projection equal to the cart aggregate's items without their cart ids. */
  lemma CartViewStepMirrorsCart(s: Cart, e: EventEnvelope)
    ensures CartViewStep(StripAll(s.items), e).state == StripAll(CartStep(s, e).state.items)
  {
    match DecodeEvent(e)
    case Err(_) =>
    case Ok(ev) =>
      match ev
      case CartItemAdded(p) =>
        assert StripAll(s.items + [p]) == StripAll(s.items) + [Strip(p)];
      case CartItemRemoved(pid, _) =>
        FirstMatchOfStripped(s.items, pid);
        if FirstMatch(s.items, pid).Some? {
          var i := FirstMatch(s.items, pid).value;
          assert StripAll(s.items[..i] + s.items[i + 1..]) == StripAll(s.items)[..i] + StripAll(s.items)[i + 1..];
        }
      case _ =>
  }

  /**
   * The cart projection shows the cart aggregate's items, in the same order,
   * without their cart ids, after any replay of the same history.
   */
  lemma {:induction false} CartProjectionMirrorsCart(s: Cart, h: seq<EventEnvelope>)
    ensures Fold(CartViewStep, StripAll(s.items), h, Continue).state == StripAll(Fold(CartStep, s, h, Continue).state.items)
    decreases |h|
  {
    if h != [] {
      CartProjectionMirrorsCart(s, h[..|h| - 1]);
      CartViewStepMirrorsCart(Fold(CartStep, s, h[..|h| - 1], Continue).state, h[|h| - 1]);
    }
  }
}
