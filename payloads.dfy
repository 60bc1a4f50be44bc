/**
 * The typed payloads of both applications (apps/banking/events.go,
 * apps/banking/comands.go, apps/shopping/events.go, apps/shopping/commands.go,
 * apps/shopping/models.go) with their JSON encodings, as Go's json.Marshal
 * writes them (tagged fields under their tag, untagged fields under the Go
 * field name), and the decoders json.Unmarshal amounts to for each type.
 */
module Payloads {
  import opened Wrappers
  import opened Json
  import opened Envelopes

  /** shopping.Product; Price in minor units. */
  datatype Product = Product(id: string, cartId: string, name: string, price: int)

  /** Every event type that is registered somewhere, as one closed sum. */
  datatype Event =
    | AccountCreated(accountId: string, currency: string, balance: int, ref: string, timestamp: int)
    | AccountDebited(accountId: string, amount: int, ref: string, newBalance: int, timestamp: int)
    | AccountCredited(accountId: string, amount: int, ref: string, newBalance: int, timestamp: int)
    | CartCreated(cartId: string)
    | CartItemAdded(product: Product)
    | CartItemRemoved(productId: string, product: Product)
    | CartDiscountApplied(discount: int)
    | UserCreated(id: string, name: string, email: string)
    | CartAddedToUser(cartId: string)
    | ProductCreated(id: string, name: string, price: int)
    | ProductNameUpdated(name: string)
    | ProductPriceUpdated(price: int)
    | ProductDeleted(id: string)

  /** Every command type that is registered somewhere. */
  datatype Command =
    | CreateAccountCommand(accountId: string, currency: string, balance: int, ref: string)
    | DebitAccountCommand(fromAccountId: string, toAccountId: string, amount: int, ref: string)
    | CreditAccountCommand(fromAccountId: string, toAccountId: string, amount: int, ref: string)
    | CartCreate(cartId: string)
    | CartItemAdd(product: Product)
    | CartItemRemove(productId: string)
    | CartDiscountApply(discount: int)
    | UserCreate(id: string, name: string, email: string)
    | CartAddToUser(cartId: string)
    | ProductCreate(name: string, price: int)
    | ProductUpdateName(name: string)
    | ProductUpdatePrice(price: int)
    | ProductDelete

  /** The Go type a registration names, without its field values. */
  datatype EventKind =
    | AccountCreatedKind | AccountDebitedKind | AccountCreditedKind
    | CartCreatedKind | CartItemAddedKind | CartItemRemovedKind | CartDiscountAppliedKind
    | UserCreatedKind | CartAddedToUserKind
    | ProductCreatedKind | ProductNameUpdatedKind | ProductPriceUpdatedKind | ProductDeletedKind

  datatype CommandKind =
    | CreateAccountKind | DebitAccountKind | CreditAccountKind
    | CartCreateKind | CartItemAddKind | CartItemRemoveKind | CartDiscountApplyKind
    | UserCreateKind | CartAddToUserKind
    | ProductCreateKind | ProductUpdateNameKind | ProductUpdatePriceKind | ProductDeleteKind

  function KindOf(e: Event): EventKind {
    match e
    case AccountCreated(_, _, _, _, _) => AccountCreatedKind
    case AccountDebited(_, _, _, _, _) => AccountDebitedKind
    case AccountCredited(_, _, _, _, _) => AccountCreditedKind
    case CartCreated(_) => CartCreatedKind
    case CartItemAdded(_) => CartItemAddedKind
    case CartItemRemoved(_, _) => CartItemRemovedKind
    case CartDiscountApplied(_) => CartDiscountAppliedKind
    case UserCreated(_, _, _) => UserCreatedKind
    case CartAddedToUser(_) => CartAddedToUserKind
    case ProductCreated(_, _, _) => ProductCreatedKind
    case ProductNameUpdated(_) => ProductNameUpdatedKind
    case ProductPriceUpdated(_) => ProductPriceUpdatedKind
    case ProductDeleted(_) => ProductDeletedKind
  }

  function CommandKindOf(c: Command): CommandKind {
    match c
    case CreateAccountCommand(_, _, _, _) => CreateAccountKind
    case DebitAccountCommand(_, _, _, _) => DebitAccountKind
    case CreditAccountCommand(_, _, _, _) => CreditAccountKind
    case CartCreate(_) => CartCreateKind
    case CartItemAdd(_) => CartItemAddKind
    case CartItemRemove(_) => CartItemRemoveKind
    case CartDiscountApply(_) => CartDiscountApplyKind
    case UserCreate(_, _, _) => UserCreateKind
    case CartAddToUser(_) => CartAddToUserKind
    case ProductCreate(_, _) => ProductCreateKind
    case ProductUpdateName(_) => ProductUpdateNameKind
    case ProductUpdatePrice(_) => ProductUpdatePriceKind
    case ProductDelete => ProductDeleteKind
  }

  // ---------------------------------------------------------------- encoding

  function EncodeProduct(p: Product): JVal {
    JObj(map["ID" := JStr(p.id), "CartID" := JStr(p.cartId), "Name" := JStr(p.name), "Price" := JInt(p.price)])
  }

  /** The JSON object of an account movement (AccountDebited and AccountCredited share it). */
  function MovementObj(accountId: string, amount: int, ref: string, newBalance: int, timestamp: int): JVal {
    JObj(map["account_id" := JStr(accountId), "amount" := JInt(amount), "ref" := JStr(ref),
             "new_balance" := JInt(newBalance), "timestamp" := JInt(timestamp)])
  }

  function EncodeEvent(e: Event): JVal {
    match e
    case AccountCreated(acc, cur, bal, ref, ts) =>
      JObj(map["account_id" := JStr(acc), "currency" := JStr(cur), "balance" := JInt(bal),
               "ref" := JStr(ref), "timestamp" := JInt(ts)])
    case AccountDebited(acc, amt, ref, nb, ts) => MovementObj(acc, amt, ref, nb, ts)
    case AccountCredited(acc, amt, ref, nb, ts) => MovementObj(acc, amt, ref, nb, ts)
    case CartCreated(cid) => JObj(map["CartID" := JStr(cid)])
    case CartItemAdded(p) => JObj(map["Product" := EncodeProduct(p)])
    case CartItemRemoved(pid, p) => JObj(map["ProductID" := JStr(pid), "Product" := EncodeProduct(p)])
    case CartDiscountApplied(d) => JObj(map["Discount" := JInt(d)])
    case UserCreated(id, name, email) => JObj(map["ID" := JStr(id), "Name" := JStr(name), "Email" := JStr(email)])
    case CartAddedToUser(cid) => JObj(map["cart_id" := JStr(cid)])
    case ProductCreated(id, name, price) => JObj(map["ID" := JStr(id), "Name" := JStr(name), "Price" := JInt(price)])
    case ProductNameUpdated(name) => JObj(map["Name" := JStr(name)])
    case ProductPriceUpdated(price) => JObj(map["Price" := JInt(price)])
    case ProductDeleted(id) => JObj(map["ID" := JStr(id)])
  }

  /** The JSON object of a transfer command (debit and credit share it). */
  function TransferObj(from: string, to: string, amount: int, ref: string): JVal {
    JObj(map["from_account_id" := JStr(from), "to_account_id" := JStr(to), "amount" := JInt(amount), "ref" := JStr(ref)])
  }

  function EncodeCommand(c: Command): JVal {
    match c
    case CreateAccountCommand(acc, cur, bal, ref) =>
      JObj(map["account_id" := JStr(acc), "currency" := JStr(cur), "balance" := JInt(bal), "ref" := JStr(ref)])
    case DebitAccountCommand(from, to, amt, ref) => TransferObj(from, to, amt, ref)
    case CreditAccountCommand(from, to, amt, ref) => TransferObj(from, to, amt, ref)
    case CartCreate(cid) => JObj(map["CartID" := JStr(cid)])
    case CartItemAdd(p) => JObj(map["Product" := EncodeProduct(p)])
    case CartItemRemove(pid) => JObj(map["ProductID" := JStr(pid)])
    case CartDiscountApply(d) => JObj(map["Discount" := JInt(d)])
    case UserCreate(id, name, email) => JObj(map["ID" := JStr(id), "Name" := JStr(name), "Email" := JStr(email)])
    case CartAddToUser(cid) => JObj(map["CartID" := JStr(cid)])
    case ProductCreate(name, price) => JObj(map["Name" := JStr(name), "Price" := JInt(price)])
    case ProductUpdateName(name) => JObj(map["Name" := JStr(name)])
    case ProductUpdatePrice(price) => JObj(map["Price" := JInt(price)])
    case ProductDelete => JObj(map[])
  }

  // ---------------------------------------------------------------- decoding

  /** A nested Product field, decoded strictly (an error anywhere is an error). */
  function ProductField(o: Obj, key: string): Option<Product> {
    if key !in o then Some(Product("", "", "", 0))
    else
      var inner :- TopObject(o[key]);
      var id :- StrField(inner, "ID");
      var cid :- StrField(inner, "CartID");
      var name :- StrField(inner, "Name");
      var price :- IntField(inner, "Price");
      Some(Product(id, cid, name, price))
  }

  /**
   * A Product decoded the way the cart reads its snapshot: json.Unmarshal
   * skips a mismatched field and fills the others, and the error is ignored.
   */
  function LenientProduct(o: Obj): Product {
    Product(StrField(o, "ID").GetOr(""), StrField(o, "CartID").GetOr(""),
            StrField(o, "Name").GetOr(""), IntField(o, "Price").GetOr(0))
  }

  function DecodeEventFields(k: EventKind, o: Obj): Option<Event> {
    match k
    case AccountCreatedKind =>
      var acc :- StrField(o, "account_id");
      var cur :- StrField(o, "currency");
      var bal :- IntField(o, "balance");
      var ref :- StrField(o, "ref");
      var ts :- IntField(o, "timestamp");
      Some(AccountCreated(acc, cur, bal, ref, ts))
    case AccountDebitedKind =>
      var acc :- StrField(o, "account_id");
      var amt :- IntField(o, "amount");
      var ref :- StrField(o, "ref");
      var nb :- IntField(o, "new_balance");
      var ts :- IntField(o, "timestamp");
      Some(AccountDebited(acc, amt, ref, nb, ts))
    case AccountCreditedKind =>
      var acc :- StrField(o, "account_id");
      var amt :- IntField(o, "amount");
      var ref :- StrField(o, "ref");
      var nb :- IntField(o, "new_balance");
      var ts :- IntField(o, "timestamp");
      Some(AccountCredited(acc, amt, ref, nb, ts))
    case CartCreatedKind =>
      var cid :- StrField(o, "CartID");
      Some(CartCreated(cid))
    case CartItemAddedKind =>
      var p :- ProductField(o, "Product");
      Some(CartItemAdded(p))
    case CartItemRemovedKind =>
      var pid :- StrField(o, "ProductID");
      var p :- ProductField(o, "Product");
      Some(CartItemRemoved(pid, p))
    case CartDiscountAppliedKind =>
      var d :- IntField(o, "Discount");
      Some(CartDiscountApplied(d))
    case UserCreatedKind =>
      var id :- StrField(o, "ID");
      var name :- StrField(o, "Name");
      var email :- StrField(o, "Email");
      Some(UserCreated(id, name, email))
    case CartAddedToUserKind =>
      var cid :- StrField(o, "cart_id");
      Some(CartAddedToUser(cid))
    case ProductCreatedKind =>
      var id :- StrField(o, "ID");
      var name :- StrField(o, "Name");
      var price :- IntField(o, "Price");
      Some(ProductCreated(id, name, price))
    case ProductNameUpdatedKind =>
      var name :- StrField(o, "Name");
      Some(ProductNameUpdated(name))
    case ProductPriceUpdatedKind =>
      var price :- IntField(o, "Price");
      Some(ProductPriceUpdated(price))
    case ProductDeletedKind =>
      var id :- StrField(o, "ID");
      Some(ProductDeleted(id))
  }

  function DecodeCommandFields(k: CommandKind, o: Obj): Option<Command> {
    match k
    case CreateAccountKind =>
      var acc :- StrField(o, "account_id");
      var cur :- StrField(o, "currency");
      var bal :- IntField(o, "balance");
      var ref :- StrField(o, "ref");
      Some(CreateAccountCommand(acc, cur, bal, ref))
    case DebitAccountKind =>
      var from :- StrField(o, "from_account_id");
      var to :- StrField(o, "to_account_id");
      var amt :- IntField(o, "amount");
      var ref :- StrField(o, "ref");
      Some(DebitAccountCommand(from, to, amt, ref))
    case CreditAccountKind =>
      var from :- StrField(o, "from_account_id");
      var to :- StrField(o, "to_account_id");
      var amt :- IntField(o, "amount");
      var ref :- StrField(o, "ref");
      Some(CreditAccountCommand(from, to, amt, ref))
    case CartCreateKind =>
      var cid :- StrField(o, "CartID");
      Some(CartCreate(cid))
    case CartItemAddKind =>
      var p :- ProductField(o, "Product");
      Some(CartItemAdd(p))
    case CartItemRemoveKind =>
      var pid :- StrField(o, "ProductID");
      Some(CartItemRemove(pid))
    case CartDiscountApplyKind =>
      var d :- IntField(o, "Discount");
      Some(CartDiscountApply(d))
    case UserCreateKind =>
      var id :- StrField(o, "ID");
      var name :- StrField(o, "Name");
      var email :- StrField(o, "Email");
      Some(UserCreate(id, name, email))
    case CartAddToUserKind =>
      var cid :- StrField(o, "CartID");
      Some(CartAddToUser(cid))
    case ProductCreateKind =>
      var name :- StrField(o, "Name");
      var price :- IntField(o, "Price");
      Some(ProductCreate(name, price))
    case ProductUpdateNameKind =>
      var name :- StrField(o, "Name");
      Some(ProductUpdateName(name))
    case ProductUpdatePriceKind =>
      var price :- IntField(o, "Price");
      Some(ProductUpdatePrice(price))
    case ProductDeleteKind => Some(ProductDelete)
  }

  /** json.Unmarshal of a payload into the Go type of kind `k`. */
  function DecodeEventAs(k: EventKind, v: JVal): (r: Result<Event, Error>)
    ensures r.Ok? ==> KindOf(r.value) == k
  {
    match TopObject(v)
    case None => Err(PayloadMismatch)
    case Some(o) =>
      match DecodeEventFields(k, o)
      case None => Err(PayloadMismatch)
      case Some(e) => Ok(e)
  }

  function DecodeCommandAs(k: CommandKind, v: JVal): (r: Result<Command, Error>)
    ensures r.Ok? ==> CommandKindOf(r.value) == k
  {
    match TopObject(v)
    case None => Err(PayloadMismatch)
    case Some(o) =>
      match DecodeCommandFields(k, o)
      case None => Err(PayloadMismatch)
      case Some(c) => Ok(c)
  }

  // ---------------------------------------------------------------- round trips

  lemma ProductRoundTrip(p: Product)
    ensures EncodeProduct(p).JObj?
    ensures ProductField(map["P" := EncodeProduct(p)], "P") == Some(p)
    ensures LenientProduct(EncodeProduct(p).fields) == p
  {
  }

  lemma AccountEventRoundTrip(e: Event)
    requires e.AccountCreated? || e.AccountDebited? || e.AccountCredited?
    ensures DecodeEventFields(KindOf(e), EncodeEvent(e).fields) == Some(e)
  {
    match e
    case AccountCreated(id, cur, bal, ref, ts) => AccountCreatedRoundTrip(id, cur, bal, ref, ts);
    case AccountDebited(id, amount, ref, bal, ts) => MovementRoundTrip(AccountDebitedKind, id, amount, ref, bal, ts);
    case AccountCredited(id, amount, ref, bal, ts) => MovementRoundTrip(AccountCreditedKind, id, amount, ref, bal, ts);
  }

  lemma AccountCreatedRoundTrip(id: string, cur: string, bal: int, ref: string, ts: int)
    ensures var e := AccountCreated(id, cur, bal, ref, ts); DecodeEventFields(AccountCreatedKind, EncodeEvent(e).fields) == Some(e)
  {
  }

  lemma MovementRoundTrip(k: EventKind, id: string, amount: int, ref: string, bal: int, ts: int)
    requires k == AccountDebitedKind || k == AccountCreditedKind
    ensures var e := if k == AccountDebitedKind then AccountDebited(id, amount, ref, bal, ts) else AccountCredited(id, amount, ref, bal, ts);
      DecodeEventFields(k, EncodeEvent(e).fields) == Some(e)
  {
  }

  lemma CartEventRoundTrip(e: Event)
    requires e.CartCreated? || e.CartItemAdded? || e.CartItemRemoved? || e.CartDiscountApplied?
    ensures DecodeEventFields(KindOf(e), EncodeEvent(e).fields) == Some(e)
  {
    match e
    case CartCreated(_) => assert DecodeEventFields(CartCreatedKind, EncodeEvent(e).fields) == Some(e);
    case CartItemAdded(p) => CartItemAddedRoundTrip(p);
    case CartItemRemoved(pid, p) => CartItemRemovedRoundTrip(pid, p);
    case CartDiscountApplied(_) => assert DecodeEventFields(CartDiscountAppliedKind, EncodeEvent(e).fields) == Some(e);
  }

  lemma CartItemAddedRoundTrip(p: Product)
    ensures DecodeEventFields(CartItemAddedKind, EncodeEvent(CartItemAdded(p)).fields) == Some(CartItemAdded(p))
  {
    assert ProductField(EncodeEvent(CartItemAdded(p)).fields, "Product") == Some(p);
  }

  lemma CartItemRemovedRoundTrip(pid: string, p: Product)
    ensures DecodeEventFields(CartItemRemovedKind, EncodeEvent(CartItemRemoved(pid, p)).fields) == Some(CartItemRemoved(pid, p))
  {
    assert ProductField(EncodeEvent(CartItemRemoved(pid, p)).fields, "Product") == Some(p);
  }

  lemma UserProductEventRoundTrip(e: Event)
    requires !(e.AccountCreated? || e.AccountDebited? || e.AccountCredited?)
    requires !(e.CartCreated? || e.CartItemAdded? || e.CartItemRemoved? || e.CartDiscountApplied?)
    ensures DecodeEventFields(KindOf(e), EncodeEvent(e).fields) == Some(e)
  {
    var o := EncodeEvent(e).fields;
    match e
    case UserCreated(_, _, _) => assert DecodeEventFields(UserCreatedKind, o) == Some(e);
    case CartAddedToUser(_) => assert DecodeEventFields(CartAddedToUserKind, o) == Some(e);
    case ProductCreated(_, _, _) => assert DecodeEventFields(ProductCreatedKind, o) == Some(e);
    case ProductNameUpdated(_) => assert DecodeEventFields(ProductNameUpdatedKind, o) == Some(e);
    case ProductPriceUpdated(_) => assert DecodeEventFields(ProductPriceUpdatedKind, o) == Some(e);
    case ProductDeleted(_) => assert DecodeEventFields(ProductDeletedKind, o) == Some(e);
  }

  /** Decoding an encoded event as its own type gives it back. */
  lemma EventRoundTrip(e: Event)
    ensures DecodeEventAs(KindOf(e), EncodeEvent(e)) == Ok(e)
  {
    if e.AccountCreated? || e.AccountDebited? || e.AccountCredited? {
      AccountEventRoundTrip(e);
    } else if e.CartCreated? || e.CartItemAdded? || e.CartItemRemoved? || e.CartDiscountApplied? {
      CartEventRoundTrip(e);
    } else {
      UserProductEventRoundTrip(e);
    }
  }

  lemma BankingCommandRoundTrip(c: Command)
    requires c.CreateAccountCommand? || c.DebitAccountCommand? || c.CreditAccountCommand?
    ensures DecodeCommandFields(CommandKindOf(c), EncodeCommand(c).fields) == Some(c)
  {
    var o := EncodeCommand(c).fields;
    match c
    case CreateAccountCommand(_, _, _, _) => assert DecodeCommandFields(CreateAccountKind, o) == Some(c);
    case DebitAccountCommand(_, _, _, _) => assert DecodeCommandFields(DebitAccountKind, o) == Some(c);
    case CreditAccountCommand(_, _, _, _) => assert DecodeCommandFields(CreditAccountKind, o) == Some(c);
  }

  lemma CartUserCommandRoundTrip(c: Command)
    requires c.CartCreate? || c.CartItemAdd? || c.CartItemRemove? || c.CartDiscountApply? || c.UserCreate? || c.CartAddToUser?
    ensures DecodeCommandFields(CommandKindOf(c), EncodeCommand(c).fields) == Some(c)
  {
    var o := EncodeCommand(c).fields;
    match c
    case CartCreate(_) => assert DecodeCommandFields(CartCreateKind, o) == Some(c);
    case CartItemAdd(p) => CartItemAddRoundTrip(p);
    case CartItemRemove(_) => assert DecodeCommandFields(CartItemRemoveKind, o) == Some(c);
    case CartDiscountApply(_) => assert DecodeCommandFields(CartDiscountApplyKind, o) == Some(c);
    case UserCreate(_, _, _) => assert DecodeCommandFields(UserCreateKind, o) == Some(c);
    case CartAddToUser(_) => assert DecodeCommandFields(CartAddToUserKind, o) == Some(c);
  }

  lemma CartItemAddRoundTrip(p: Product)
    ensures DecodeCommandFields(CartItemAddKind, EncodeCommand(CartItemAdd(p)).fields) == Some(CartItemAdd(p))
  {
    assert ProductField(EncodeCommand(CartItemAdd(p)).fields, "Product") == Some(p);
  }

  lemma ProductCommandRoundTrip(c: Command)
    requires c.ProductCreate? || c.ProductUpdateName? || c.ProductUpdatePrice? || c.ProductDelete?
    ensures DecodeCommandFields(CommandKindOf(c), EncodeCommand(c).fields) == Some(c)
  {
    var o := EncodeCommand(c).fields;
    match c
    case ProductCreate(_, _) => assert DecodeCommandFields(ProductCreateKind, o) == Some(c);
    case ProductUpdateName(_) => assert DecodeCommandFields(ProductUpdateNameKind, o) == Some(c);
    case ProductUpdatePrice(_) => assert DecodeCommandFields(ProductUpdatePriceKind, o) == Some(c);
    case ProductDelete => assert DecodeCommandFields(ProductDeleteKind, o) == Some(c);
  }

  /** Decoding an encoded command as its own type gives it back. */
  lemma CommandRoundTrip(c: Command)
    ensures DecodeCommandAs(CommandKindOf(c), EncodeCommand(c)) == Ok(c)
  {
    if c.CreateAccountCommand? || c.DebitAccountCommand? || c.CreditAccountCommand? {
      BankingCommandRoundTrip(c);
    } else if c.CartCreate? || c.CartItemAdd? || c.CartItemRemove? || c.CartDiscountApply? || c.UserCreate? || c.CartAddToUser? {
      CartUserCommandRoundTrip(c);
    } else {
      ProductCommandRoundTrip(c);
    }
  }

  /**
   * An AccountCreated payload read as AccountCredited: the JSON has no
   * "amount" and no "new_balance" key, so both decode to zero.
   */
  lemma CreatedReadsAsZeroCredit(acc: string, cur: string, bal: int, ref: string, ts: int)
    ensures DecodeEventAs(AccountCreditedKind, EncodeEvent(AccountCreated(acc, cur, bal, ref, ts)))
         == Ok(AccountCredited(acc, 0, ref, 0, ts))
  {
  }

  /**
   * A CartAddToUser payload read as CartAddedToUser: the command marshals its
   * id under "CartID", the event reads "cart_id", so the id is lost.
   */
  lemma AddCartPayloadLosesCartId(cid: string)
    ensures DecodeEventAs(CartAddedToUserKind, EncodeCommand(CartAddToUser(cid))) == Ok(CartAddedToUser(""))
  {
  }

  /**
   * A command payload forwarded unchanged decodes as the matching event,
   * whatever else the payload holds: the command and the event read the
   * same keys the same way.
   */
  lemma ForwardedCreate(v: JVal)
    ensures DecodeCommandAs(CartCreateKind, v).Ok? ==>
      DecodeEventAs(CartCreatedKind, v) == Ok(CartCreated(DecodeCommandAs(CartCreateKind, v).value.cartId))
  {
  }

  lemma ForwardedAdd(v: JVal)
    ensures DecodeCommandAs(CartItemAddKind, v).Ok? ==>
      DecodeEventAs(CartItemAddedKind, v) == Ok(CartItemAdded(DecodeCommandAs(CartItemAddKind, v).value.product))
  {
  }

  lemma ForwardedDiscount(v: JVal)
    ensures DecodeCommandAs(CartDiscountApplyKind, v).Ok? ==>
      DecodeEventAs(CartDiscountAppliedKind, v) == Ok(CartDiscountApplied(DecodeCommandAs(CartDiscountApplyKind, v).value.discount))
  {
  }

  lemma ForwardedUserCreate(v: JVal)
    ensures DecodeCommandAs(UserCreateKind, v).Ok? ==>
      var u := DecodeCommandAs(UserCreateKind, v).value;
      DecodeEventAs(UserCreatedKind, v) == Ok(UserCreated(u.id, u.name, u.email))
  {
  }
}
