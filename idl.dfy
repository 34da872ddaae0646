/**
 * The interface description of the store program (`src/idl/madma.ts`): its three account
 * records, the `OrderStatus` enum, the six instructions with their arguments and accounts,
 * the error table, and the byte offsets of the fixed-width leading fields of each record.
 */
module Idl {
  import opened Wrappers
  import opened Bytes

  /** A 32-byte public key (`publicKey` in the schema). */
  type Key = k: seq<byte> | |k| == 32 witness seq(32, _ => 0 as byte)

  // ---------------------------------------------------------------- OrderStatus

  /** The `OrderStatus` enum, variants in declared order. */
  datatype OrderStatus = Created | Pending | Shipped | Delivered | Cancelled | Completed

  /** The variants as the schema lists them. */
  const OrderStatusVariants: seq<OrderStatus> := [Created, Pending, Shipped, Delivered, Cancelled, Completed]

  /** The position of a variant in the declaration, which is also its encoded tag. */
  function VariantIndex(s: OrderStatus): (i: nat)
    ensures i < |OrderStatusVariants| && OrderStatusVariants[i] == s
  {
    match s
    case Created => 0
    case Pending => 1
    case Shipped => 2
    case Delivered => 3
    case Cancelled => 4
    case Completed => 5
  }

  /** The variant declared at position `i`, if there is one. */
  function VariantAt(i: int): (r: Option<OrderStatus>)
    ensures r.Some? <==> 0 <= i < 6
    ensures r.Some? ==> VariantIndex(r.value) == i
  {
    if 0 <= i < |OrderStatusVariants| then Some(OrderStatusVariants[i]) else None
  }

  /** The variant's name as declared (`"Created"`, ...). */
  function VariantName(s: OrderStatus): string
  {
    match s
    case Created => "Created"
    case Pending => "Pending"
    case Shipped => "Shipped"
    case Delivered => "Delivered"
    case Cancelled => "Cancelled"
    case Completed => "Completed"
  }

  /** The key under which the client library writes the variant as an object (`{ shipped: {} }`). */
  function VariantKey(s: OrderStatus): string
  {
    match s
    case Created => "created"
    case Pending => "pending"
    case Shipped => "shipped"
    case Delivered => "delivered"
    case Cancelled => "cancelled"
    case Completed => "completed"
  }

  /** The variant with declared name `n`, if any. */
  function VariantFromName(n: string): (r: Option<OrderStatus>)
    ensures r.Some? ==> VariantName(r.value) == n
  {
    if n == "Created" then Some(Created)
    else if n == "Pending" then Some(Pending)
    else if n == "Shipped" then Some(Shipped)
    else if n == "Delivered" then Some(Delivered)
    else if n == "Cancelled" then Some(Cancelled)
    else if n == "Completed" then Some(Completed)
    else None
  }

  /** The variant written under object key `k`, if any. */
  function VariantFromKey(k: string): (r: Option<OrderStatus>)
    ensures r.Some? ==> VariantKey(r.value) == k
  {
    if k == "created" then Some(Created)
    else if k == "pending" then Some(Pending)
    else if k == "shipped" then Some(Shipped)
    else if k == "delivered" then Some(Delivered)
    else if k == "cancelled" then Some(Cancelled)
    else if k == "completed" then Some(Completed)
    else None
  }

  /** The enum is closed: exactly six variants, each at its own index, each recovered from its index. */
  lemma OrderStatusClosed(s: OrderStatus)
    ensures |OrderStatusVariants| == 6
    ensures VariantAt(VariantIndex(s)) == Some(s)
    ensures forall i, j :: 0 <= i < j < |OrderStatusVariants| ==> OrderStatusVariants[i] != OrderStatusVariants[j]
  {
  }

  /** Names and keys identify variants: each maps back to the variant it came from. */
  lemma VariantNameKeyRoundTrip(s: OrderStatus)
    ensures VariantFromName(VariantName(s)) == Some(s)
    ensures VariantFromKey(VariantKey(s)) == Some(s)
  {
  }

  // ---------------------------------------------------------------- errors

  /** The program's error kinds, in the order of the error table. */
  datatype ProgramError =
    | InvalidPrice
    | DesignNotAvailable
    | InsufficientPayment
    | PaymentFailed
    | InsufficientBalance
    | Unauthorized
    | InvalidOrderStatus
    | StoreAlreadyInitialized

  /** The error table's entries in order. */
  const ErrorTable: seq<ProgramError> := [
    InvalidPrice, DesignNotAvailable, InsufficientPayment, PaymentFailed,
    InsufficientBalance, Unauthorized, InvalidOrderStatus, StoreAlreadyInitialized
  ]

  /** The first custom error code; the table's codes run on consecutively from here. */
  const FIRST_ERROR_CODE: int := 6000

  /** The numeric code of an error: its position in the table counted from 6000. */
  function ErrorCode(e: ProgramError): (c: int)
    ensures FIRST_ERROR_CODE <= c < FIRST_ERROR_CODE + |ErrorTable|
    ensures ErrorTable[c - FIRST_ERROR_CODE] == e
  {
    match e
    case InvalidPrice => 6000
    case DesignNotAvailable => 6001
    case InsufficientPayment => 6002
    case PaymentFailed => 6003
    case InsufficientBalance => 6004
    case Unauthorized => 6005
    case InvalidOrderStatus => 6006
    case StoreAlreadyInitialized => 6007
  }

  /** The error's name in the table. */
  function ErrorName(e: ProgramError): string
  {
    match e
    case InvalidPrice => "InvalidPrice"
    case DesignNotAvailable => "DesignNotAvailable"
    case InsufficientPayment => "InsufficientPayment"
    case PaymentFailed => "PaymentFailed"
    case InsufficientBalance => "InsufficientBalance"
    case Unauthorized => "Unauthorized"
    case InvalidOrderStatus => "InvalidOrderStatus"
    case StoreAlreadyInitialized => "StoreAlreadyInitialized"
  }

  /** The error's message in the table. */
  function ErrorMessage(e: ProgramError): string
  {
    match e
    case InvalidPrice => "Invalid price"
    case DesignNotAvailable => "Design not available"
    case InsufficientPayment => "Insufficient payment"
    case PaymentFailed => "Payment failed"
    case InsufficientBalance => "Insufficient balance"
    case Unauthorized => "Unauthorized"
    case InvalidOrderStatus => "Invalid order status"
    case StoreAlreadyInitialized => "Store already initialized"
  }

  /** The error with code `c`; only 6000..6007 are program errors. */
  function ErrorFromCode(c: int): (r: Option<ProgramError>)
    ensures r.Some? <==> FIRST_ERROR_CODE <= c <= 6007
    ensures r.Some? ==> ErrorCode(r.value) == c
  {
    if FIRST_ERROR_CODE <= c < FIRST_ERROR_CODE + |ErrorTable| then
      var e := ErrorTable[c - FIRST_ERROR_CODE];
      assert ErrorCode(e) == c by {
        ErrorCodesConsecutive();
      }
      Some(e)
    else None
  }

  /** The error named `n`, if any. */
  function ErrorFromName(n: string): (r: Option<ProgramError>)
    ensures r.Some? ==> ErrorName(r.value) == n
  {
    if n == "InvalidPrice" then Some(InvalidPrice)
    else if n == "DesignNotAvailable" then Some(DesignNotAvailable)
    else if n == "InsufficientPayment" then Some(InsufficientPayment)
    else if n == "PaymentFailed" then Some(PaymentFailed)
    else if n == "InsufficientBalance" then Some(InsufficientBalance)
    else if n == "Unauthorized" then Some(Unauthorized)
    else if n == "InvalidOrderStatus" then Some(InvalidOrderStatus)
    else if n == "StoreAlreadyInitialized" then Some(StoreAlreadyInitialized)
    else None
  }

  /** The error whose message in the table is `m`, if any. */
  function ErrorFromMessage(m: string): (r: Option<ProgramError>)
    ensures r.Some? ==> ErrorMessage(r.value) == m
  {
    if m == "Invalid price" then Some(InvalidPrice)
    else if m == "Design not available" then Some(DesignNotAvailable)
    else if m == "Insufficient payment" then Some(InsufficientPayment)
    else if m == "Payment failed" then Some(PaymentFailed)
    else if m == "Insufficient balance" then Some(InsufficientBalance)
    else if m == "Unauthorized" then Some(Unauthorized)
    else if m == "Invalid order status" then Some(InvalidOrderStatus)
    else if m == "Store already initialized" then Some(StoreAlreadyInitialized)
    else None
  }

  /** The table's codes are 6000, 6001, ... in order. */
  lemma ErrorCodesConsecutive()
    ensures |ErrorTable| == 8
    ensures forall i :: 0 <= i < |ErrorTable| ==> ErrorCode(ErrorTable[i]) == FIRST_ERROR_CODE + i
  {
  }

  /** Code to error, name to error and message to error all invert their forward maps. */
  lemma ErrorRoundTrips(e: ProgramError)
    ensures ErrorFromCode(ErrorCode(e)) == Some(e)
    ensures ErrorFromName(ErrorName(e)) == Some(e)
    ensures ErrorFromMessage(ErrorMessage(e)) == Some(e)
  {
  }

  /** Distinct errors have distinct codes, distinct names and distinct messages. */
  lemma ErrorCodesAndNamesInjective(e1: ProgramError, e2: ProgramError)
    ensures ErrorCode(e1) == ErrorCode(e2) ==> e1 == e2
    ensures ErrorName(e1) == ErrorName(e2) ==> e1 == e2
    ensures ErrorMessage(e1) == ErrorMessage(e2) ==> e1 == e2
  {
    ErrorRoundTrips(e1);
    ErrorRoundTrips(e2);
  }

  // ---------------------------------------------------------------- records and layout

  /** The type of a record field or instruction argument. */
  datatype FieldType = U8 | U64 | I64 | Bool | PublicKey | Str | Defined(typeName: string) | Optional(inner: FieldType)

  datatype FieldDef = FieldDef(name: string, ty: FieldType)

  /** The `design` account's fields, in declared order. */
  const DesignLayout: seq<FieldDef> := [
    FieldDef("designId", U64), FieldDef("price", U64), FieldDef("title", Str),
    FieldDef("description", Str), FieldDef("imageUrl", Str), FieldDef("available", Bool),
    FieldDef("salesCount", U64), FieldDef("bump", U8)
  ]

  /** The `order` account's fields, in declared order. */
  const OrderLayout: seq<FieldDef> := [
    FieldDef("store", PublicKey), FieldDef("buyer", PublicKey), FieldDef("designId", U64),
    FieldDef("pricePaid", U64), FieldDef("shippingInfo", Str), FieldDef("status", Defined("OrderStatus")),
    FieldDef("createdAt", I64), FieldDef("bump", U8)
  ]

  /** The `store` account's fields, in declared order. */
  const StoreLayout: seq<FieldDef> := [
    FieldDef("authority", PublicKey), FieldDef("designsCount", U64), FieldDef("earnings", U64),
    FieldDef("bump", U8)
  ]

  /** Every account's data starts with an 8-byte discriminator. */
  const DISCRIMINATOR_SIZE: nat := 8

  /** The encoded width of a field type, when it does not depend on the value. */
  function FixedWidth(t: FieldType): Option<nat>
  {
    match t
    case U8 => Some(1)
    case Bool => Some(1)
    case U64 => Some(8)
    case I64 => Some(8)
    case PublicKey => Some(32)
    case _ => None
  }

  /** The total width of `fs`, when every one of its fields has a fixed width. */
  function PrefixWidth(fs: seq<FieldDef>): (r: Option<nat>)
    ensures r.Some? <==> forall i :: 0 <= i < |fs| ==> FixedWidth(fs[i].ty).Some?
  {
    if fs == [] then Some(0)
    else
      var rest := PrefixWidth(fs[1..]);
      assert forall i :: 1 <= i < |fs| ==> fs[i] == fs[1..][i - 1];
      match FixedWidth(fs[0].ty)
      case None => None
      case Some(w) => if rest.Some? then Some(w + rest.value) else None
  }

  /** The position of the first field named `name`. */
  function FieldIndex(fs: seq<FieldDef>, name: string): (r: Option<nat>)
    ensures r.Some? ==> r.value < |fs| && fs[r.value].name == name
    ensures r.Some? ==> forall j :: 0 <= j < r.value ==> fs[j].name != name
    ensures r.None? ==> forall j :: 0 <= j < |fs| ==> fs[j].name != name
  {
    if fs == [] then None
    else if fs[0].name == name then Some(0)
    else
      match FieldIndex(fs[1..], name)
      case None => None
      case Some(k) => Some(k + 1)
  }

  /**
   * The byte offset in the account data at which field `name` starts: the discriminator plus
   * the widths of the fields before it, when all of those have fixed widths.
   */
  function FieldOffset(fs: seq<FieldDef>, name: string): (r: Option<nat>)
    ensures r.Some? ==> r.value >= DISCRIMINATOR_SIZE
  {
    match FieldIndex(fs, name)
    case None => None
    case Some(k) =>
      match PrefixWidth(fs[..k])
      case None => None
      case Some(w) => Some(DISCRIMINATOR_SIZE + w)
  }

  /** The encoded size of a record all of whose fields have fixed widths. */
  function EncodedSize(fs: seq<FieldDef>): Option<nat>
  {
    match PrefixWidth(fs)
    case None => None
    case Some(w) => Some(DISCRIMINATOR_SIZE + w)
  }

  /** In a layout, a field whose name no earlier field carries is found at its own position. */
  lemma FieldIndexOfFirst(fs: seq<FieldDef>, k: nat)
    requires k < |fs|
    requires forall j :: 0 <= j < k ==> fs[j].name != fs[k].name
    ensures FieldIndex(fs, fs[k].name) == Some(k)
  {
  }

  /** Appending a field adds its width to the total, when both are fixed. */
  lemma {:induction false} PrefixWidthAppend(fs: seq<FieldDef>, f: FieldDef)
    ensures PrefixWidth(fs + [f])
         == if PrefixWidth(fs).Some? && FixedWidth(f.ty).Some? then Some(PrefixWidth(fs).value + FixedWidth(f.ty).value) else None
  {
    if fs == [] {
      assert [] + [f] == [f];
      assert [f][1..] == [];
    } else {
      assert (fs + [f])[1..] == fs[1..] + [f];
      PrefixWidthAppend(fs[1..], f);
    }
  }

  /**
   * Fields are laid out in declared order with no gaps: in a layout with distinct names the
   * first field starts right after the discriminator, and each next field starts where the
   * one before it ends; after a field of variable width no later field has a fixed offset.
   */
  lemma FieldsAreContiguous(fs: seq<FieldDef>, k: nat)
    requires k + 1 < |fs|
    requires forall i, j :: 0 <= i < j < |fs| ==> fs[i].name != fs[j].name
    ensures FieldOffset(fs, fs[0].name) == Some(DISCRIMINATOR_SIZE)
    ensures FieldOffset(fs, fs[k + 1].name)
         == if FieldOffset(fs, fs[k].name).Some? && FixedWidth(fs[k].ty).Some?
            then Some(FieldOffset(fs, fs[k].name).value + FixedWidth(fs[k].ty).value)
            else None
  {
    FieldIndexOfFirst(fs, 0);
    FieldIndexOfFirst(fs, k);
    FieldIndexOfFirst(fs, k + 1);
    assert fs[..k + 1] == fs[..k] + [fs[k]];
    PrefixWidthAppend(fs[..k], fs[k]);
  }

  /** In an order, `store` starts right after the discriminator and `buyer` 32 bytes later, at 40. */
  lemma OrderKeyOffsets()
    ensures FieldOffset(OrderLayout, "store") == Some(8)
    ensures FieldOffset(OrderLayout, "buyer") == Some(8 + 32)
  {
    FieldIndexOfFirst(OrderLayout, 0);
    FieldIndexOfFirst(OrderLayout, 1);
    assert OrderLayout[..1] == [FieldDef("store", PublicKey)];
  }

  /** In an order, `designId` follows the two keys, at 8 + 32 + 32. */
  lemma OrderDesignIdOffset()
    ensures FieldOffset(OrderLayout, "designId") == Some(8 + 32 + 32)
  {
    FieldIndexOfFirst(OrderLayout, 2);
    assert OrderLayout[..2] == [FieldDef("store", PublicKey), FieldDef("buyer", PublicKey)];
  }

  /** In an order, `status` comes after the string `shippingInfo`, so it has no fixed offset. */
  lemma OrderStatusOffsetUnfixed()
    ensures FieldOffset(OrderLayout, "status") == None
  {
    FieldIndexOfFirst(OrderLayout, 5);
    assert OrderLayout[..5][4].ty == Str;
  }

  /** A design starts with `designId` (bytes 8..16) and `price` (16..24). */
  lemma DesignLeadingOffsets()
    ensures FieldOffset(DesignLayout, "designId") == Some(8)
    ensures FieldOffset(DesignLayout, "price") == Some(8 + 8)
  {
    FieldIndexOfFirst(DesignLayout, 0);
    FieldIndexOfFirst(DesignLayout, 1);
  }

  /** The string `title` starts at 8 + 8 + 8; from `description` on no field has a fixed offset. */
  lemma DesignTextOffsets()
    ensures FieldOffset(DesignLayout, "title") == Some(8 + 8 + 8)
    ensures FieldOffset(DesignLayout, "description") == None
  {
    FieldIndexOfFirst(DesignLayout, 2);
    FieldIndexOfFirst(DesignLayout, 3);
    assert DesignLayout[..3][2].ty == Str;
  }

  /** A store is all fixed-width: 8 + 32 + 8 + 8 + 1 bytes. */
  lemma StoreSize()
    ensures EncodedSize(StoreLayout) == Some(8 + 32 + 8 + 8 + 1)
    ensures FieldOffset(StoreLayout, "designsCount") == Some(8 + 32)
    ensures FieldOffset(StoreLayout, "bump") == Some(8 + 32 + 8 + 8)
  {
    FieldIndexOfFirst(StoreLayout, 1);
    FieldIndexOfFirst(StoreLayout, 3);
  }

  /** The decoded `design` account. */
  datatype Design = Design(
    designId: u64, price: u64, title: string, description: string, imageUrl: string,
    available: bool, salesCount: u64, bump: u8)

  /** The decoded `order` account. */
  datatype Order = Order(
    store: Key, buyer: Key, designId: u64, pricePaid: u64, shippingInfo: string,
    status: OrderStatus, createdAt: i64, bump: u8)

  /** The decoded `store` account. */
  datatype Store = Store(authority: Key, designsCount: u64, earnings: u64, bump: u8)

  /** An account as a fetch of all accounts of one kind returns it: its address and its record. */
  datatype ProgramAccount<T> = ProgramAccount(publicKey: Key, account: T)

  // ---------------------------------------------------------------- byte filters

  /** A `memcmp` fetch filter: the account data holds `bytes` starting at `offset`. */
  datatype Memcmp = Memcmp(offset: nat, bytes: seq<byte>)

  predicate MemcmpMatches(data: seq<byte>, f: Memcmp)
  {
    f.offset + |f.bytes| <= |data| && data[f.offset..f.offset + |f.bytes|] == f.bytes
  }

  /** `data` holds `bytes` where the layout `fs` puts field `name`. */
  predicate FieldHolds(data: seq<byte>, fs: seq<FieldDef>, name: string, bytes: seq<byte>)
  {
    && FieldOffset(fs, name).Some?
    && FieldOffset(fs, name).value + |bytes| <= |data|
    && data[FieldOffset(fs, name).value..FieldOffset(fs, name).value + |bytes|] == bytes
  }

  /** `data` is the encoding of an order whose leading keys are those of `o`. */
  predicate OrderKeysLaidOut(data: seq<byte>, o: Order)
  {
    FieldHolds(data, OrderLayout, "store", o.store) && FieldHolds(data, OrderLayout, "buyer", o.buyer)
  }

  /** `data` is the encoding of a design whose leading integers (little-endian `u64`) are those of `d`. */
  predicate DesignLeadLaidOut(data: seq<byte>, d: Design)
  {
    && FieldHolds(data, DesignLayout, "designId", U64LittleEndian(d.designId))
    && FieldHolds(data, DesignLayout, "price", U64LittleEndian(d.price))
  }

  /** A filter for `key` at offset 8 + 32 selects exactly the orders whose buyer is `key`. */
  lemma BuyerFilterSelectsBuyer(data: seq<byte>, o: Order, key: Key)
    requires OrderKeysLaidOut(data, o)
    ensures MemcmpMatches(data, Memcmp(8 + 32, key)) <==> o.buyer == key
  {
    OrderKeyOffsets();
  }

  /** A filter for `key` at offset 8 selects exactly the orders whose store is `key`. */
  lemma StoreFilterSelectsOrderStore(data: seq<byte>, o: Order, key: Key)
    requires OrderKeysLaidOut(data, o)
    ensures MemcmpMatches(data, Memcmp(8, key)) <==> o.store == key
  {
    OrderKeyOffsets();
  }

  /**
   * A 32-byte filter at offset 8 on a design compares against `designId` and `price`, not a
   * store key: it can match only when the key's first sixteen bytes spell those two numbers.
   */
  lemma DesignOffsetEightIsDesignId(data: seq<byte>, d: Design, key: Key)
    requires DesignLeadLaidOut(data, d)
    requires MemcmpMatches(data, Memcmp(8, key))
    ensures FromLittleEndian(key[..8]) == d.designId
    ensures FromLittleEndian(key[8..16]) == d.price
  {
    DesignLeadingOffsets();
    assert key[..8] == data[8..16];
    assert data[8..40][8..16] == data[16..24];
  }

  // ---------------------------------------------------------------- instructions

  datatype Instruction =
    | InitializeStore
    | CreateDesign
    | UpdateDesign
    | ToggleDesignAvailability
    | CreateOrder
    | UpdateOrderStatus

  /** The account names the instructions use. */
  datatype AccountName =
    | OrderAccount
    | DesignAccount
    | StoreAccount
    | AuthorityAccount
    | StoreAuthorityAccount
    | BuyerAccount
    | SystemProgramAccount

  /** The name as the schema spells it. */
  function AccountNameText(n: AccountName): string
  {
    match n
    case OrderAccount => "order"
    case DesignAccount => "design"
    case StoreAccount => "store"
    case AuthorityAccount => "authority"
    case StoreAuthorityAccount => "storeAuthority"
    case BuyerAccount => "buyer"
    case SystemProgramAccount => "systemProgram"
  }

  /** Distinct names are spelled differently, so comparing names is comparing their spellings. */
  lemma AccountNameTextInjective(m: AccountName, n: AccountName)
    ensures AccountNameText(m) == AccountNameText(n) <==> m == n
  {
  }

  datatype AccountDef = AccountDef(name: AccountName, isMut: bool, isSigner: bool)

  /** The declared argument list of an instruction. */
  function Args(ix: Instruction): seq<FieldDef>
  {
    match ix
    case InitializeStore => []
    case CreateDesign =>
      [FieldDef("title", Str), FieldDef("description", Str), FieldDef("imageUrl", Str), FieldDef("price", U64)]
    case UpdateDesign =>
      [FieldDef("title", Optional(Str)), FieldDef("description", Optional(Str)),
       FieldDef("imageUrl", Optional(Str)), FieldDef("price", Optional(U64)),
       FieldDef("available", Optional(Bool))]
    case ToggleDesignAvailability => []
    case CreateOrder => [FieldDef("shippingInfo", Str)]
    case UpdateOrderStatus => [FieldDef("newStatus", Defined("OrderStatus"))]
  }

  /** The declared account list of an instruction. */
  function Accounts(ix: Instruction): seq<AccountDef>
  {
    match ix
    case InitializeStore =>
      [AccountDef(StoreAccount, true, false), AccountDef(AuthorityAccount, true, true),
       AccountDef(SystemProgramAccount, false, false)]
    case CreateDesign =>
      [AccountDef(DesignAccount, true, false), AccountDef(StoreAccount, true, false),
       AccountDef(AuthorityAccount, true, true), AccountDef(SystemProgramAccount, false, false)]
    case UpdateDesign =>
      [AccountDef(DesignAccount, true, false), AccountDef(StoreAccount, false, false), AccountDef(AuthorityAccount, false, true)]
    case ToggleDesignAvailability =>
      [AccountDef(DesignAccount, true, false), AccountDef(StoreAccount, false, false), AccountDef(AuthorityAccount, false, true)]
    case CreateOrder =>
      [AccountDef(OrderAccount, true, false), AccountDef(DesignAccount, true, false), AccountDef(StoreAccount, true, false),
       AccountDef(StoreAuthorityAccount, true, false), AccountDef(BuyerAccount, true, true),
       AccountDef(SystemProgramAccount, false, false)]
    case UpdateOrderStatus =>
      [AccountDef(OrderAccount, true, false), AccountDef(StoreAccount, false, false), AccountDef(AuthorityAccount, false, true)]
  }

  /** The names of the accounts an instruction takes, in declared order. */
  function AccountNames(ix: Instruction): seq<AccountName>
  {
    NamesOf(Accounts(ix))
  }

  function NamesOf(accounts: seq<AccountDef>): (r: seq<AccountName>)
    ensures |r| == |accounts| && forall i :: 0 <= i < |accounts| ==> r[i] == accounts[i].name
  {
    if accounts == [] then [] else [accounts[0].name] + NamesOf(accounts[1..])
  }

  /** Each instruction names each of its accounts once. */
  lemma AccountNamesDistinct(ix: Instruction)
    ensures forall i, j :: 0 <= i < j < |AccountNames(ix)| ==> AccountNames(ix)[i] != AccountNames(ix)[j]
  {
    var names := AccountNames(ix);
    match ix
    case InitializeStore =>
      assert names == [StoreAccount, AuthorityAccount, SystemProgramAccount];
    case CreateDesign =>
      assert names == [DesignAccount, StoreAccount, AuthorityAccount, SystemProgramAccount];
    case UpdateDesign =>
      assert names == [DesignAccount, StoreAccount, AuthorityAccount];
    case ToggleDesignAvailability =>
      assert names == [DesignAccount, StoreAccount, AuthorityAccount];
    case CreateOrder =>
      assert names == [OrderAccount, DesignAccount, StoreAccount, StoreAuthorityAccount, BuyerAccount, SystemProgramAccount];
    case UpdateOrderStatus =>
      assert names == [OrderAccount, StoreAccount, AuthorityAccount];
  }

  /** The argument lists: four mandatory for `createDesign`, five optional for `updateDesign`, one status. */
  lemma ArgumentLists()
    ensures |Args(CreateDesign)| == 4 && forall a :: a in Args(CreateDesign) ==> !a.ty.Optional?
    ensures |Args(UpdateDesign)| == 5 && forall a :: a in Args(UpdateDesign) ==> a.ty.Optional?
    ensures Args(UpdateOrderStatus) == [FieldDef("newStatus", Defined("OrderStatus"))]
    ensures Args(InitializeStore) == [] && Args(ToggleDesignAvailability) == []
  {
  }

  // ---------------------------------------------------------------- requests

  /** An argument value as the client passes it. */
  datatype ArgValue =
    | StrValue(s: string)
    | U64Value(n: u64)
    | BoolValue(b: bool)
    | NoneValue
    | VariantValue(key: string)

  /** The value fits the declared type; an enum value must be one of its variants' keys. */
  predicate ArgConforms(v: ArgValue, t: FieldType)
  {
    match t
    case Str => v.StrValue?
    case U64 => v.U64Value?
    case Bool => v.BoolValue?
    case Optional(inner) => v.NoneValue? || ArgConforms(v, inner)
    case Defined(n) => n == "OrderStatus" && v.VariantValue? && VariantFromKey(v.key).Some?
    case _ => false
  }

  /** An account passed to an instruction under its schema name. */
  datatype NamedAccount = NamedAccount(name: AccountName, key: Key)

  /** An instruction call as the client builds it: arguments in order and the named accounts as listed. */
  datatype Request = Request(ix: Instruction, args: seq<ArgValue>, accounts: seq<NamedAccount>)

  /** The names of the accounts of a call, in the order the call lists them. */
  function PassedNames(accounts: seq<NamedAccount>): (r: seq<AccountName>)
    ensures |r| == |accounts| && forall i :: 0 <= i < |accounts| ==> r[i] == accounts[i].name
  {
    if accounts == [] then [] else [accounts[0].name] + PassedNames(accounts[1..])
  }

  /**
   * The call matches the schema: the declared number and types of arguments, and exactly the
   * declared accounts, listed in declared order.
   */
  predicate Conforms(r: Request)
  {
    && |r.args| == |Args(r.ix)|
    && (forall i :: 0 <= i < |r.args| ==> ArgConforms(r.args[i], Args(r.ix)[i].ty))
    && PassedNames(r.accounts) == AccountNames(r.ix)
  }

  /** The system program's address, `11111111111111111111111111111111`: 32 zero bytes. */
  const SystemProgramId: Key := seq(32, _ => 0 as byte)
}
