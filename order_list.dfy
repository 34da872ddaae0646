/**
 * The order list view: fetching the orders the viewer may see, the search-and-sort
 * pipeline over them, the asc/desc toggle, and the owner's status update call.
 */
module OrderList {
  import opened Wrappers
  import opened Idl
  import opened Pda
  import Seqs
  import ProgramProvider

  // ---------------------------------------------------------------- text

  /** `toLowerCase` on one character, for the letters A to Z. */
  function LowerChar(c: char): char
  {
    if 'A' <= c <= 'Z' then (c as int + 32) as char else c
  }

  /** `s.toLowerCase()`, character by character. */
  function Lower(s: string): (r: string)
    ensures |r| == |s| && forall i :: 0 <= i < |s| ==> r[i] == LowerChar(s[i])
  {
    if s == [] then [] else [LowerChar(s[0])] + Lower(s[1..])
  }

  /** Lower-casing twice is lower-casing once. */
  lemma LowerIdempotent(s: string)
    ensures Lower(Lower(s)) == Lower(s)
  {
  }

  /** `s.includes(sub)`: `sub` occurs in `s` at some position. */
  predicate Includes(s: string, sub: string)
    decreases |s|
  {
    if |sub| > |s| then false
    else s[..|sub|] == sub || Includes(s[1..], sub)
  }

  /** `sub` occurs in `s` starting at position `i`. */
  predicate OccursAt(s: string, sub: string, i: int)
  {
    0 <= i && i + |sub| <= |s| && s[i..i + |sub|] == sub
  }

  /** `Includes` holds exactly when `sub` occurs at some position. */
  lemma {:induction false} IncludesAt(s: string, sub: string)
    ensures Includes(s, sub) <==> exists i :: OccursAt(s, sub, i)
    decreases |s|
  {
    if |sub| <= |s| {
      if s[..|sub|] == sub {
        assert OccursAt(s, sub, 0);
      } else {
        IncludesAt(s[1..], sub);
        if Includes(s[1..], sub) {
          var i :| OccursAt(s[1..], sub, i);
          assert OccursAt(s, sub, i + 1) by {
            assert s[i + 1..i + 1 + |sub|] == s[1..][i..i + |sub|];
          }
        }
        if exists i :: OccursAt(s, sub, i) {
          var i :| OccursAt(s, sub, i);
          assert i != 0;
          assert OccursAt(s[1..], sub, i - 1) by {
            assert s[1..][i - 1..i - 1 + |sub|] == s[i..i + |sub|];
          }
        }
      }
    }
  }

  /** Every string includes the empty string. */
  lemma IncludesEmpty(s: string)
    ensures Includes(s, "")
  {
  }

  // ---------------------------------------------------------------- search

  /**
   * The search test: the address, as `keyText` renders it, contains the term exactly as typed,
   * or the shipping info contains it ignoring case.
   */
  predicate MatchesSearch(o: ProgramAccount<Order>, term: string, keyText: Key -> string)
  {
    Includes(keyText(o.publicKey), term) || Includes(Lower(o.account.shippingInfo), Lower(term))
  }

  /** `orders.filter(...)` with the search test. */
  function Search(orders: seq<ProgramAccount<Order>>, term: string, keyText: Key -> string): seq<ProgramAccount<Order>>
  {
    Seqs.Filter(orders, o => MatchesSearch(o, term, keyText))
  }

  /** An order survives the search exactly when it matches; survivors keep their order and multiplicity. */
  lemma SearchSpec(orders: seq<ProgramAccount<Order>>, term: string, keyText: Key -> string, o: ProgramAccount<Order>)
    ensures o in Search(orders, term, keyText) <==> o in orders && MatchesSearch(o, term, keyText)
    ensures Seqs.IsSubsequence(Search(orders, term, keyText), orders)
    ensures multiset(Search(orders, term, keyText))[o] == if MatchesSearch(o, term, keyText) then multiset(orders)[o] else 0
  {
    var p := (x: ProgramAccount<Order>) => MatchesSearch(x, term, keyText);
    Seqs.FilterIsSubsequence(orders, p);
    Seqs.FilterCount(orders, p, o);
    if o in orders && p(o) {
      var i :| 0 <= i < |orders| && orders[i] == o;
    }
    if o in Search(orders, term, keyText) {
      var i :| 0 <= i < |Search(orders, term, keyText)| && Search(orders, term, keyText)[i] == o;
    }
  }

  /** An empty search term keeps every order, in place. */
  lemma EmptySearchKeepsAll(orders: seq<ProgramAccount<Order>>, keyText: Key -> string)
    ensures Search(orders, "", keyText) == orders
  {
    var p := (x: ProgramAccount<Order>) => MatchesSearch(x, "", keyText);
    forall i | 0 <= i < |orders| ensures p(orders[i]) {
      IncludesEmpty(keyText(orders[i].publicKey));
    }
    Seqs.FilterAllPass(orders, p);
  }

  // ---------------------------------------------------------------- sort

  datatype SortDirection = Asc | Desc

  /** The toggle of the sort button. */
  function Toggle(d: SortDirection): (r: SortDirection)
    ensures r != d
  {
    if d == Asc then Desc else Asc
  }

  /** Toggling twice restores the direction. */
  lemma ToggleInvolution(d: SortDirection)
    ensures Toggle(Toggle(d)) == d
  {
  }

  /** `a` may come before `b`: by `createdAt`, rising for `Asc`, falling for `Desc`. */
  predicate InOrder(d: SortDirection, a: ProgramAccount<Order>, b: ProgramAccount<Order>)
  {
    if d == Asc then a.account.createdAt <= b.account.createdAt else a.account.createdAt >= b.account.createdAt
  }

  predicate SortedBy(d: SortDirection, xs: seq<ProgramAccount<Order>>)
  {
    forall i, j :: 0 <= i < j < |xs| ==> InOrder(d, xs[i], xs[j])
  }

  /** Puts `x` in front of the first element it may precede. */
  function Insert(d: SortDirection, x: ProgramAccount<Order>, xs: seq<ProgramAccount<Order>>): (r: seq<ProgramAccount<Order>>)
    ensures multiset(r) == multiset(xs) + multiset{x}
  {
    if xs == [] then [x]
    else if InOrder(d, x, xs[0]) then [x] + xs
    else
      assert xs == [xs[0]] + xs[1..];
      [xs[0]] + Insert(d, x, xs[1..])
  }

  /** A sorted list with an element in front that may precede all of it is sorted. */
  lemma SortedCons(d: SortDirection, y: ProgramAccount<Order>, ys: seq<ProgramAccount<Order>>)
    requires SortedBy(d, ys)
    requires forall i :: 0 <= i < |ys| ==> InOrder(d, y, ys[i])
    ensures SortedBy(d, [y] + ys)
  {
    var r := [y] + ys;
    forall i, j | 0 <= i < j < |r| ensures InOrder(d, r[i], r[j]) {
      assert r[j] == ys[j - 1];
      if i > 0 {
        assert r[i] == ys[i - 1];
      }
    }
  }

  /** Inserting into a sorted list keeps it sorted. */
  lemma {:induction false} InsertSorted(d: SortDirection, x: ProgramAccount<Order>, xs: seq<ProgramAccount<Order>>)
    requires SortedBy(d, xs)
    ensures SortedBy(d, Insert(d, x, xs))
  {
    if xs == [] {
    } else if InOrder(d, x, xs[0]) {
      forall i | 0 <= i < |xs| ensures InOrder(d, x, xs[i]) {
        if i > 0 {
          assert InOrder(d, xs[0], xs[i]);
        }
      }
      SortedCons(d, x, xs);
    } else {
      var tail := xs[1..];
      assert SortedBy(d, tail) by {
        forall i, j | 0 <= i < j < |tail| ensures InOrder(d, tail[i], tail[j]) {
          assert tail[i] == xs[i + 1] && tail[j] == xs[j + 1];
        }
      }
      InsertSorted(d, x, tail);
      var rest := Insert(d, x, tail);
      forall i | 0 <= i < |rest| ensures InOrder(d, xs[0], rest[i]) {
        assert rest[i] in multiset(rest);
        if rest[i] != x {
          assert rest[i] in multiset(tail);
          var j :| 0 <= j < |tail| && tail[j] == rest[i];
          assert xs[j + 1] == rest[i];
        }
      }
      SortedCons(d, xs[0], rest);
    }
  }

  /** The `.sort(...)` on `createdAt`: an ordering of `xs` sorted in direction `d`. */
  function SortByCreatedAt(d: SortDirection, xs: seq<ProgramAccount<Order>>): (r: seq<ProgramAccount<Order>>)
    ensures multiset(r) == multiset(xs)
    ensures SortedBy(d, r)
  {
    if xs == [] then []
    else
      assert xs == [xs[0]] + xs[1..];
      var sortedTail := SortByCreatedAt(d, xs[1..]);
      InsertSorted(d, xs[0], sortedTail);
      Insert(d, xs[0], sortedTail)
  }

  /** `filteredOrders`: the search, then the sort. */
  function FilteredOrders(orders: seq<ProgramAccount<Order>>, term: string, d: SortDirection, keyText: Key -> string): seq<ProgramAccount<Order>>
  {
    SortByCreatedAt(d, Search(orders, term, keyText))
  }

  /**
   * The list shown is sorted in the chosen direction (non-decreasing for `Asc`, non-increasing
   * for `Desc`), holds exactly the matching orders, each as often as it was fetched, and with
   * an empty search term is a reordering of everything fetched.
   */
  lemma FilteredOrdersSpec(orders: seq<ProgramAccount<Order>>, term: string, d: SortDirection, keyText: Key -> string, o: ProgramAccount<Order>)
    ensures var r := FilteredOrders(orders, term, d, keyText);
      && (d == Asc ==> forall i, j :: 0 <= i < j < |r| ==> r[i].account.createdAt <= r[j].account.createdAt)
      && (d == Desc ==> forall i, j :: 0 <= i < j < |r| ==> r[i].account.createdAt >= r[j].account.createdAt)
      && multiset(r) == multiset(Search(orders, term, keyText))
      && (o in r <==> o in orders && MatchesSearch(o, term, keyText))
      && (term == "" ==> multiset(r) == multiset(orders))
  {
    var r := FilteredOrders(orders, term, d, keyText);
    SearchSpec(orders, term, keyText, o);
    assert o in r <==> o in multiset(r);
    assert o in Search(orders, term, keyText) <==> o in multiset(Search(orders, term, keyText));
    if term == "" {
      EmptySearchKeepsAll(orders, keyText);
    }
  }

  // ---------------------------------------------------------------- status update

  /** The options of the owner's status select, in the order shown. */
  const StatusOptions: seq<string> := ["Created", "Pending", "Shipped", "Delivered", "Completed", "Cancelled"]

  /** `{ [option.toLowerCase()]: {} }`: a single-key object keyed by the lower-cased option. */
  function EncodeStatusOption(option: string): (v: ArgValue)
    ensures v.VariantValue? && |v.key| == |option|
  {
    VariantValue(Lower(option))
  }

  /** Lower-casing a variant's declared name gives its object key. */
  lemma LowerVariantName(s: OrderStatus)
    ensures Lower(VariantName(s)) == VariantKey(s)
  {
    var n, k := VariantName(s), VariantKey(s);
    assert |n| == |k|;
    forall i | 0 <= i < |n| ensures LowerChar(n[i]) == k[i] {
      match s
      case Created =>
      case Pending =>
      case Shipped =>
      case Delivered =>
      case Cancelled =>
      case Completed =>
    }
  }

  /** Each variant's name is an option, and it encodes to that variant's key ("Shipped" to `{ shipped: {} }`). */
  lemma StatusOptionEncoding(s: OrderStatus)
    ensures VariantName(s) in StatusOptions
    ensures EncodeStatusOption(VariantName(s)) == VariantValue(VariantKey(s))
    ensures VariantFromKey(EncodeStatusOption(VariantName(s)).key) == Some(s)
  {
    LowerVariantName(s);
    VariantNameKeyRoundTrip(s);
  }

  /** The options are exactly the six variant names, each once. */
  lemma StatusOptionsAreVariants()
    ensures |StatusOptions| == |OrderStatusVariants|
    ensures forall i :: 0 <= i < |StatusOptions| ==> VariantFromName(StatusOptions[i]).Some?
    ensures forall i, j :: 0 <= i < j < |StatusOptions| ==> StatusOptions[i] != StatusOptions[j]
  {
  }

  /**
   * The option an uncontrolled select starts at: the option whose value is its default value,
   * or the first option when none matches.
   */
  function InitialOption(defaultValue: string): (shown: string)
    ensures shown in StatusOptions
    ensures defaultValue in StatusOptions ==> shown == defaultValue
    ensures defaultValue !in StatusOptions ==> shown == StatusOptions[0]
  {
    if defaultValue in StatusOptions then defaultValue else StatusOptions[0]
  }

  /**
   * As written, each row's select defaults to the key of the order's decoded status, which is
   * lower case and so matches no option value: every row starts at "Created", whatever the
   * order's status.
   */
  lemma StatusSelectIgnoresStatus(s: OrderStatus)
    ensures VariantKey(s) !in StatusOptions
    ensures InitialOption(VariantKey(s)) == "Created"
  {
    var k := VariantKey(s);
    assert k[0] != 'C' && k[0] != 'P' && k[0] != 'S' && k[0] != 'D';
    forall i | 0 <= i < |StatusOptions|
      ensures StatusOptions[i] != k
    {
      assert StatusOptions[i][0] != k[0];
    }
  }

  /** Defaulting to the variant's declared name instead starts each row at the order's own status. */
  lemma StatusSelectShowsStatus(s: OrderStatus)
    ensures InitialOption(VariantName(s)) == VariantName(s)
    ensures VariantFromName(InitialOption(VariantName(s))) == Some(s)
  {
    VariantNameKeyRoundTrip(s);
    var i := match s
      case Created => 0
      case Pending => 1
      case Shipped => 2
      case Delivered => 3
      case Completed => 4
      case Cancelled => 5;
    assert StatusOptions[i] == VariantName(s);
  }

  /** The call `updateOrderStatus` makes when program and wallet are present. */
  function StatusUpdateRequest(orderPda: Key, option: string, derive: Derivation, authority: Key): Request
  {
    Request(UpdateOrderStatus, [EncodeStatusOption(option)],
            [NamedAccount(OrderAccount, orderPda), NamedAccount(StoreAccount, derive(StoreSeeds())),
             NamedAccount(AuthorityAccount, authority)])
  }

  /** For any option of the select the call matches the schema of `updateOrderStatus`. */
  lemma StatusUpdateRequestConforms(orderPda: Key, option: string, derive: Derivation, authority: Key)
    requires option in StatusOptions
    ensures Conforms(StatusUpdateRequest(orderPda, option, derive, authority))
  {
    assert VariantFromKey(Lower(option)).Some? by {
      assert VariantFromName(option).Some? by {
        StatusOptionsAreVariants();
      }
      StatusOptionEncoding(VariantFromName(option).value);
    }
    StatusUpdateRequestConformsFor(orderPda, option, derive, authority);
  }

  /** A status call conforms exactly when its lower-cased option is the key of a variant. */
  lemma StatusUpdateRequestConformsFor(orderPda: Key, option: string, derive: Derivation, authority: Key)
    ensures Conforms(StatusUpdateRequest(orderPda, option, derive, authority)) <==> VariantFromKey(Lower(option)).Some?
  {
    var r := StatusUpdateRequest(orderPda, option, derive, authority);
    assert PassedNames(r.accounts) == AccountNames(UpdateOrderStatus);
    assert Args(r.ix)[0].ty == Defined("OrderStatus") && r.args[0] == VariantValue(Lower(option));
    if VariantFromKey(Lower(option)).Some? {
      assert ArgConforms(r.args[0], Args(r.ix)[0].ty);
    }
    if Conforms(r) {
      assert ArgConforms(r.args[0], Args(r.ix)[0].ty);
    }
  }

  // ---------------------------------------------------------------- the view

  /** Which orders `fetchOrders` reads: all of them, or those whose buyer bytes equal the caller's key. */
  datatype OrderQuery = AllOrders | Filtered(filter: Memcmp)

  /** The query for a viewer: owners read all orders, others only their own. */
  function QueryFor(ownerView: bool, caller: Key): (q: OrderQuery)
    ensures ownerView <==> q == AllOrders
    ensures !ownerView ==> q.filter == ProgramProvider.OrderFilter(caller)
  {
    if ownerView then AllOrders else Filtered(Memcmp(8 + 32, caller))
  }

  /** Under the non-owner query, an order laid out per the schema is fetched exactly when its buyer is the caller. */
  lemma QuerySelectsOwnOrders(caller: Key, data: seq<Bytes.byte>, o: Order)
    requires OrderKeysLaidOut(data, o)
    ensures MemcmpMatches(data, QueryFor(false, caller).filter) <==> o.buyer == caller
  {
    BuyerFilterSelectsBuyer(data, o, caller);
  }

  class OrderListView {
    const ownerView: bool
    var orders: seq<ProgramAccount<Order>>
    var isLoading: bool
    var searchTerm: string
    var sortDirection: SortDirection

    constructor (ownerView: bool)
      ensures this.ownerView == ownerView
      ensures orders == [] && !isLoading && searchTerm == "" && sortDirection == Desc
    {
      this.ownerView := ownerView;
      orders, isLoading, searchTerm, sortDirection := [], false, "", Desc;
    }

    /** What the table shows. */
    function Shown(keyText: Key -> string): seq<ProgramAccount<Order>>
      reads this
    {
      FilteredOrders(orders, searchTerm, sortDirection, keyText)
    }

    /** The search box's `onChange`. */
    method SetSearchTerm(term: string)
      modifies this
      ensures searchTerm == term
      ensures orders == old(orders) && isLoading == old(isLoading) && sortDirection == old(sortDirection)
    {
      searchTerm := term;
    }

    /** The sort button: flips between `Asc` and `Desc`. */
    method ToggleSort()
      modifies this
      ensures sortDirection == Toggle(old(sortDirection))
      ensures orders == old(orders) && isLoading == old(isLoading) && searchTerm == old(searchTerm)
    {
      sortDirection := if sortDirection == Asc then Desc else Asc;
    }

    /**
     * `fetchOrders`: with program and wallet, reads the viewer's query and replaces the list
     * with what it returns, keeping the old list if the read fails; the loading flag is down
     * afterwards. Without program or wallet nothing happens.
     */
    method FetchOrders(hasProgram: bool, publicKey: Option<Key>, result: Result<seq<ProgramAccount<Order>>>)
      returns (query: Option<OrderQuery>)
      modifies this
      ensures query.Some? <==> hasProgram && publicKey.Some?
      ensures query.Some? ==> query.value == QueryFor(ownerView, publicKey.value) && !isLoading
      ensures orders == if query.Some? && result.Success? then result.value else old(orders)
      ensures query.None? ==> isLoading == old(isLoading)
      ensures searchTerm == old(searchTerm) && sortDirection == old(sortDirection)
    {
      if !hasProgram || publicKey.None? {
        return None;
      }
      isLoading := true;
      query := Some(if ownerView then AllOrders else Filtered(Memcmp(8 + 32, publicKey.value)));
      if result.Success? {
        orders := result.value;
      }
      isLoading := false;
    }

    /**
     * `updateOrderStatus`: with program and wallet, sends the status call for the chosen option,
     * signed by the wallet; a confirmed call is followed by `fetchOrders`, whose read returns
     * `refetched`, and a failed one changes nothing. Without program or wallet nothing happens.
     */
    method UpdateOrderStatus(hasProgram: bool, publicKey: Option<Key>, orderPda: Key, option: string, derive: Derivation,
                             confirmed: bool, refetched: Result<seq<ProgramAccount<Order>>>)
      returns (request: Option<Request>)
      modifies this
      ensures request.Some? <==> hasProgram && publicKey.Some?
      ensures request.Some? ==> request.value == StatusUpdateRequest(orderPda, option, derive, publicKey.value)
      ensures request.Some? ==> request.value.args == [VariantValue(Lower(option))]
      ensures orders == if request.Some? && confirmed && refetched.Success? then refetched.value else old(orders)
      ensures isLoading == if request.Some? && confirmed then false else old(isLoading)
      ensures searchTerm == old(searchTerm) && sortDirection == old(sortDirection)
    {
      if !hasProgram || publicKey.None? {
        return None;
      }
      request := Some(StatusUpdateRequest(orderPda, option, derive, publicKey.value));
      if confirmed {
        var query := FetchOrders(hasProgram, publicKey, refetched);
      }
    }
  }
}
