/**
 * The order form: it reads the store record for its authority, derives the order's address
 * from the store and the buyer only, submits `createOrder`, and closes on success.
 */
module PlaceOrderForm {
  import opened Wrappers
  import opened Idl
  import opened Pda

  /** The `createOrder` call for the design at `design`, by `buyer`, with store record `store`. */
  function OrderRequest(shippingInfo: string, design: Key, buyer: Key, store: Store, derive: Derivation): Request
  {
    var storePda := derive(StoreSeeds());
    Request(CreateOrder, [StrValue(shippingInfo)],
            [NamedAccount(OrderAccount, derive(OrderSeeds(storePda, buyer))), NamedAccount(DesignAccount, design),
             NamedAccount(StoreAccount, storePda), NamedAccount(StoreAuthorityAccount, store.authority),
             NamedAccount(BuyerAccount, buyer), NamedAccount(SystemProgramAccount, SystemProgramId)])
  }

  /**
   * The call matches the schema, passes the record's authority as `storeAuthority` and the
   * buyer as signer, and its order address is derived from `["order", store address, buyer]`.
   */
  lemma OrderRequestSpec(shippingInfo: string, design: Key, buyer: Key, store: Store, derive: Derivation)
    ensures var r := OrderRequest(shippingInfo, design, buyer, store, derive);
      && Conforms(r)
      && r.accounts[3] == NamedAccount(StoreAuthorityAccount, store.authority)
      && r.accounts[4] == NamedAccount(BuyerAccount, buyer)
      && r.accounts[0] == NamedAccount(OrderAccount, derive(OrderSeeds(derive(StoreSeeds()), buyer)))
  {
    OrderRequestNames(shippingInfo, design, buyer, store, derive);
    OrderRequestArgs(shippingInfo, design, buyer, store, derive);
  }

  /** The accounts are passed under the declared names, in declared order. */
  lemma OrderRequestNames(shippingInfo: string, design: Key, buyer: Key, store: Store, derive: Derivation)
    ensures PassedNames(OrderRequest(shippingInfo, design, buyer, store, derive).accounts) == AccountNames(CreateOrder)
  {
  }

  /** The one argument has the declared type. */
  lemma OrderRequestArgs(shippingInfo: string, design: Key, buyer: Key, store: Store, derive: Derivation)
    ensures var r := OrderRequest(shippingInfo, design, buyer, store, derive);
      |r.args| == |Args(r.ix)| && forall i :: 0 <= i < |r.args| ==> ArgConforms(r.args[i], Args(r.ix)[i].ty)
  {
    var r := OrderRequest(shippingInfo, design, buyer, store, derive);
    assert ArgConforms(r.args[0], Args(r.ix)[0].ty);
  }

  /**
   * The order address does not depend on the design, the shipping text or the store record:
   * one buyer in one store always gets the same order address.
   */
  lemma OrderAddressIgnoresDesign(buyer: Key, derive: Derivation,
                                  info1: string, design1: Key, store1: Store,
                                  info2: string, design2: Key, store2: Store)
    ensures OrderRequest(info1, design1, buyer, store1, derive).accounts[0]
         == OrderRequest(info2, design2, buyer, store2, derive).accounts[0]
  {
  }

  /** The submit button is disabled while loading or without a wallet. */
  predicate SubmitDisabled(isLoading: bool, publicKey: Option<Key>)
  {
    isLoading || publicKey.None?
  }

  /** The handler's own guard: it needs both a program and a wallet. */
  predicate SubmitGuardPasses(hasProgram: bool, publicKey: Option<Key>)
  {
    hasProgram && publicKey.Some?
  }

  /**
   * An enabled button has a wallet behind it, so the handler's guard then turns only on the
   * program, which the button does not check; while not loading, the button is enabled exactly
   * when there is a wallet.
   */
  lemma EnabledSubmitHasWallet(hasProgram: bool, isLoading: bool, publicKey: Option<Key>)
    ensures !SubmitDisabled(isLoading, publicKey) ==> (SubmitGuardPasses(hasProgram, publicKey) <==> hasProgram)
    ensures !isLoading ==> (!SubmitDisabled(isLoading, publicKey) <==> publicKey.Some?)
    ensures SubmitDisabled(isLoading, None)
  {
  }

  /** The order form's state; `closeCalls` counts the calls of its `onClose` callback. */
  class PlaceOrderFormState {
    const design: Key
    var isLoading: bool
    var shippingInfo: string
    var closeCalls: nat

    constructor (design: Key)
      ensures this.design == design && !isLoading && shippingInfo == "" && closeCalls == 0
    {
      this.design := design;
      isLoading, shippingInfo, closeCalls := false, "", 0;
    }

    /**
     * `handleSubmit`: without program or wallet no request is made and nothing changes.
     * Otherwise the store record is read; if that succeeds the order call goes out, and only
     * when it is confirmed is `onClose` called. The loading flag is down afterwards.
     */
    method HandleSubmit(hasProgram: bool, publicKey: Option<Key>, derive: Derivation, fetched: Result<Store>, confirmed: bool)
      returns (request: Option<Request>)
      modifies this
      ensures request.Some? <==> SubmitGuardPasses(hasProgram, publicKey) && fetched.Success?
      ensures request.Some? ==> request.value == OrderRequest(shippingInfo, design, publicKey.value, fetched.value, derive)
      ensures closeCalls == old(closeCalls) + if request.Some? && confirmed then 1 else 0
      ensures isLoading == if hasProgram && publicKey.Some? then false else old(isLoading)
      ensures shippingInfo == old(shippingInfo)
    {
      if !SubmitGuardPasses(hasProgram, publicKey) {
        return None;
      }
      isLoading := true;
      if fetched.Failure? {
        isLoading := false;
        return None;
      }
      // the store authority comes from the record just read
      request := Some(OrderRequest(shippingInfo, design, publicKey.value, fetched.value, derive));
      if confirmed {
        closeCalls := closeCalls + 1;
      }
      isLoading := false;
    }
  }
}
