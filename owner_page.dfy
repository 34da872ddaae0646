/**
 * The owner page: the store check that sets the initialised and owner flags, the design
 * creation form whose new design's address is derived from the store's current design
 * count, and the choice of what the page shows.
 */
module OwnerPage {
  import opened Wrappers
  import opened Bytes
  import opened Idl
  import opened Pda

  /** What the page shows. */
  datatype Screen = WalletNotConnected | InitializeStoreForm | Dashboard

  /** Not connected: the wallet message; connected but no store: the initialise form; otherwise forms and lists. */
  function PageScreen(connected: bool, storeInitialized: bool): (s: Screen)
    ensures s == WalletNotConnected <==> !connected
    ensures s == InitializeStoreForm <==> connected && !storeInitialized
    ensures s == Dashboard <==> connected && storeInitialized
  {
    if !connected then WalletNotConnected
    else if !storeInitialized then InitializeStoreForm
    else Dashboard
  }

  /** The ownership test: the store authority and the wallet key render to the same text. */
  predicate IsOwnerKey(authority: Key, wallet: Key, keyText: Key -> string)
  {
    keyText(authority) == keyText(wallet)
  }

  /** Since the text form of a key (base58) is injective, the test is key equality. */
  lemma OwnerTestIsKeyEquality(authority: Key, wallet: Key, keyText: Key -> string)
    requires forall a: Key, b: Key :: keyText(a) == keyText(b) ==> a == b
    ensures IsOwnerKey(authority, wallet, keyText) <==> authority == wallet
  {
  }

  /** The `createDesign` call of the form, for store record `store` read just before it. */
  function CreateDesignRequest(title: string, description: string, imageUrl: string, lamports: u64,
                               store: Store, derive: Derivation, authority: Key): Request
  {
    var storePda := derive(StoreSeeds());
    var designId := store.designsCount;
    Request(CreateDesign,
            [StrValue(title), StrValue(description), StrValue(imageUrl), U64Value(lamports)],
            [NamedAccount(DesignAccount, derive(DesignSeeds(storePda, designId))), NamedAccount(StoreAccount, storePda),
             NamedAccount(AuthorityAccount, authority), NamedAccount(SystemProgramAccount, SystemProgramId)])
  }

  /**
   * The call matches the schema, signs with the wallet as `authority`, and addresses the new
   * design by the seeds `["design", store address, id]` whose id bytes decode to the store's
   * `designsCount`.
   */
  lemma CreateDesignRequestSpec(title: string, description: string, imageUrl: string, lamports: u64,
                                store: Store, derive: Derivation, authority: Key)
    ensures var r := CreateDesignRequest(title, description, imageUrl, lamports, store, derive, authority);
      && Conforms(r)
      && r.accounts[0] == NamedAccount(DesignAccount, derive(DesignSeeds(derive(StoreSeeds()), store.designsCount)))
      && r.accounts[1] == NamedAccount(StoreAccount, derive(StoreSeeds()))
      && r.accounts[2] == NamedAccount(AuthorityAccount, authority)
  {
    CreateDesignRequestNames(title, description, imageUrl, lamports, store, derive, authority);
    CreateDesignRequestArgs(title, description, imageUrl, lamports, store, derive, authority);
  }

  /** The accounts are passed under the declared names, in declared order. */
  lemma CreateDesignRequestNames(title: string, description: string, imageUrl: string, lamports: u64,
                                 store: Store, derive: Derivation, authority: Key)
    ensures PassedNames(CreateDesignRequest(title, description, imageUrl, lamports, store, derive, authority).accounts)
         == AccountNames(CreateDesign)
  {
  }

  /** The four arguments have the declared types. */
  lemma CreateDesignRequestArgs(title: string, description: string, imageUrl: string, lamports: u64,
                                store: Store, derive: Derivation, authority: Key)
    ensures var r := CreateDesignRequest(title, description, imageUrl, lamports, store, derive, authority);
      |r.args| == |Args(r.ix)| && forall i :: 0 <= i < |r.args| ==> ArgConforms(r.args[i], Args(r.ix)[i].ty)
  {
  }

  /** Stores with different design counts give different design seed lists, so new designs never share seeds. */
  lemma DesignSeedsFollowCount(store1: Store, store2: Store, derive: Derivation)
    requires store1.designsCount != store2.designsCount
    ensures DesignSeeds(derive(StoreSeeds()), store1.designsCount) != DesignSeeds(derive(StoreSeeds()), store2.designsCount)
  {
    DesignSeedsInjective(derive(StoreSeeds()), store1.designsCount, derive(StoreSeeds()), store2.designsCount);
  }

  /** The owner page's state. */
  class OwnerPageState {
    var title: string
    var description: string
    var imageUrl: string
    var price: string
    var isLoading: bool
    var isOwner: bool
    var storeInitialized: bool

    constructor ()
      ensures title == "" && description == "" && imageUrl == "" && price == ""
      ensures !isLoading && !isOwner && !storeInitialized
    {
      title, description, imageUrl, price := "", "", "", "";
      isLoading, isOwner, storeInitialized := false, false, false;
    }

    /** The currently shown screen. */
    function Shown(connected: bool): Screen
      reads this
    {
      PageScreen(connected, storeInitialized)
    }

    /**
     * `checkStore`: with program and wallet, reads the store record. A successful read sets
     * the initialised flag and the owner flag from the authority; a failed read clears the
     * initialised flag and leaves the owner flag as it was. Without program or wallet nothing
     * changes.
     */
    method CheckStore(hasProgram: bool, publicKey: Option<Key>, fetched: Result<Store>, keyText: Key -> string)
      returns (requested: bool)
      modifies this
      ensures requested <==> hasProgram && publicKey.Some?
      ensures !requested ==> storeInitialized == old(storeInitialized) && isOwner == old(isOwner)
      ensures requested ==> storeInitialized == fetched.Success?
      ensures requested ==> isOwner == if fetched.Success? then IsOwnerKey(fetched.value.authority, publicKey.value, keyText) else old(isOwner)
      ensures title == old(title) && description == old(description) && imageUrl == old(imageUrl) && price == old(price)
      ensures isLoading == old(isLoading)
    {
      if !hasProgram || publicKey.None? {
        return false;
      }
      requested := true;
      if fetched.Success? {
        storeInitialized := true;
        isOwner := keyText(fetched.value.authority) == keyText(publicKey.value);
      } else {
        storeInitialized := false;
      }
    }

    /**
     * `handleSubmit`: without a program nothing happens. Otherwise the store record is read and,
     * if that succeeds, the `createDesign` call goes out with the design id taken from the
     * record's `designsCount`. The fields are cleared only when the call is confirmed; the
     * loading flag is down afterwards either way. `lamports` is the price already converted.
     */
    method HandleSubmit(hasProgram: bool, lamports: u64, providerKey: Key, derive: Derivation,
                        fetched: Result<Store>, confirmed: bool)
      returns (request: Option<Request>)
      modifies this
      ensures request.Some? <==> hasProgram && fetched.Success?
      ensures request.Some? ==> request.value == CreateDesignRequest(old(title), old(description), old(imageUrl), lamports, fetched.value, derive, providerKey)
      ensures request.Some? && confirmed ==> title == "" && description == "" && imageUrl == "" && price == ""
      ensures !(request.Some? && confirmed) ==> title == old(title) && description == old(description) && imageUrl == old(imageUrl) && price == old(price)
      ensures isLoading == if hasProgram then false else old(isLoading)
      ensures isOwner == old(isOwner) && storeInitialized == old(storeInitialized)
    {
      if !hasProgram {
        return None;
      }
      isLoading := true;
      match fetched {
        case Failure(_) =>
          request := None;
        case Success(store) =>
          // the design id is the record's design count at the time of the read
          request := Some(CreateDesignRequest(title, description, imageUrl, lamports, store, derive, providerKey));
          if confirmed {
            title, description, imageUrl, price := "", "", "", "";
          }
      }
      isLoading := false;
    }
  }
}
