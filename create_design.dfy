/**
 * The stand-alone design creation form: the wallet check, then the required-field check,
 * then the `createDesign` call; the button's disabled predicate implies both checks.
 */
module CreateDesign {
  import opened Wrappers
  import opened Bytes
  import opened Idl

  const CONNECT_WALLET: string := "Please connect your wallet!"
  const FILL_ALL_FIELDS: string := "Please fill in all fields!"
  const DEFAULT_FAILURE: string := "Failed to create design"

  /** A notification the form raises. */
  datatype Notice = ErrorNotice(message: string) | SuccessNotice(txid: string)

  /** One of the four fields is empty. */
  predicate SomeFieldEmpty(title: string, description: string, imageUrl: string, price: string)
  {
    title == "" || description == "" || imageUrl == "" || price == ""
  }

  /** The button's `disabled` expression. */
  predicate ButtonDisabled(hasProgram: bool, isLoading: bool, title: string, description: string, imageUrl: string, price: string)
  {
    !hasProgram || isLoading || SomeFieldEmpty(title, description, imageUrl, price)
  }

  /** The two guards of the handler, in order: the wallet first, then the fields. */
  function GuardNotice(hasProgram: bool, title: string, description: string, imageUrl: string, price: string): (n: Option<Notice>)
    ensures n.None? <==> hasProgram && !SomeFieldEmpty(title, description, imageUrl, price)
    ensures !hasProgram ==> n == Some(ErrorNotice(CONNECT_WALLET))
    ensures hasProgram && SomeFieldEmpty(title, description, imageUrl, price) ==> n == Some(ErrorNotice(FILL_ALL_FIELDS))
  {
    if !hasProgram then Some(ErrorNotice(CONNECT_WALLET))
    else if SomeFieldEmpty(title, description, imageUrl, price) then Some(ErrorNotice(FILL_ALL_FIELDS))
    else None
  }

  /** An enabled button passes both guards of the handler (the converse fails only while loading). */
  lemma EnabledButtonPassesGuards(hasProgram: bool, isLoading: bool, title: string, description: string, imageUrl: string, price: string)
    ensures !ButtonDisabled(hasProgram, isLoading, title, description, imageUrl, price) ==> GuardNotice(hasProgram, title, description, imageUrl, price).None?
    ensures !isLoading ==> (!ButtonDisabled(hasProgram, isLoading, title, description, imageUrl, price) <==> GuardNotice(hasProgram, title, description, imageUrl, price).None?)
  {
  }

  /** The notice after the call: its transaction id, or its error message, or the default one for an empty message. */
  function OutcomeNotice(rpc: Result<string>): (n: Notice)
    ensures rpc.Success? ==> n == SuccessNotice(rpc.value)
    ensures rpc.Failure? ==> n.ErrorNotice? && n.message != ""
    ensures rpc.Failure? && rpc.message != "" ==> n == ErrorNotice(rpc.message)
    ensures rpc.Failure? && rpc.message == "" ==> n == ErrorNotice(DEFAULT_FAILURE)
  {
    if rpc.Success? then SuccessNotice(rpc.value)
    else if rpc.message == "" then ErrorNotice(DEFAULT_FAILURE)
    else ErrorNotice(rpc.message)
  }

  /** The call this form makes: the four arguments and no accounts at all. */
  function DirectCreateDesignRequest(title: string, description: string, imageUrl: string, lamports: u64): Request
  {
    Request(CreateDesign, [StrValue(title), StrValue(description), StrValue(imageUrl), U64Value(lamports)], [])
  }

  /** Its arguments match the schema, but it lists none of the four accounts the schema declares. */
  lemma DirectRequestOmitsAccounts(title: string, description: string, imageUrl: string, lamports: u64)
    ensures var r := DirectCreateDesignRequest(title, description, imageUrl, lamports);
      && |r.args| == |Args(CreateDesign)|
      && (forall i :: 0 <= i < |r.args| ==> ArgConforms(r.args[i], Args(CreateDesign)[i].ty))
      && |AccountNames(CreateDesign)| == 4
      && !Conforms(r)
  {
    var r := DirectCreateDesignRequest(title, description, imageUrl, lamports);
    assert |AccountNames(CreateDesign)| == 4;
  }

  /** The form's state. */
  class CreateDesignForm {
    var isLoading: bool
    var title: string
    var description: string
    var imageUrl: string
    var price: string

    constructor ()
      ensures !isLoading && title == "" && description == "" && imageUrl == "" && price == ""
    {
      isLoading, title, description, imageUrl, price := false, "", "", "", "";
    }

    /**
     * `handleCreateDesign`: a failed guard raises its notice and changes nothing. Otherwise the
     * call goes out (`lamports` is the price already converted); the fields are cleared only
     * when it is confirmed, and the loading flag is down afterwards.
     */
    method HandleCreateDesign(hasProgram: bool, lamports: u64, rpc: Result<string>)
      returns (request: Option<Request>, notice: Notice)
      modifies this
      ensures var guard := GuardNotice(hasProgram, old(title), old(description), old(imageUrl), old(price));
        && (guard.Some? ==> request.None? && notice == guard.value)
        && (guard.Some? ==> isLoading == old(isLoading) && title == old(title) && description == old(description)
                            && imageUrl == old(imageUrl) && price == old(price))
        && (guard.None? ==> request == Some(DirectCreateDesignRequest(old(title), old(description), old(imageUrl), lamports)))
        && (guard.None? ==> !isLoading && notice == OutcomeNotice(rpc))
        && (guard.None? ==> var cleared := rpc.Success?;
              && title == (if cleared then "" else old(title))
              && description == (if cleared then "" else old(description))
              && imageUrl == (if cleared then "" else old(imageUrl))
              && price == (if cleared then "" else old(price)))
    {
      if !hasProgram {
        return None, ErrorNotice(CONNECT_WALLET);
      }
      if title == "" || description == "" || imageUrl == "" || price == "" {
        return None, ErrorNotice(FILL_ALL_FIELDS);
      }
      isLoading := true;
      request := Some(Request(CreateDesign, [StrValue(title), StrValue(description), StrValue(imageUrl), U64Value(lamports)], []));
      if rpc.Success? {
        notice := SuccessNotice(rpc.value);
        title, description, imageUrl, price := "", "", "", "";
      } else {
        notice := ErrorNotice(if rpc.message == "" then DEFAULT_FAILURE else rpc.message);
      }
      isLoading := false;
    }
  }
}
