/**
 * The design grid: fetching every design account, the visibility filter (owners see every
 * design, customers only available ones), and the choice between the loading message,
 * the empty message and the grid of cards.
 */
module DesignList {
  import opened Wrappers
  import opened Idl
  import Seqs

  /** Whether a viewer sees a design: the owner sees all, others only available ones. */
  predicate Visible(ownerView: bool, d: ProgramAccount<Design>)
  {
    ownerView || d.account.available
  }

  /** `filteredDesigns`: `designs.filter(d => ownerView || d.account.available)`. */
  function FilteredDesigns(designs: seq<ProgramAccount<Design>>, ownerView: bool): seq<ProgramAccount<Design>>
  {
    Seqs.Filter(designs, d => Visible(ownerView, d))
  }

  /** The owner's view shows every fetched design, in fetched order. */
  lemma OwnerSeesAll(designs: seq<ProgramAccount<Design>>)
    ensures FilteredDesigns(designs, true) == designs
  {
    Seqs.FilterAllPass(designs, d => Visible(true, d));
  }

  /**
   * A customer's view shows exactly the available designs: each as often as it was fetched,
   * in fetched order; an unavailable design never appears.
   */
  lemma CustomerSeesExactlyAvailable(designs: seq<ProgramAccount<Design>>, d: ProgramAccount<Design>)
    ensures d in FilteredDesigns(designs, false) <==> d in designs && d.account.available
    ensures multiset(FilteredDesigns(designs, false))[d] == if d.account.available then multiset(designs)[d] else 0
    ensures Seqs.IsSubsequence(FilteredDesigns(designs, false), designs)
  {
    var p := (x: ProgramAccount<Design>) => Visible(false, x);
    Seqs.FilterCount(designs, p, d);
    Seqs.FilterIsSubsequence(designs, p);
    assert d in FilteredDesigns(designs, false) <==> d in multiset(FilteredDesigns(designs, false));
  }

  /** The filter keeps fetched order, in either view, and applying it again changes nothing. */
  lemma FilterOrderPreservingIdempotent(designs: seq<ProgramAccount<Design>>, ownerView: bool)
    ensures Seqs.IsSubsequence(FilteredDesigns(designs, ownerView), designs)
    ensures FilteredDesigns(FilteredDesigns(designs, ownerView), ownerView) == FilteredDesigns(designs, ownerView)
  {
    Seqs.FilterIsSubsequence(designs, d => Visible(ownerView, d));
    Seqs.FilterIdempotent(designs, d => Visible(ownerView, d));
  }

  // ---------------------------------------------------------------- rendering

  /** The owner's toggle button label. */
  function ToggleLabel(available: bool): (text: string)
    ensures text == "Disable" <==> available
    ensures text == "Enable" <==> !available
  {
    if available then "Disable" else "Enable"
  }

  /** One card of the grid: the design, whether it is dimmed, and its button's label. */
  datatype Card = Card(design: ProgramAccount<Design>, dimmed: bool, button: string)

  /** What the component renders. */
  datatype Screen = Loading | Empty(message: string) | Grid(cards: seq<Card>)

  function CardFor(d: ProgramAccount<Design>, ownerView: bool): (c: Card)
    ensures c.design == d
    ensures c.dimmed <==> ownerView && !d.account.available
    ensures c.button == if ownerView then ToggleLabel(d.account.available) else "Buy Now"
  {
    Card(d, !d.account.available && ownerView, if ownerView then ToggleLabel(d.account.available) else "Buy Now")
  }

  function Cards(ds: seq<ProgramAccount<Design>>, ownerView: bool): (cs: seq<Card>)
    ensures |cs| == |ds| && forall i :: 0 <= i < |ds| ==> cs[i] == CardFor(ds[i], ownerView)
  {
    if ds == [] then [] else [CardFor(ds[0], ownerView)] + Cards(ds[1..], ownerView)
  }

  /** The render decision: loading first, then the empty message, then one card per visible design. */
  function Render(isLoading: bool, designs: seq<ProgramAccount<Design>>, ownerView: bool): Screen
  {
    var shown := FilteredDesigns(designs, ownerView);
    if isLoading then Loading
    else if |shown| == 0 then Empty(if ownerView then "No designs found" else "No available designs")
    else Grid(Cards(shown, ownerView))
  }

  /**
   * Loading takes priority over everything; with nothing visible the message depends on the
   * view, and the owner sees it only when nothing was fetched; otherwise the grid has one card
   * per visible design in order, and in a customer's view no card is dimmed and every card
   * offers "Buy Now".
   */
  lemma RenderSpec(isLoading: bool, designs: seq<ProgramAccount<Design>>, ownerView: bool)
    ensures isLoading ==> Render(isLoading, designs, ownerView) == Loading
    ensures !isLoading && (forall d :: d in designs ==> !Visible(ownerView, d)) ==>
      Render(isLoading, designs, ownerView) == Empty(if ownerView then "No designs found" else "No available designs")
    ensures !isLoading && ownerView ==> (Render(isLoading, designs, ownerView).Empty? <==> designs == [])
    ensures Render(isLoading, designs, ownerView).Grid? ==>
      var cs := Render(isLoading, designs, ownerView).cards;
      && !isLoading
      && |cs| == |FilteredDesigns(designs, ownerView)| > 0
      && (forall i :: 0 <= i < |cs| ==> cs[i].design == FilteredDesigns(designs, ownerView)[i])
      && (!ownerView ==> forall i :: 0 <= i < |cs| ==> !cs[i].dimmed && cs[i].button == "Buy Now" && cs[i].design.account.available)
  {
    OwnerSeesAll(designs);
  }

  /** The design list component's state. */
  class DesignListView {
    const ownerView: bool
    var designs: seq<ProgramAccount<Design>>
    var isLoading: bool

    constructor (ownerView: bool)
      ensures this.ownerView == ownerView && designs == [] && !isLoading
    {
      this.ownerView := ownerView;
      designs, isLoading := [], false;
    }

    /** What the component shows now. */
    function Shown(): Screen
      reads this
    {
      Render(isLoading, designs, ownerView)
    }

    /**
     * `fetchDesigns`: without a program nothing happens. Otherwise all design accounts are read
     * (no filter) and replace the list; a failed read keeps the old list. The loading flag is
     * down afterwards.
     */
    method FetchDesigns(hasProgram: bool, result: Result<seq<ProgramAccount<Design>>>)
      returns (requested: bool)
      modifies this
      ensures requested == hasProgram
      ensures designs == if hasProgram && result.Success? then result.value else old(designs)
      ensures isLoading == if hasProgram then false else old(isLoading)
    {
      if !hasProgram {
        return false;
      }
      isLoading := true;
      if result.Success? {
        designs := result.value;
      }
      isLoading := false;
      requested := true;
    }
  }
}
