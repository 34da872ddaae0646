/**
 * The shared data cache of the program context provider: the fetched designs and orders,
 * the loading flag, and the time of the last successful fetch, guarded by a 30-second
 * staleness window that a forced refresh overrides.
 */
module ProgramProvider {
  import opened Wrappers
  import opened Bytes
  import opened Idl
  import opened Pda

  /** The staleness window, in milliseconds. */
  const CACHE_DURATION: int := 30000

  /** The cache is fresh: a fetch has succeeded and less than the window has passed since. */
  predicate Fresh(lastFetchTime: int, now: int)
  {
    lastFetchTime > 0 && now - lastFetchTime < CACHE_DURATION
  }

  /** The guard of `refreshData`: go on to fetch unless the call is not forced and the cache is fresh. */
  predicate ShouldFetch(lastFetchTime: int, now: int, force: bool)
  {
    force || !Fresh(lastFetchTime, now)
  }

  /** A forced refresh fetches whatever the elapsed time. */
  lemma ForcedRefreshFetches(lastFetchTime: int, now: int)
    ensures ShouldFetch(lastFetchTime, now, true)
  {
  }

  /** Before the first successful fetch (`lastFetchTime == 0`) every refresh fetches. */
  lemma FirstRefreshFetches(now: int, force: bool)
    ensures ShouldFetch(0, now, force)
  {
  }

  /** An elapsed time of exactly the window is already stale: the comparison is strict. */
  lemma WindowBoundaryIsStale(lastFetchTime: int)
    ensures ShouldFetch(lastFetchTime, lastFetchTime + CACHE_DURATION, false)
  {
  }

  /** Inside the window a non-forced refresh does not fetch, and only inside it. */
  lemma NonForcedSkipsExactlyInsideWindow(lastFetchTime: int, now: int)
    ensures !ShouldFetch(lastFetchTime, now, false) <==> lastFetchTime > 0 && now < lastFetchTime + CACHE_DURATION
  {
  }

  /**
   * Designs of the store: a filter at offset 8 (after the discriminator) for the store's
   * address. In the design layout that offset is where `designId` starts.
   */
  function DesignFilter(derive: Derivation): (f: Memcmp)
    ensures Some(f.offset) == FieldOffset(DesignLayout, "designId") && f.bytes == derive(StoreSeeds())
  {
    DesignLeadingOffsets();
    Memcmp(8, derive(StoreSeeds()))
  }

  /**
   * The design filter the cache sends compares the store's address with a design's `designId`
   * and `price`: a design passes it only when those two numbers are spelled by the first
   * sixteen bytes of the store's address.
   */
  lemma DesignFilterComparesIdAndPrice(data: seq<byte>, d: Design, derive: Derivation)
    requires DesignLeadLaidOut(data, d)
    requires MemcmpMatches(data, DesignFilter(derive))
    ensures FromLittleEndian(derive(StoreSeeds())[..8]) == d.designId
    ensures FromLittleEndian(derive(StoreSeeds())[8..16]) == d.price
  {
    DesignOffsetEightIsDesignId(data, d, derive(StoreSeeds()));
  }

  /** Orders of the caller: a filter at offset 8 + 32, the `buyer` field, for the wallet's key. */
  function OrderFilter(wallet: Key): (f: Memcmp)
    ensures Some(f.offset) == FieldOffset(OrderLayout, "buyer") && f.bytes == wallet
  {
    OrderKeyOffsets();
    Memcmp(8 + 32, wallet)
  }

  /** The two reads a refresh performs, and the time captured before them. */
  datatype Ticket = Ticket(stamp: int, designFilter: Memcmp, orderFilter: Memcmp)

  /** What the two reads returned together, or the error that either threw. */
  datatype FetchResult = Fetched(designs: seq<ProgramAccount<Design>>, orders: seq<ProgramAccount<Order>>) | FetchFailed(message: string)

  class DataCache {
    var designs: seq<ProgramAccount<Design>>
    var orders: seq<ProgramAccount<Order>>
    var isLoading: bool
    /** Time of the last successful fetch; 0 until there is one. */
    var lastFetchTime: int

    constructor ()
      ensures designs == [] && orders == [] && !isLoading && lastFetchTime == 0
    {
      designs, orders, isLoading, lastFetchTime := [], [], false, 0;
    }

    /**
     * The part of `refreshData` before the reads are awaited: with no program or no wallet,
     * or with a fresh cache and no `force`, nothing happens; otherwise the loading flag is
     * raised and the reads go out, stamped with the time `now` read before them.
     */
    method BeginRefresh(hasProgram: bool, wallet: Option<Key>, now: int, force: bool, derive: Derivation)
      returns (ticket: Option<Ticket>)
      modifies this
      ensures ticket.Some? <==> hasProgram && wallet.Some? && ShouldFetch(old(lastFetchTime), now, force)
      ensures ticket.Some? ==> ticket.value == Ticket(now, DesignFilter(derive), OrderFilter(wallet.value))
      ensures isLoading == (ticket.Some? || old(isLoading))
      ensures designs == old(designs) && orders == old(orders) && lastFetchTime == old(lastFetchTime)
    {
      if !hasProgram || wallet.None? {
        return None;
      }
      if !force && lastFetchTime > 0 && now - lastFetchTime < CACHE_DURATION {
        return None;
      }
      isLoading := true;
      ticket := Some(Ticket(now, DesignFilter(derive), OrderFilter(wallet.value)));
    }

    /**
     * The part after the reads settle: on success both lists are replaced and the fetch time
     * becomes the ticket's stamp; on failure neither the lists nor the time change. Either
     * way the loading flag drops.
     */
    method EndRefresh(ticket: Ticket, result: FetchResult)
      modifies this
      ensures !isLoading
      ensures result.Fetched? ==> designs == result.designs && orders == result.orders && lastFetchTime == ticket.stamp
      ensures result.FetchFailed? ==> designs == old(designs) && orders == old(orders) && lastFetchTime == old(lastFetchTime)
    {
      if result.Fetched? {
        designs := result.designs;
        orders := result.orders;
        lastFetchTime := ticket.stamp;
      }
      isLoading := false;
    }

    /** `refreshData(force)` as one step, the reads returning `result` when they are made. */
    method Refresh(hasProgram: bool, wallet: Option<Key>, now: int, force: bool, derive: Derivation, result: FetchResult)
      returns (fetched: bool)
      modifies this
      ensures fetched <==> hasProgram && wallet.Some? && ShouldFetch(old(lastFetchTime), now, force)
      ensures !fetched ==> designs == old(designs) && orders == old(orders) && lastFetchTime == old(lastFetchTime) && isLoading == old(isLoading)
      ensures fetched ==> !isLoading
      ensures fetched && result.Fetched? ==> designs == result.designs && orders == result.orders && lastFetchTime == now
      ensures fetched && result.FetchFailed? ==> designs == old(designs) && orders == old(orders) && lastFetchTime == old(lastFetchTime)
    {
      var ticket := BeginRefresh(hasProgram, wallet, now, force, derive);
      fetched := ticket.Some?;
      if fetched {
        assert isLoading;
        EndRefresh(ticket.value, result);
      }
    }
  }

  /**
   * Two refreshes within the window perform one fetch: after a successful fetch at `t1 > 0`,
   * a non-forced refresh at `t2 < t1 + 30000` fetches nothing and changes nothing, while a
   * failed fetch leaves the next non-forced call free to fetch again.
   */
  method RefreshTwice(c: DataCache, wallet: Key, t1: int, t2: int, derive: Derivation, r1: FetchResult, r2: FetchResult)
    returns (first: bool, second: bool)
    requires c.lastFetchTime == 0
    requires 0 < t1 <= t2
    modifies c
    ensures first
    ensures second <==> r1.FetchFailed? || t2 >= t1 + CACHE_DURATION
    ensures r1.Fetched? && !second ==> c.designs == r1.designs && c.orders == r1.orders && c.lastFetchTime == t1
  {
    first := c.Refresh(true, Some(wallet), t1, false, derive, r1);
    second := c.Refresh(true, Some(wallet), t2, false, derive, r2);
  }
}
