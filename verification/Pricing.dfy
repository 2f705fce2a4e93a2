/** Price overrides with validity windows, and the price that holds at a time. */
module Pricing {
  import opened Results

  type VariantId = nat
  type StoreId = nat
  type Time = int

  /** Times are ticks of the database clock; ids are ordered as the database orders them. */
  datatype Override = Override(
    id: nat, variant: VariantId, store: Option<StoreId>, price: int, from: Option<Time>, to: Option<Time>,
    createdAt: Time)

  /** What the catalog knows of a variant. */
  datatype Base = Base(price: int, currency: string)

  datatype Resolved = Resolved(variant: VariantId, currency: string, base: int, effective: int, override: Option<nat>)

  datatype Query = Query(variant: VariantId, at: Time, store: Option<StoreId>)

  // ---------------------------------------------------------------- resolution

  /** The window is half-open; a missing end is open-ended. */
  predicate InWindow(o: Override, at: Time) {
    (o.from.None? || o.from.value <= at) && (o.to.None? || o.to.value > at)
  }

  /** A query for a store sees its own overrides and the tenant-wide ones; a query for none sees only the latter. */
  predicate Applies(o: Override, q: Query) {
    && o.variant == q.variant && InWindow(o, q.at)
    && (o.store.None? || (q.store.Some? && o.store == q.store))
  }

  /** The three sort keys, worst first: store-specific, creation time, id. */
  predicate Below(a: Override, b: Override) {
    if a.store.Some? != b.store.Some? then b.store.Some?
    else if a.createdAt != b.createdAt then a.createdAt < b.createdAt
    else a.id < b.id
  }

  /** The first row of the sorted selection, if any. */
  function Best(rows: seq<Override>, q: Query): Option<Override> {
    if rows == [] then None
    else
      var best, o := Best(rows[..|rows| - 1], q), rows[|rows| - 1];
      if Applies(o, q) && (best.None? || Below(best.value, o)) then Some(o) else best
  }

  function ResolvePrice(catalog: map<VariantId, Base>, rows: seq<Override>, q: Query): Result<Resolved> {
    if q.variant !in catalog then Err(NotFound)
    else
      var base := catalog[q.variant];
      match Best(rows, q)
      case None => Ok(Resolved(q.variant, base.currency, base.price, base.price, None))
      case Some(o) => Ok(Resolved(q.variant, base.currency, base.price, o.price, Some(o.id)))
  }

  /** The primary key. */
  predicate Keyed(rows: seq<Override>) {
    forall a <- rows, b <- rows :: a.id == b.id ==> a == b
  }

  /** o is the maximum: it applies, and everything else that applies ranks below it. */
  predicate Tops(o: Override, rows: seq<Override>, q: Query) {
    o in rows && Applies(o, q) && forall p <- rows :: Applies(p, q) && p != o ==> Below(p, o)
  }

  /** The selection is the maximum of the rows that apply, and there is one exactly when some row applies. */
  lemma {:induction false} BestTops(rows: seq<Override>, q: Query)
    requires Keyed(rows)
    ensures Best(rows, q).Some? ==> Tops(Best(rows, q).value, rows, q)
    ensures Best(rows, q).None? ==> forall p <- rows :: !Applies(p, q)
  {
    if rows != [] {
      var before, o := rows[..|rows| - 1], rows[|rows| - 1];
      assert rows == before + [o];
      BestTops(before, q);
    }
  }

  /** So the selection is that row and no other can be the maximum. */
  lemma BestIsTheTop(o: Override, rows: seq<Override>, q: Query)
    requires Keyed(rows)
    ensures Best(rows, q) == Some(o) <==> Tops(o, rows, q)
  {
    BestTops(rows, q);
  }

  /**
   What a resolution answers, case by case: an unknown variant is an error; when no row applies the catalog's price
   holds and no override is named; otherwise the price and the id are those of the row that tops the rest.
   */
  lemma ResolvesExactly(catalog: map<VariantId, Base>, rows: seq<Override>, q: Query)
    requires Keyed(rows)
    ensures ResolvePrice(catalog, rows, q).Err? <==> q.variant !in catalog
    ensures q.variant !in catalog ==> ResolvePrice(catalog, rows, q) == Err(NotFound)
    ensures q.variant in catalog ==>
              var base, p := catalog[q.variant], ResolvePrice(catalog, rows, q).value;
              && p.variant == q.variant && p.currency == base.currency && p.base == base.price
              && (p.override.None? <==> forall o <- rows :: !Applies(o, q))
              && (p.override.None? ==> p.effective == base.price)
              && (forall o :: Tops(o, rows, q) ==> p.override == Some(o.id) && p.effective == o.price)
  {
    BestTops(rows, q);
  }

  /** The price does not depend on the order in which the database returns the rows. */
  lemma RowOrderIsIrrelevant(catalog: map<VariantId, Base>, rows: seq<Override>, rows': seq<Override>, q: Query)
    requires Keyed(rows) && forall o :: o in rows <==> o in rows'
    ensures ResolvePrice(catalog, rows, q) == ResolvePrice(catalog, rows', q)
  {
    BestTops(rows, q);
    BestTops(rows', q);
  }

  /** Two queries that the same rows apply to get the same row. */
  lemma {:induction false} SameRowsSameBest(rows: seq<Override>, q: Query, q': Query)
    requires forall o <- rows :: Applies(o, q) <==> Applies(o, q')
    ensures Best(rows, q) == Best(rows, q')
  {
    if rows != [] {
      var before, o := rows[..|rows| - 1], rows[|rows| - 1];
      assert rows == before + [o];
      SameRowsSameBest(before, q, q');
    }
  }

  predicate Within(t: Option<Time>, after: Time, until: Time) {
    t.Some? && after < t.value <= until
  }

  /** As time passes the price changes only when a window of one of the variant's overrides opens or closes. */
  lemma PriceChangesOnlyAtABoundary(catalog: map<VariantId, Base>, rows: seq<Override>, v: VariantId,
      store: Option<StoreId>, t: Time, t': Time)
    requires t <= t'
    requires ResolvePrice(catalog, rows, Query(v, t, store)) != ResolvePrice(catalog, rows, Query(v, t', store))
    ensures exists o <- rows :: o.variant == v && (Within(o.from, t, t') || Within(o.to, t, t'))
  {
    if forall o <- rows :: o.variant == v ==> !Within(o.from, t, t') && !Within(o.to, t, t') {
      SameRowsSameBest(rows, Query(v, t, store), Query(v, t', store));
      assert false;
    }
  }

  /** A store's price is its own best override when it has one that applies, and otherwise the tenant-wide price. */
  lemma StoreFallsBackToTenant(rows: seq<Override>, v: VariantId, at: Time, s: StoreId)
    requires Keyed(rows)
    ensures var own := exists o <- rows :: o.store == Some(s) && Applies(o, Query(v, at, Some(s)));
            var best := Best(rows, Query(v, at, Some(s)));
            if own then best.Some? && best.value.store == Some(s) else best == Best(rows, Query(v, at, None))
  {
    var q := Query(v, at, Some(s));
    BestTops(rows, q);
    if !exists o <- rows :: o.store == Some(s) && Applies(o, q) {
      SameRowsSameBest(rows, q, Query(v, at, None));
    }
  }

  // ---------------------------------------------------------------- writing an override

  datatype PriceEvent = OverrideSet(row: Override)

  /** The override table, its outbox, and the lookups a write makes. */
  class PriceBook {
    const catalog: map<VariantId, Base>
    const stores: set<StoreId>
    var rows: seq<Override>
    var outbox: seq<PriceEvent>

    /** No dead rows: every window holds some time.  Ids are the primary key. */
    ghost predicate Valid()
      reads this
    {
      && Keyed(rows)
      && (forall o <- rows :: exists at :: InWindow(o, at))
      && (forall o <- rows :: o.variant in catalog)
    }

    constructor (catalog: map<VariantId, Base>, stores: set<StoreId>)
      ensures Valid() && this.catalog == catalog && this.stores == stores && rows == [] && outbox == []
    {
      this.catalog, this.stores, rows, outbox := catalog, stores, [], [];
    }

    /** The database hands out the id and the creation time. */
    method SetOverride(v: VariantId, price: int, store: Option<StoreId>, from: Option<Time>, to: Option<Time>,
        id: nat, now: Time)
      returns (r: Result<Override>)
      requires Valid() && forall o <- rows :: o.id != id
      modifies this
      ensures Valid()
      ensures var o := Override(id, v, store, price, from, to, now);
              match r
              case Ok(o') => o' == o && rows == old(rows) + [o] && outbox == old(outbox) + [OverrideSet(o)]
              case Err(_) => rows == old(rows) && outbox == old(outbox)
      ensures r == Err(NotFound) <==> v !in catalog || (store.Some? && store.value !in stores)
      ensures v in catalog && (store.None? || store.value in stores) ==>
                (r == Err(Validation) <==> forall at :: !InWindow(Override(id, v, store, price, from, to, now), at))
    {
      if v !in catalog { return Err(NotFound); }
      if store.Some? && store.value !in stores { return Err(NotFound); }
      var o := Override(id, v, store, price, from, to, now);
      WindowHoldsATime(o);
      if from.Some? && to.Some? && from.value >= to.value { return Err(Validation); }
      rows := rows + [o];
      outbox := outbox + [OverrideSet(o)];
      return Ok(o);
    }
  }

  /** The write-time check refuses exactly the windows that hold no time. */
  lemma WindowHoldsATime(o: Override)
    ensures (exists at :: InWindow(o, at)) <==> !(o.from.Some? && o.to.Some? && o.from.value >= o.to.value)
  {
    var at := if o.from.Some? then o.from.value else if o.to.Some? then o.to.value - 1 else 0;
    if !(o.from.Some? && o.to.Some? && o.from.value >= o.to.value) {
      assert InWindow(o, at);
    }
  }

  /** Written no earlier than the others, and with the larger id on a tie. */
  predicate Latest(o: Override, rows: seq<Override>) {
    forall p <- rows :: p.createdAt < o.createdAt || (p.createdAt == o.createdAt && p.id < o.id)
  }

  /**
   The new row is what a query resolves to: it applies, and if it is tenant-wide no row of the store's own applies.
   */
  predicate Wins(o: Override, rows: seq<Override>, q: Query) {
    Applies(o, q) && (o.store.Some? || forall p <- rows :: p.store.Some? ==> !Applies(p, q))
  }

  /** A write reprices exactly the queries its row wins, for its whole window, and leaves every other query alone. */
  lemma NewRowRepricesExactly(catalog: map<VariantId, Base>, rows: seq<Override>, o: Override, q: Query)
    requires Keyed(rows) && Latest(o, rows)
    ensures ResolvePrice(catalog, rows + [o], q)
            == if q.variant in catalog && Wins(o, rows, q)
               then Ok(Resolved(q.variant, catalog[q.variant].currency, catalog[q.variant].price, o.price, Some(o.id)))
               else ResolvePrice(catalog, rows, q)
  {
    assert (rows + [o])[..|rows|] == rows;
    BestTops(rows, q);
  }
}
