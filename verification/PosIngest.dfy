/** The catalog pull from the point of sale: upsert each product by sku and drive its stock in one warehouse. */
module PosIngest {
  import opened Results
  import opened Inventory

  /** One product as the point of sale reports it. */
  datatype PosProduct = PosProduct(sku: Sku, name: string, price: int, barcode: Option<string>, stock: int)

  /** The tables a pull writes; the database hands out `next` as the id of the next variant. */
  datatype Book = Book(cat: Catalog, store: Store, prices: map<VariantId, int>, barcodes: set<string>,
      next: VariantId) {
    /** Foreign keys and the unique sku. */
    predicate Valid() {
      && cat.Valid()
      && (forall v <- cat.variants :: v < next)
      && (forall row <- store.levels :: row.variant in cat.variants)
    }
  }

  datatype Tally = Tally(created: nat, updated: nat, restocked: nat) {
    function Plus(t: Tally): Tally { Tally(created + t.created, updated + t.updated, restocked + t.restocked) }
  }

  // ---------------------------------------------------------------- one product

  /** The movement that drives a stock to its target, if one is needed; an absent row has no quantity yet. */
  function Correction(seen: Option<Level>, target: int): Option<(Kind, int)> {
    match seen
    case None => if target <= 0 then None else Some((In, target))
    case Some(level) => if target == level.qty then None else Some((Adjust, target - level.qty))
  }

  function Stocked(cat: Catalog, s: Store, v: VariantId, w: WarehouseId, target: int): Result<(Store, bool)> {
    var row := Row(v, w);
    match Correction(if row in s.levels then Some(s.levels[row]) else None, target)
    case None => Ok((s, false))
    case Some((kind, qty)) =>
      match Move(cat, s, Movement(row, kind, qty, Some("posnet-sync")), None)
      case Err(e) => Err(e)
      case Ok(s') => Ok((s', true))
  }

  /** A new product with one variant; a taken barcode is a conflict. */
  function Created(b: Book, p: PosProduct): Result<Book> {
    if p.barcode.Some? && p.barcode.value in b.barcodes then Err(Conflict)
    else Ok(Book(
      b.cat.(skus := b.cat.skus[p.sku := b.next], variants := b.cat.variants + {b.next}),
      b.store.(outbox := b.store.outbox + [ProductCreated(p.name)] + [VariantAdded(b.next)]),
      b.prices[b.next := p.price],
      if p.barcode.Some? then b.barcodes + {p.barcode.value} else b.barcodes,
      b.next + 1))
  }

  /** The product's variant, made if need be, with the new price. */
  function Upserted(b: Book, p: PosProduct): Result<(Book, VariantId)> {
    if p.sku in b.cat.skus then Ok((b.(prices := b.prices[b.cat.skus[p.sku] := p.price]), b.cat.skus[p.sku]))
    else match Created(b, p)
         case Err(e) => Err(e)
         case Ok(b') => Ok((b', b.next))
  }

  function PulledOne(b: Book, p: PosProduct, w: WarehouseId): Result<(Book, Tally)> {
    match Upserted(b, p)
    case Err(e) => Err(e)
    case Ok((b1, v)) =>
      match Stocked(b1.cat, b1.store, v, w, p.stock)
      case Err(e) => Err(e)
      case Ok((s, moved)) =>
        var known := p.sku in b.cat.skus;
        Ok((b1.(store := s), Tally(if known then 0 else 1, if known then 1 else 0, if moved then 1 else 0)))
  }

  /** The whole pull; an error ends it and the caller rolls everything back. */
  function PulledAll(b: Book, ps: seq<PosProduct>, w: WarehouseId): Result<(Book, Tally)> {
    if ps == [] then Ok((b, Tally(0, 0, 0)))
    else match PulledAll(b, ps[..|ps| - 1], w)
         case Err(e) => Err(e)
         case Ok((b1, t1)) =>
           match PulledOne(b1, ps[|ps| - 1], w)
           case Err(e) => Err(e)
           case Ok((b2, t2)) => Ok((b2, t1.Plus(t2)))
  }

  lemma {:induction false} FailedPrefix(b: Book, ps: seq<PosProduct>, n: nat, w: WarehouseId)
    requires n <= |ps| && PulledAll(b, ps[..n], w).Err?
    ensures PulledAll(b, ps, w) == PulledAll(b, ps[..n], w)
  {
    if n == |ps| {
      assert ps[..n] == ps;
    } else {
      assert ps[..|ps| - 1][..n] == ps[..n];
      FailedPrefix(b, ps[..|ps| - 1], n, w);
    }
  }

  /** One transaction of the import, on the hub's inventory session and its catalog tables. */
  class Import {
    const session: Session
    var prices: map<VariantId, int>
    var barcodes: set<string>
    var next: VariantId

    constructor (session: Session, prices: map<VariantId, int>, barcodes: set<string>, next: VariantId)
      ensures this.session == session && View() == Book(session.catalog, session.Contents(), prices, barcodes, next)
    {
      this.session, this.prices, this.barcodes, this.next := session, prices, barcodes, next;
    }

    ghost function View(): Book
      reads this, session
    {
      Book(session.catalog, session.Contents(), prices, barcodes, next)
    }

    /** `create_product` and `add_variant`. */
    method Create(p: PosProduct) returns (r: Result<VariantId>)
      modifies this, session
      ensures match Created(old(View()), p)
              case Ok(b) => View() == b && r == Ok(old(next))
              case Err(e) => r == Err(e)
    {
      session.outbox := session.outbox + [ProductCreated(p.name)];
      if p.barcode.Some? {
        if p.barcode.value in barcodes { return Err(Conflict); }
        barcodes := barcodes + {p.barcode.value};
      }
      var v := next;
      next := next + 1;
      session.catalog := session.catalog.(skus := session.catalog.skus[p.sku := v],
        variants := session.catalog.variants + {v});
      prices := prices[v := p.price];
      session.outbox := session.outbox + [VariantAdded(v)];
      return Ok(v);
    }

    /** Whether a movement was applied. */
    method SetStock(v: VariantId, w: WarehouseId, target: int) returns (r: Result<bool>)
      modifies session
      ensures match Stocked(old(session.catalog), old(session.Contents()), v, w, target)
              case Ok((s, moved)) => session.catalog == old(session.catalog) && session.Contents() == s
                && r == Ok(moved)
              case Err(e) => r == Err(e)
    {
      var row := Row(v, w);
      if row !in session.levels {
        if target <= 0 { return Ok(false); }
        var moved := session.ApplyMovement(Movement(row, In, target, Some("posnet-sync")), None);
        return if moved.Err? then Err(moved.error) else Ok(true);
      }
      var delta := target - session.levels[row].qty;
      if delta == 0 { return Ok(false); }
      var moved := session.ApplyMovement(Movement(row, Adjust, delta, Some("posnet-sync")), None);
      return if moved.Err? then Err(moved.error) else Ok(true);
    }

    /** The variant of the product's sku with its price refreshed, or a new one. */
    method Upsert(p: PosProduct) returns (r: Result<VariantId>)
      modifies this, session
      ensures match Upserted(old(View()), p)
              case Ok((b, v)) => View() == b && r == Ok(v)
              case Err(e) => r == Err(e)
    {
      if p.sku !in session.catalog.skus {
        r := Create(p);
        return;
      }
      var v := session.catalog.skus[p.sku];
      prices := prices[v := p.price];
      return Ok(v);
    }

    method PullOne(p: PosProduct, w: WarehouseId) returns (r: Result<Tally>)
      modifies this, session
      ensures match PulledOne(old(View()), p, w)
              case Ok((b, t)) => View() == b && r == Ok(t)
              case Err(e) => r == Err(e)
    {
      var known := p.sku in session.catalog.skus;
      var v := Upsert(p);
      if v.Err? { return Err(v.error); }
      var moved := SetStock(v.value, w, p.stock);
      if moved.Err? { return Err(moved.error); }
      return Ok(Tally(if known then 0 else 1, if known then 1 else 0, if moved.value then 1 else 0));
    }

    method SyncCatalog(ps: seq<PosProduct>, w: WarehouseId) returns (r: Result<Tally>)
      modifies this, session
      ensures match PulledAll(old(View()), ps, w)
              case Ok((b, t)) => View() == b && r == Ok(t)
              case Err(e) => r == Err(e)
    {
      var tally := Tally(0, 0, 0);
      for i := 0 to |ps|
        invariant PulledAll(old(View()), ps[..i], w) == Ok((View(), tally))
      {
        assert ps[..i + 1][..i] == ps[..i];
        var one := PullOne(ps[i], w);
        if one.Err? {
          FailedPrefix(old(View()), ps, i + 1, w);
          return Err(one.error);
        }
        tally := tally.Plus(one.value);
      }
      assert ps[..|ps|] == ps;
      return Ok(tally);
    }

    /** The scheduled import mirrors the point of sale into the online warehouse with the lowest id, if there is one. */
    method SyncTenant(ps: seq<PosProduct>) returns (r: Result<Option<Tally>>)
      requires session.catalog.Valid()
      modifies this, session
      ensures (forall h <- old(session.catalog).warehouses :: !h.online) ==> r == Ok(None) && View() == old(View())
      ensures forall h <- old(session.catalog).warehouses |
                  h.online && forall k <- old(session.catalog).warehouses :: k.online ==> h.id <= k.id ::
                match PulledAll(old(View()), ps, h.id)
                case Ok((b, t)) => View() == b && r == Ok(Some(t))
                case Err(e) => r == Err(e)
    {
      for i := 0 to |session.catalog.warehouses|
        invariant View() == old(View())
        invariant forall k :: 0 <= k < i ==> !session.catalog.warehouses[k].online
      {
        var h := session.catalog.warehouses[i];
        if h.online {
          assert h in session.catalog.warehouses;
          var t := SyncCatalog(ps, h.id);
          return if t.Err? then Err(t.error) else Ok(Some(t.value));
        }
      }
      return Ok(None);
    }
  }

  // ---------------------------------------------------------------- one stock figure

  /**
   Stock is driven to the target exactly when there is nothing to do, or the warehouse exists and no reserved unit is
   taken away.
   */
  lemma StockedSucceedsExactlyWhen(cat: Catalog, s: Store, v: VariantId, w: WarehouseId, target: int)
    requires v in cat.variants && (Row(v, w) in s.levels ==> s.levels[Row(v, w)].Sound())
    ensures var row := Row(v, w);
            Stocked(cat, s, v, w, target).Ok?
            <==> if row in s.levels
                 then target == s.levels[row].qty || (cat.HasWarehouse(w) && target >= s.levels[row].reserved)
                 else target <= 0 || cat.HasWarehouse(w)
  {
  }

  /** What a stock figure leaves alone: every other row, and the row's reserved units. */
  lemma StockedEffect(cat: Catalog, s: Store, v: VariantId, w: WarehouseId, target: int)
    requires Stocked(cat, s, v, w, target).Ok? && target >= 0
    ensures var (s', moved), row := Stocked(cat, s, v, w, target).value, Row(v, w);
            && s'.levels == (if moved then s.levels[row := s'.levels[row]] else s.levels)
            && (if row in s'.levels
                then s'.levels[row].qty == target
                     && s'.levels[row].reserved == (if row in s.levels then s.levels[row].reserved else 0)
                else target == 0)
            && |s'.journal| == |s.journal| + (if moved then 1 else 0)
               && |s'.outbox| == |s.outbox| + (if moved then 1 else 0)
            && (!moved ==> s' == s)
  {
  }

  // ---------------------------------------------------------------- a whole pull

  /** The quantity of a sku in a warehouse; a row that is not there counts as zero. */
  function QtyAt(b: Book, sku: Sku, w: WarehouseId): int {
    if sku in b.cat.skus && Row(b.cat.skus[sku], w) in b.store.levels
    then b.store.levels[Row(b.cat.skus[sku], w)].qty else 0
  }

  function PriceAt(b: Book, sku: Sku): Option<int> {
    if sku in b.cat.skus && b.cat.skus[sku] in b.prices then Some(b.prices[b.cat.skus[sku]]) else None
  }

  /** The last occurrence of a sku. */
  function Last(ps: seq<PosProduct>, sku: Sku): Option<PosProduct> {
    if ps == [] then None
    else if ps[|ps| - 1].sku == sku then Some(ps[|ps| - 1])
    else Last(ps[..|ps| - 1], sku)
  }

  predicate NonNegative(ps: seq<PosProduct>) {
    forall p <- ps :: p.stock >= 0
  }

  /**
   Every row keeps its reserved units, rows of other warehouses keep everything, new rows are in w with nothing
   reserved.
   */
  predicate OnlyQtyIn(w: WarehouseId, before: map<Row, Level>, after: map<Row, Level>) {
    && (forall row <- before ::
        row in after && after[row].reserved == before[row].reserved
        && (row.warehouse != w ==> after[row] == before[row]))
    && (forall row <- after :: row in before || (row.warehouse == w && after[row].reserved == 0))
  }

  lemma UpsertedEffect(b: Book, p: PosProduct)
    requires b.Valid() && Upserted(b, p).Ok?
    ensures var (b', v) := Upserted(b, p).value;
            && b'.Valid() && p.sku in b'.cat.skus && b'.cat.skus[p.sku] == v && b'.store.levels == b.store.levels
            && b'.cat.skus == b.cat.skus[p.sku := v]
            && b'.prices == b.prices[v := p.price]
            && (p.sku !in b.cat.skus ==> forall row <- b.store.levels :: row.variant != v)
  {
  }

  lemma PulledOneEffect(b: Book, p: PosProduct, w: WarehouseId)
    requires b.Valid() && PulledOne(b, p, w).Ok? && p.stock >= 0
    ensures var (b', t) := PulledOne(b, p, w).value;
            && b'.Valid() && p.sku in b'.cat.skus && QtyAt(b', p.sku, w) == p.stock
            && OnlyQtyIn(w, b.store.levels, b'.store.levels)
            && t.created + t.updated == 1
    ensures var b' := PulledOne(b, p, w).value.0;
            forall sku: Sku :: sku != p.sku ==>
              QtyAt(b', sku, w) == QtyAt(b, sku, w) && (sku in b.cat.skus <==> sku in b'.cat.skus)
    ensures PriceAt(PulledOne(b, p, w).value.0, p.sku) == Some(p.price)
    ensures forall sku: Sku :: sku != p.sku ==> PriceAt(PulledOne(b, p, w).value.0, sku) == PriceAt(b, sku)
  {
    UpsertedEffect(b, p);
    var (b1, v) := Upserted(b, p).value;
    StockedEffect(b1.cat, b1.store, v, w, p.stock);
  }

  lemma OnlyQtyInTwice(w: WarehouseId, a: map<Row, Level>, b: map<Row, Level>, c: map<Row, Level>)
    requires OnlyQtyIn(w, a, b) && OnlyQtyIn(w, b, c)
    ensures OnlyQtyIn(w, a, c)
  {
  }

  lemma {:induction false} PullKeepsFrame(b: Book, ps: seq<PosProduct>, w: WarehouseId)
    requires b.Valid() && NonNegative(ps) && PulledAll(b, ps, w).Ok?
    ensures var (b', t) := PulledAll(b, ps, w).value;
            b'.Valid() && OnlyQtyIn(w, b.store.levels, b'.store.levels) && t.created + t.updated == |ps|
  {
    if ps != [] {
      var before, p := ps[..|ps| - 1], ps[|ps| - 1];
      assert ps == before + [p];
      PullKeepsFrame(b, before, w);
      var b1 := PulledAll(b, before, w).value.0;
      PulledOneEffect(b1, p, w);
      OnlyQtyInTwice(w, b.store.levels, b1.store.levels, PulledAll(b, ps, w).value.0.store.levels);
    }
  }

  /**
   A completed pull over non-negative figures leaves every sku of the catalog with the quantity and the price of its
   last occurrence, every other sku as it was, all reserved units and all other warehouses untouched.
   */
  lemma {:induction false} PullMirrorsTheSource(b: Book, ps: seq<PosProduct>, w: WarehouseId, sku: Sku)
    requires b.Valid() && NonNegative(ps) && PulledAll(b, ps, w).Ok?
    ensures var (b', t) := PulledAll(b, ps, w).value;
            && OnlyQtyIn(w, b.store.levels, b'.store.levels) && t.created + t.updated == |ps|
            && (match Last(ps, sku)
                case Some(p) => sku in b'.cat.skus && QtyAt(b', sku, w) == p.stock && PriceAt(b', sku) == Some(p.price)
                case None =>
                  && QtyAt(b', sku, w) == QtyAt(b, sku, w) && PriceAt(b', sku) == PriceAt(b, sku)
                  && (sku in b.cat.skus <==> sku in b'.cat.skus))
  {
    PullKeepsFrame(b, ps, w);
    if ps != [] {
      var before, p := ps[..|ps| - 1], ps[|ps| - 1];
      assert ps == before + [p];
      PullMirrorsTheSource(b, before, w, sku);
      PullKeepsFrame(b, before, w);
      PulledOneEffect(PulledAll(b, before, w).value.0, p, w);
    }
  }

  lemma StockedKeepsExplained(cat: Catalog, s: Store, v: VariantId, w: WarehouseId, target: int)
    requires Explained(s) && Stocked(cat, s, v, w, target).Ok?
    ensures Explained(Stocked(cat, s, v, w, target).value.0)
  {
    var row := Row(v, w);
    if row !in s.levels {
      if target > 0 { MoveKeepsExplained(cat, s, Movement(row, In, target, Some("posnet-sync")), None); }
    } else if target != s.levels[row].qty {
      MoveKeepsExplained(cat, s, Movement(row, Adjust, target - s.levels[row].qty, Some("posnet-sync")), None);
    }
  }

  /** A pull explains every level it leaves: what it did to the quantity is in the journal and was announced. */
  lemma {:induction false} PullKeepsExplained(b: Book, ps: seq<PosProduct>, w: WarehouseId)
    requires Explained(b.store) && PulledAll(b, ps, w).Ok?
    ensures Explained(PulledAll(b, ps, w).value.0.store)
  {
    if ps != [] {
      var before, p := ps[..|ps| - 1], ps[|ps| - 1];
      PullKeepsExplained(b, before, w);
      var b1 := PulledAll(b, before, w).value.0;
      var (b2, v) := Upserted(b1, p).value;
      OtherEventsKeepExplained(b1, b2, p);
      StockedKeepsExplained(b2.cat, b2.store, v, w, p.stock);
    }
  }

  lemma OtherEventsKeepExplained(b: Book, b': Book, p: PosProduct)
    requires Explained(b.store) && Upserted(b, p).Ok? && b' == Upserted(b, p).value.0
    ensures Explained(b'.store)
  {
    if p.sku !in b.cat.skus {
      var made := b.store.outbox + [ProductCreated(p.name)];
      assert made[..|made| - 1] == b.store.outbox;
      assert b'.store.outbox[..|b'.store.outbox| - 1] == made;
    }
  }

  // ---------------------------------------------------------------- what a pull announces

  /** The first occurrences of the skus that are not in the catalog yet, in order. */
  function News(skus: map<Sku, VariantId>, ps: seq<PosProduct>): seq<PosProduct> {
    if ps == [] then []
    else
      var before, p := ps[..|ps| - 1], ps[|ps| - 1];
      News(skus, before) + if p.sku in skus || Last(before, p.sku).Some? then [] else [p]
  }

  /** The events that are not about stock. */
  function CatalogEvents(events: seq<Event>): seq<Event> {
    if events == [] then []
    else
      var e := events[|events| - 1];
      CatalogEvents(events[..|events| - 1]) + if e.MovementApplied? then [] else [e]
  }

  /** A product and a variant each, the variants numbered from `next` on. */
  function Announcements(news: seq<PosProduct>, next: VariantId): seq<Event> {
    if news == [] then []
    else
      var n := |news| - 1;
      Announcements(news[..n], next) + [ProductCreated(news[n].name), VariantAdded(next + n)]
  }

  function Barcodes(news: seq<PosProduct>): set<string> {
    set p <- news | p.barcode.Some? :: p.barcode.value
  }

  lemma {:induction false} CatalogEventsConcat(a: seq<Event>, b: seq<Event>)
    ensures CatalogEvents(a + b) == CatalogEvents(a) + CatalogEvents(b)
  {
    if b == [] {
      assert a + b == a;
    } else {
      CatalogEventsConcat(a, b[..|b| - 1]);
      assert (a + b)[..|a + b| - 1] == a + b[..|b| - 1];
    }
  }

  /** A new product's tables and events. */
  lemma UpsertAnnounces(b: Book, p: PosProduct)
    requires Upserted(b, p).Ok?
    ensures var (b', v) := Upserted(b, p).value;
            var known := p.sku in b.cat.skus;
            && b'.cat.skus == b.cat.skus[p.sku := if known then b.cat.skus[p.sku] else b.next]
            && b'.next == (if known then b.next else b.next + 1)
            && b'.barcodes == b.barcodes + (if known then {} else Barcodes([p]))
            && CatalogEvents(b'.store.outbox)
               == CatalogEvents(b.store.outbox)
                  + (if known then [] else [ProductCreated(p.name), VariantAdded(b.next)])
  {
    if p.sku !in b.cat.skus {
      var first, made := b.store.outbox + [ProductCreated(p.name)], Upserted(b, p).value.0.store.outbox;
      assert first[..|first| - 1] == b.store.outbox && made[..|made| - 1] == first;
    }
  }

  lemma StockedAnnouncesNothingElse(cat: Catalog, s: Store, v: VariantId, w: WarehouseId, target: int)
    requires Stocked(cat, s, v, w, target).Ok?
    ensures CatalogEvents(Stocked(cat, s, v, w, target).value.0.outbox) == CatalogEvents(s.outbox)
  {
    var outbox := Stocked(cat, s, v, w, target).value.0.outbox;
    assert outbox == s.outbox || outbox[..|outbox| - 1] == s.outbox;
  }

  /** What one product announces and counts: it is new, or it is not. */
  lemma PulledOneAnnounces(b: Book, p: PosProduct, w: WarehouseId)
    requires PulledOne(b, p, w).Ok?
    ensures var (b', t) := PulledOne(b, p, w).value;
            var known := p.sku in b.cat.skus;
            && b'.cat.skus == b.cat.skus[p.sku := if known then b.cat.skus[p.sku] else b.next]
            && b'.next == (if known then b.next else b.next + 1)
            && b'.barcodes == b.barcodes + (if known then {} else Barcodes([p]))
            && CatalogEvents(b'.store.outbox)
               == CatalogEvents(b.store.outbox)
                  + (if known then [] else [ProductCreated(p.name), VariantAdded(b.next)])
            && t.created == (if known then 0 else 1) && t.updated == 1 - t.created
  {
    UpsertAnnounces(b, p);
    var (b1, v) := Upserted(b, p).value;
    StockedAnnouncesNothingElse(b1.cat, b1.store, v, w, p.stock);
  }

  /** An entry or an adjustment in warehouse w, tagged as the import's. */
  predicate IsImport(m: Movement, w: WarehouseId) {
    m.row.warehouse == w && (m.kind.In? || m.kind.Adjust?) && m.reference == Some("posnet-sync")
  }

  /** The journal grew by n movements of the import. */
  predicate GrewBy(before: seq<Movement>, after: seq<Movement>, n: nat, w: WarehouseId) {
    |after| == |before| + n && before <= after && forall i :: |before| <= i < |after| ==> IsImport(after[i], w)
  }

  /** One product's movement, if any: it drives the product's row to its figure. */
  lemma PulledOneJournals(b: Book, p: PosProduct, w: WarehouseId)
    requires PulledOne(b, p, w).Ok?
    ensures var (b', t) := PulledOne(b, p, w).value;
            && t.restocked <= 1 && GrewBy(b.store.journal, b'.store.journal, t.restocked, w)
            && (t.restocked == 1 ==>
                  && p.sku in b'.cat.skus
                  && var m := b'.store.journal[|b.store.journal|];
                     && m.row == Row(b'.cat.skus[p.sku], w)
                     && (m.kind.In? <==> m.row !in b.store.levels)
                     && m.qty == p.stock - (if m.row in b.store.levels then b.store.levels[m.row].qty else 0))
  {
  }

  lemma LastIsKnown(b: Book, ps: seq<PosProduct>, w: WarehouseId, sku: Sku)
    requires b.Valid() && NonNegative(ps) && PulledAll(b, ps, w).Ok?
    ensures sku in PulledAll(b, ps, w).value.0.cat.skus <==> sku in b.cat.skus || Last(ps, sku).Some?
  {
    PullMirrorsTheSource(b, ps, w, sku);
    PullKeepsSkus(b, ps, w);
  }

  lemma {:induction false} PullKeepsSkus(b: Book, ps: seq<PosProduct>, w: WarehouseId)
    requires PulledAll(b, ps, w).Ok?
    ensures forall sku <- b.cat.skus ::
              sku in PulledAll(b, ps, w).value.0.cat.skus
              && PulledAll(b, ps, w).value.0.cat.skus[sku] == b.cat.skus[sku]
  {
    if ps != [] {
      PullKeepsSkus(b, ps[..|ps| - 1], w);
      PulledOneAnnounces(PulledAll(b, ps[..|ps| - 1], w).value.0, ps[|ps| - 1], w);
    }
  }

  /** The pull so far announced these products, in this order, and no others. */
  ghost predicate Announced(b: Book, b': Book, t: Tally, news: seq<PosProduct>, pulled: nat) {
    && CatalogEvents(b'.store.outbox) == CatalogEvents(b.store.outbox) + Announcements(news, b.next)
    && b'.next == b.next + |news| && b'.barcodes == b.barcodes + Barcodes(news)
    && t.created == |news| && t.updated == pulled - |news|
    && forall i :: 0 <= i < |news| ==> news[i].sku in b'.cat.skus && b'.cat.skus[news[i].sku] == b.next + i
  }

  lemma OneMoreNews(b: Book, b': Book, t: Tally, news: seq<PosProduct>, pulled: nat, b2: Book, t2: Tally, p: PosProduct)
    requires Announced(b, b', t, news, pulled) && p.sku !in b'.cat.skus
    requires b2.cat.skus == b'.cat.skus[p.sku := b'.next] && b2.next == b'.next + 1
             && b2.barcodes == b'.barcodes + Barcodes([p])
             && CatalogEvents(b2.store.outbox)
                == CatalogEvents(b'.store.outbox) + [ProductCreated(p.name), VariantAdded(b'.next)]
             && t2.created == 1 && t2.updated == 0
    ensures Announced(b, b2, t.Plus(t2), news + [p], pulled + 1)
  {
    assert (news + [p])[..|news|] == news;
    forall q ensures q in news + [p] <==> q in news || q == p {
    }
    assert Barcodes(news + [p]) == Barcodes(news) + Barcodes([p]);
  }

  lemma NoMoreNews(b: Book, b': Book, t: Tally, news: seq<PosProduct>, pulled: nat, b2: Book, t2: Tally)
    requires Announced(b, b', t, news, pulled)
    requires b2.cat.skus == b'.cat.skus && b2.next == b'.next && b2.barcodes == b'.barcodes
             && CatalogEvents(b2.store.outbox) == CatalogEvents(b'.store.outbox)
             && t2.created == 0 && t2.updated == 1
    ensures Announced(b, b2, t.Plus(t2), news, pulled + 1)
  {
  }

  /**
   A pull announces exactly the skus it made, a product and a variant each, once and in the order they first occur; it
   counts them as created and all other occurrences as updated, and claims their barcodes.
   */
  lemma {:induction false} PullAnnouncesWhatItMade(b: Book, ps: seq<PosProduct>, w: WarehouseId)
    requires b.Valid() && NonNegative(ps) && PulledAll(b, ps, w).Ok?
    ensures var (b', t) := PulledAll(b, ps, w).value; Announced(b, b', t, News(b.cat.skus, ps), |ps|)
  {
    if ps == [] {
      assert CatalogEvents(b.store.outbox) + [] == CatalogEvents(b.store.outbox);
    } else {
      var before, p := ps[..|ps| - 1], ps[|ps| - 1];
      assert ps == before + [p];
      PullAnnouncesWhatItMade(b, before, w);
      LastIsKnown(b, before, w, p.sku);
      var (b1, t1) := PulledAll(b, before, w).value;
      var (b2, t2) := PulledOne(b1, p, w).value;
      var news := News(b.cat.skus, before);
      PulledOneAnnounces(b1, p, w);
      if p.sku in b1.cat.skus {
        NoMoreNews(b, b1, t1, news, |before|, b2, t2);
        assert News(b.cat.skus, ps) == news;
      } else {
        OneMoreNews(b, b1, t1, news, |before|, b2, t2, p);
      }
    }
  }

  lemma GrewTwice(a: seq<Movement>, b: seq<Movement>, c: seq<Movement>, m: nat, n: nat, w: WarehouseId)
    requires GrewBy(a, b, m, w) && GrewBy(b, c, n, w)
    ensures GrewBy(a, c, m + n, w)
  {
  }

  /** Every restock is one movement of the import, and it makes no others. */
  lemma {:induction false} RestockedAreTheMovements(b: Book, ps: seq<PosProduct>, w: WarehouseId)
    requires PulledAll(b, ps, w).Ok?
    ensures var (b', t) := PulledAll(b, ps, w).value; GrewBy(b.store.journal, b'.store.journal, t.restocked, w)
  {
    if ps != [] {
      RestockedAreTheMovements(b, ps[..|ps| - 1], w);
      var (b1, t1) := PulledAll(b, ps[..|ps| - 1], w).value;
      var (b2, t2) := PulledOne(b1, ps[|ps| - 1], w).value;
      PulledOneJournals(b1, ps[|ps| - 1], w);
      GrewTwice(b.store.journal, b1.store.journal, b2.store.journal, t1.restocked, t2.restocked, w);
    }
  }

  /**
   One product comes through exactly when it is known or its barcode is free, and its figure can be set; else the taken
   barcode, the missing warehouse or the reserved units are what is reported.
   */
  lemma PulledOneSucceedsExactlyWhen(b: Book, p: PosProduct, w: WarehouseId)
    requires b.Valid() && p.stock >= 0 && forall row <- b.store.levels :: b.store.levels[row].Sound()
    ensures var r, known := PulledOne(b, p, w), p.sku in b.cat.skus;
            var taken := !known && p.barcode.Some? && p.barcode.value in b.barcodes;
            var moves := QtyAt(b, p.sku, w) != p.stock;
            var held := known && Row(b.cat.skus[p.sku], w) in b.store.levels
                          && p.stock < b.store.levels[Row(b.cat.skus[p.sku], w)].reserved;
            && (r.Ok? <==> !taken && (moves ==> b.cat.HasWarehouse(w) && !held))
            && (r == Err(Conflict) <==> taken)
            && (r == Err(NotFound) <==> !taken && moves && !b.cat.HasWarehouse(w))
            && (r == Err(Validation) <==> !taken && moves && b.cat.HasWarehouse(w) && held)
  {
    if Upserted(b, p).Ok? {
      UpsertedEffect(b, p);
      var (b1, v) := Upserted(b, p).value;
      StockedSucceedsExactlyWhen(b1.cat, b1.store, v, w, p.stock);
    }
  }

  // ---------------------------------------------------------------- pulling again

  /** Every product is there at its figure. */
  predicate Settled(b: Book, ps: seq<PosProduct>, w: WarehouseId) {
    forall p <- ps :: p.sku in b.cat.skus && QtyAt(b, p.sku, w) == p.stock
  }

  /** A product at its figure is not moved; any other is, or is made. */
  lemma PulledOneIsSilentExactlyWhen(b: Book, p: PosProduct, w: WarehouseId)
    requires b.Valid() && p.stock >= 0 && PulledOne(b, p, w).Ok?
    ensures var (b', t) := PulledOne(b, p, w).value;
            && |b'.store.outbox| >= |b.store.outbox|
            && (|b'.store.outbox| == |b.store.outbox| <==> p.sku in b.cat.skus && QtyAt(b, p.sku, w) == p.stock)
            && (|b'.store.outbox| == |b.store.outbox| ==> b'.store == b.store && b'.cat == b.cat && t == Tally(0, 1, 0))
  {
  }

  lemma SettledOne(b: Book, p: PosProduct, w: WarehouseId)
    requires b.Valid() && p.stock >= 0 && p.sku in b.cat.skus && QtyAt(b, p.sku, w) == p.stock
    ensures PulledOne(b, p, w).Ok?
  {
  }

  predicate SameStock(b: Book, b': Book) {
    b'.store == b.store && b'.cat == b.cat
  }

  /** A pull applies no movement and emits no event exactly when every product is there at its figure already. */
  lemma {:induction false} PullIsSilentExactlyWhenSettled(b: Book, ps: seq<PosProduct>, w: WarehouseId)
    requires b.Valid() && NonNegative(ps)
    ensures PulledAll(b, ps, w).Ok? ==>
              && |PulledAll(b, ps, w).value.0.store.outbox| >= |b.store.outbox|
              && (|PulledAll(b, ps, w).value.0.store.outbox| == |b.store.outbox| ==>
                    SameStock(b, PulledAll(b, ps, w).value.0) && PulledAll(b, ps, w).value.1 == Tally(0, |ps|, 0)
                      && Settled(b, ps, w))
    ensures Settled(b, ps, w) ==> PulledAll(b, ps, w).Ok? && SameStock(b, PulledAll(b, ps, w).value.0)
  {
    if ps != [] {
      var before, p := ps[..|ps| - 1], ps[|ps| - 1];
      assert ps == before + [p];
      PullIsSilentExactlyWhenSettled(b, before, w);
      if PulledAll(b, before, w).Ok? {
        PullKeepsFrame(b, before, w);
        var b1 := PulledAll(b, before, w).value.0;
        if Settled(b, ps, w) {
          SettledOne(b1, p, w);
        }
        if PulledOne(b1, p, w).Ok? {
          PulledOneIsSilentExactlyWhen(b1, p, w);
        }
      }
    }
  }

  /** All occurrences of a sku report the same figure. */
  predicate Consistent(ps: seq<PosProduct>) {
    forall p <- ps, q <- ps :: p.sku == q.sku ==> p.stock == q.stock
  }

  lemma {:induction false} LastOccurs(ps: seq<PosProduct>, p: PosProduct)
    requires p in ps
    ensures Last(ps, p.sku).Some? && Last(ps, p.sku).value in ps && Last(ps, p.sku).value.sku == p.sku
  {
    var before, q := ps[..|ps| - 1], ps[|ps| - 1];
    assert ps == before + [q];
    if q.sku != p.sku {
      LastOccurs(before, p);
    }
  }

  /**
   Pulling a catalog again at once applies no movement and emits no event exactly when no sku occurs with two
   different figures.
   */
  lemma SecondPullIsSilentExactlyWhen(b: Book, ps: seq<PosProduct>, w: WarehouseId)
    requires b.Valid() && NonNegative(ps) && PulledAll(b, ps, w).Ok?
    ensures var b' := PulledAll(b, ps, w).value.0;
            var again := PulledAll(b', ps, w);
            (again.Ok? && again.value.0.store == b'.store && again.value.1 == Tally(0, |ps|, 0)) <==> Consistent(ps)
  {
    var b' := PulledAll(b, ps, w).value.0;
    PullKeepsFrame(b, ps, w);
    forall p <- ps
      ensures Last(ps, p.sku).Some? && Last(ps, p.sku).value in ps && Last(ps, p.sku).value.sku == p.sku
      ensures p.sku in b'.cat.skus && QtyAt(b', p.sku, w) == Last(ps, p.sku).value.stock
    {
      LastOccurs(ps, p);
      PullMirrorsTheSource(b, ps, w, p.sku);
    }
    assert Settled(b', ps, w) <==> Consistent(ps);
    PullIsSilentExactlyWhenSettled(b', ps, w);
  }
}
