/** The reconciliation run: read each listing back from its channel, compare with the hub, push what differs. */
module Reconcile {
  import opened Results
  import opened Inventory
  import opened OrderIngest
  import opened Canonical
  import Pricing
  import Dispatcher

  // ---------------------------------------------------------------- what the hub says

  datatype Hub = Hub(
    catalog: Catalog,
    levels: map<Row, Level>,
    skus: map<VariantId, Sku>,
    published: set<VariantId>,
    bases: map<VariantId, Pricing.Base>,
    overrides: seq<Pricing.Override>)

  /**
   The canonical snapshot: none for an unknown variant or an unpublished product; the price is the tenant-wide one.
   */
  function Build(hub: Hub, v: VariantId, at: Pricing.Time): Option<Product> {
    if v !in hub.skus || v !in hub.published then None
    else
      match Pricing.ResolvePrice(hub.bases, hub.overrides, Pricing.Query(v, at, None))
      case Err(_) => None
      case Ok(price) => Some(Product(hub.skus[v], HubStock(hub.catalog, hub.levels, v), price.effective,
        price.currency))
  }

  /**
   There is a snapshot exactly for a known, published, priced variant.  It carries the variant's sku, what an order
   can reserve of it online, the catalog's currency, and the price of the topmost tenant-wide override, or the
   catalog's price when none applies.
   */
  lemma BuildsExactly(hub: Hub, v: VariantId, at: Pricing.Time)
    requires hub.catalog.Valid() && AllSound(hub.levels) && Pricing.Keyed(hub.overrides)
    ensures Build(hub, v, at).Some? <==> v in hub.skus && v in hub.published && v in hub.bases
    ensures Build(hub, v, at).Some? ==>
              var q, p := Pricing.Query(v, at, None), Build(hub, v, at).value;
              && p.sku == hub.skus[v] && p.stock == TotalAvail(hub.levels, v, Online(hub.catalog.warehouses))
              && p.currency == hub.bases[v].currency
              && ((forall o <- hub.overrides :: !Pricing.Applies(o, q)) ==> p.price == hub.bases[v].price)
              && (forall o :: Pricing.Tops(o, hub.overrides, q) ==> p.price == o.price)
  {
    Pricing.ResolvesExactly(hub.bases, hub.overrides, Pricing.Query(v, at, None));
    OfferedIsReservable(hub.catalog, hub.levels, v);
  }

  // ---------------------------------------------------------------- the channel

  /** What a channel shows for a sku. */
  datatype Snapshot = Snapshot(stock: int, price: int, currency: string)

  /**
   How one guarded call ends: it lands, it raises an error the run catches (a push may have taken effect all the same),
   or the rate limiter times out, which the run does not catch.
   */
  datatype Fate = Lands | Fails(effect: bool) | Starves

  /** The channel's listings and how many guarded calls were made. */
  datatype Wire = Wire(listings: map<Sku, Snapshot>, made: nat)

  datatype Reply = Found(snapshot: Snapshot) | Missing | Failed | Starved

  function Took(w: Wire): Wire {
    w.(made := w.made + 1)
  }

  function Fetched(w: Wire, fate: nat -> Fate, sku: Sku): Reply {
    match fate(w.made)
    case Lands => if sku in w.listings then Found(w.listings[sku]) else Missing
    case Fails(_) => Failed
    case Starves => Starved
  }

  predicate Effective(fate: Fate) {
    fate.Lands? || (fate.Fails? && fate.effect)
  }

  /** A push to a sku the channel lists: `update` is what it changes there. */
  function Pushed(w: Wire, fate: nat -> Fate, sku: Sku, update: Snapshot -> Snapshot): Wire {
    Took(if Effective(fate(w.made)) && sku in w.listings
         then w.(listings := w.listings[sku := update(w.listings[sku])]) else w)
  }

  function StockTo(qty: int): Snapshot -> Snapshot {
    (s: Snapshot) => s.(stock := qty)
  }

  function PriceTo(price: int, currency: string): Snapshot -> Snapshot {
    (s: Snapshot) => s.(price := price, currency := currency)
  }

  /** One channel's adapter behind its guard. */
  class Link {
    const fate: nat -> Fate
    var listings: map<Sku, Snapshot>
    var made: nat

    constructor (fate: nat -> Fate, w: Wire)
      ensures this.fate == fate && View() == w
    {
      this.fate, listings, made := fate, w.listings, w.made;
    }

    function View(): Wire
      reads this
    {
      Wire(listings, made)
    }

    method Fetch(sku: Sku) returns (reply: Reply)
      modifies this
      ensures reply == Fetched(old(View()), fate, sku) && View() == Took(old(View()))
    {
      var f := fate(made);
      made := made + 1;
      match f {
        case Lands => reply := if sku in listings then Found(listings[sku]) else Missing;
        case Fails(_) => reply := Failed;
        case Starves => reply := Starved;
      }
    }

    method Push(sku: Sku, update: Snapshot -> Snapshot) returns (f: Fate)
      modifies this
      ensures f == fate(old(made)) && View() == Pushed(old(View()), fate, sku, update)
    {
      f := fate(made);
      if Effective(f) && sku in listings {
        listings := listings[sku := update(listings[sku])];
      }
      made := made + 1;
    }
  }

  // ---------------------------------------------------------------- one listing

  datatype Note = Compared | NotPublished | FetchFailed | NotListed

  datatype ListingResult = ListingResult(
    sku: Sku, posStock: Option<int>, channelStock: Option<int>, stockDrift: bool, priceDrift: bool, repaired: bool,
    note: Note)

  function Skip(sku: Sku, posStock: Option<int>, note: Note): ListingResult {
    ListingResult(sku, posStock, None, false, false, false, note)
  }

  predicate StockDrift(s: Snapshot, p: Product) {
    s.stock != p.stock
  }

  predicate PriceDrift(s: Snapshot, p: Product) {
    s.price != p.price || s.currency != p.currency
  }

  /** One push of a repair, if it is needed: whether it landed, or none when the limiter starved it. */
  function Repair1(w: Wire, fate: nat -> Fate, needed: bool, sku: Sku, update: Snapshot -> Snapshot): (Wire,
      Option<bool>) {
    if !needed then (w, Some(false))
    else (Pushed(w, fate, sku, update), if fate(w.made).Starves? then None else Some(fate(w.made).Lands?))
  }

  /** Stock first, then price; a caught failure of the one does not stop the other. */
  function Repaired(w: Wire, fate: nat -> Fate, p: Product, stockDrift: bool, priceDrift: bool): (Wire, Option<bool>) {
    var (w1, stock) := Repair1(w, fate, stockDrift, p.sku, StockTo(p.stock));
    if stock.None? then (w1, None)
    else
      var (w2, price) := Repair1(w1, fate, priceDrift, p.sku, PriceTo(p.price, p.currency));
      (w2, if price.None? then None else Some(stock.value || price.value))
  }

  /** None: the rate limiter's timeout escaped. */
  function One(w: Wire, fate: nat -> Fate, sku: Sku, product: Option<Product>): (Wire, Option<ListingResult>) {
    if product.None? then (w, Some(Skip(sku, None, NotPublished)))
    else
      var p := product.value;
      match Fetched(w, fate, p.sku)
      case Starved => (Took(w), None)
      case Failed => (Took(w), Some(Skip(sku, Some(p.stock), FetchFailed)))
      case Missing => (Took(w), Some(Skip(sku, Some(p.stock), NotListed)))
      case Found(s) =>
        var (w', repaired) := Repaired(Took(w), fate, p, StockDrift(s, p), PriceDrift(s, p));
        (w', if repaired.None? then None
             else Some(ListingResult(sku, Some(p.stock), Some(s.stock), StockDrift(s, p), PriceDrift(s, p),
               repaired.value, Compared)))
  }

  method RepairListing(link: Link, p: Product, stockDrift: bool, priceDrift: bool) returns (repaired: Option<bool>)
    modifies link
    ensures (link.View(), repaired) == Repaired(old(link.View()), link.fate, p, stockDrift, priceDrift)
  {
    var landed := false;
    if stockDrift {
      var f := link.Push(p.sku, StockTo(p.stock));
      if f.Starves? { return None; }
      if f.Lands? { landed := true; }
    }
    if priceDrift {
      var f := link.Push(p.sku, PriceTo(p.price, p.currency));
      if f.Starves? { return None; }
      if f.Lands? { landed := true; }
    }
    return Some(landed);
  }

  method ReconcileOne(hub: Hub, link: Link, v: VariantId, sku: Sku, at: Pricing.Time) returns (r: Option<ListingResult>)
    modifies link
    ensures (link.View(), r) == One(old(link.View()), link.fate, sku, Build(hub, v, at))
  {
    var product := Build(hub, v, at);
    if product.None? { return Some(Skip(sku, None, NotPublished)); }
    var p := product.value;
    var reply := link.Fetch(p.sku);
    match reply {
      case Starved => return None;
      case Failed => return Some(Skip(sku, Some(p.stock), FetchFailed));
      case Missing => return Some(Skip(sku, Some(p.stock), NotListed));
      case Found(s) =>
        var stockDrift, priceDrift := StockDrift(s, p), PriceDrift(s, p);
        var repaired := Some(false);
        if stockDrift || priceDrift {
          repaired := RepairListing(link, p, stockDrift, priceDrift);
        }
        if repaired.None? { return None; }
        return Some(ListingResult(sku, Some(p.stock), Some(s.stock), stockDrift, priceDrift, repaired.value, Compared));
    }
  }

  // ---------------------------------------------------------------- one channel

  predicate Drifted(r: ListingResult) {
    r.stockDrift || r.priceDrift
  }

  predicate Mended(r: ListingResult) {
    r.repaired
  }

  function Count(results: seq<ListingResult>, p: ListingResult -> bool): nat {
    if results == [] then 0
    else Count(results[..|results| - 1], p) + if p(results[|results| - 1]) then 1 else 0
  }

  function Indices(results: seq<ListingResult>, p: ListingResult -> bool): set<nat> {
    set i: nat | i < |results| && p(results[i])
  }

  lemma {:induction false} CountIsSize(results: seq<ListingResult>, p: ListingResult -> bool)
    ensures Count(results, p) == |Indices(results, p)|
  {
    if results != [] {
      var n := |results| - 1;
      CountIsSize(results[..n], p);
      var before := Indices(results[..n], p);
      assert Indices(results, p) == if p(results[n]) then before + {n} else before;
    }
  }

  /** The counts of a report are the numbers of results with a drift and of results marked repaired. */
  lemma CountsAreSizes(results: seq<ListingResult>)
    ensures Count(results, Drifted)
            == |set i: nat | i < |results| && (results[i].stockDrift || results[i].priceDrift)|
    ensures Count(results, Mended) == |set i: nat | i < |results| && results[i].repaired|
  {
    CountIsSize(results, Drifted);
    CountIsSize(results, Mended);
    assert Indices(results, Drifted)
        == set i: nat | i < |results| && (results[i].stockDrift || results[i].priceDrift);
    assert Indices(results, Mended) == set i: nat | i < |results| && results[i].repaired;
  }

  /** An active, already pushed listing, with the time its comparison is made. */
  datatype Due = Due(variant: VariantId, sku: Sku, at: Pricing.Time)

  /** All listings in turn; a starved call ends the run and its results are lost. */
  function All(hub: Hub, w: Wire, fate: nat -> Fate, due: seq<Due>): (Wire, Option<seq<ListingResult>>) {
    if due == [] then (w, Some([]))
    else
      var d := due[|due| - 1];
      var (w1, before) := All(hub, w, fate, due[..|due| - 1]);
      if before.None? then (w1, None)
      else
        var (w2, r) := One(w1, fate, d.sku, Build(hub, d.variant, d.at));
        (w2, if r.None? then None else Some(before.value + [r.value]))
  }

  lemma {:induction false} AbortedPrefix(hub: Hub, w: Wire, fate: nat -> Fate, due: seq<Due>, n: nat)
    requires n <= |due| && All(hub, w, fate, due[..n]).1.None?
    ensures All(hub, w, fate, due) == All(hub, w, fate, due[..n])
  {
    if n == |due| {
      assert due[..n] == due;
    } else {
      assert due[..|due| - 1][..n] == due[..n];
      AbortedPrefix(hub, w, fate, due[..|due| - 1], n);
    }
  }

  method ReconcileChannel(hub: Hub, link: Link, due: seq<Due>) returns (results: Option<seq<ListingResult>>)
    modifies link
    ensures (link.View(), results) == All(hub, old(link.View()), link.fate, due)
    ensures results.Some? ==> Count(results.value, Mended) <= Count(results.value, Drifted) <= |results.value|
  {
    var found := [];
    for i := 0 to |due|
      invariant (link.View(), Some(found)) == All(hub, old(link.View()), link.fate, due[..i])
    {
      assert due[..i + 1][..i] == due[..i];
      var r := ReconcileOne(hub, link, due[i].variant, due[i].sku, due[i].at);
      if r.None? {
        AbortedPrefix(hub, old(link.View()), link.fate, due, i + 1);
        return None;
      }
      found := found + [r.value];
    }
    assert due[..|due|] == due;
    CountsAreOrdered(hub, old(link.View()), link.fate, due);
    return Some(found);
  }

  // ---------------------------------------------------------------- all channels

  /** An active channel: its adapter's link if one is registered, and its listings due. */
  datatype Job = Job(link: Option<Link>, due: seq<Due>)

  datatype Report = Report(checked: nat, drifted: nat, repaired: nat, results: seq<ListingResult>)

  /** Each channel's results in turn; a channel without an adapter contributes none. */
  function Together(runs: seq<seq<ListingResult>>): seq<ListingResult> {
    if runs == [] then [] else Together(runs[..|runs| - 1]) + runs[|runs| - 1]
  }

  function Links(jobs: seq<Job>): set<Link> {
    set j <- jobs | j.link.Some? :: j.link.value
  }

  predicate OneLinkEach(jobs: seq<Job>) {
    forall i, j :: 0 <= i < j < |jobs| && jobs[i].link.Some? && jobs[j].link.Some? ==> jobs[i].link != jobs[j].link
  }

  predicate Ordered(results: seq<ListingResult>) {
    Count(results, Mended) <= Count(results, Drifted) <= |results|
  }

  lemma OneMoreRun(runs: seq<seq<ListingResult>>, run: seq<ListingResult>)
    requires Ordered(Together(runs)) && Ordered(run)
    ensures Together(runs + [run]) == Together(runs) + run && Ordered(Together(runs + [run]))
  {
    assert (runs + [run])[..|runs|] == runs;
    CountConcat(Together(runs), run, Mended);
    CountConcat(Together(runs), run, Drifted);
  }

  function LinkOf(job: Job): set<Link> {
    if job.link.Some? then {job.link.value} else {}
  }

  /** What a channel's run leaves behind and reports; none when it ended early. */
  twostate predicate Ran(hub: Hub, job: Job, new run: Option<seq<ListingResult>>)
    reads LinkOf(job)
  {
    match job.link
    case None => run == Some([])
    case Some(link) => (link.View(), run) == All(hub, old(link.View()), link.fate, job.due)
  }

  /** A channel without a registered adapter is skipped. */
  method ReconcileJob(hub: Hub, job: Job) returns (run: Option<seq<ListingResult>>)
    modifies LinkOf(job)
    ensures Ran(hub, job, run)
    ensures run.Some? ==> Ordered(run.value)
  {
    match job.link {
      case None => run := Some([]);
      case Some(link) => run := ReconcileChannel(hub, link, job.due);
    }
  }

  method ReconcileTenant(hub: Hub, jobs: seq<Job>) returns (report: Option<Report>, ghost runs: seq<seq<ListingResult>>)
    requires OneLinkEach(jobs)
    modifies Links(jobs)
    ensures |runs| <= |jobs| && forall i :: 0 <= i < |runs| ==> Ran(hub, jobs[i], Some(runs[i]))
    ensures match report
            case Some(r) =>
              && |runs| == |jobs| && r.results == Together(runs)
              && r.repaired <= r.drifted <= r.checked
              && r.checked == |r.results| && r.drifted == Count(r.results, Drifted)
                 && r.repaired == Count(r.results, Mended)
            case None => |runs| < |jobs| && Ran(hub, jobs[|runs|], None)
  {
    var results := [];
    runs := [];
    for i := 0 to |jobs|
      invariant |runs| == i && results == Together(runs)
      invariant forall k :: 0 <= k < i ==> Ran(hub, jobs[k], Some(runs[k]))
      invariant Ordered(results)
      invariant forall k :: i <= k < |jobs| && jobs[k].link.Some? ==>
                jobs[k].link.value.View() == old(jobs[k].link.value.View())
    {
      assert jobs[i] in jobs;
      label before:
      var run := ReconcileJob(hub, jobs[i]);
      forall k | 0 <= k < |jobs| && k != i && jobs[k].link.Some?
        ensures unchanged@before(jobs[k].link.value)
      {
        assert jobs[k].link != jobs[i].link;
      }
      if run.None? { return None, runs; }
      OneMoreRun(runs, run.value);
      results := results + run.value;
      runs := runs + [run.value];
    }
    var drifted, repaired := Count(results, Drifted), Count(results, Mended);
    report := Some(Report(|results|, drifted, repaired, results));
  }

  // ---------------------------------------------------------------- what one comparison does

  function Shown(p: Product): Snapshot {
    Snapshot(p.stock, p.price, p.currency)
  }

  predicate InSync(w: Wire, p: Product) {
    p.sku in w.listings ==> w.listings[p.sku] == Shown(p)
  }

  /** A comparison touches at most its own sku, and never lists or delists. */
  lemma OneFrame(w: Wire, fate: nat -> Fate, sku: Sku, product: Option<Product>, other: Sku)
    requires product.None? || other != product.value.sku
    ensures var w' := One(w, fate, sku, product).0;
            && w'.listings.Keys == w.listings.Keys && (other in w.listings ==> w'.listings[other] == w.listings[other])
            && w'.made >= w.made
  {
  }

  /**
   Afterwards the listing is in sync exactly when every push the drift called for took effect, the price push being the
   call after the stock push when there was one.
   */
  lemma InSyncExactlyWhen(w: Wire, fate: nat -> Fate, p: Product)
    requires One(w, fate, p.sku, Some(p)).1.Some? && One(w, fate, p.sku, Some(p)).1.value.note.Compared?
    ensures var (w', r) := One(w, fate, p.sku, Some(p));
            var pricePush := w.made + 1 + if r.value.stockDrift then 1 else 0;
            && (InSync(w', p) <==>
                  && (r.value.stockDrift ==> Effective(fate(w.made + 1)))
                  && (r.value.priceDrift ==> Effective(fate(pricePush))))
            && (r.value.repaired <==>
                  || (r.value.stockDrift && fate(w.made + 1).Lands?)
                  || (r.value.priceDrift && fate(pricePush).Lands?))
            && (!Drifted(r.value) <==> InSync(w, p))
  {
  }

  /**
   The report of one listing whose run did not end early.  Without a snapshot nothing is called.  Otherwise the first
   call reads the channel's figures, and which note is reported depends on that call alone; a drift is a difference
   in stock, or in price or currency; and each drift costs one more call.
   */
  lemma ReportsExactly(w: Wire, fate: nat -> Fate, sku: Sku, product: Option<Product>)
    requires One(w, fate, sku, product).1.Some?
    ensures var (w', r) := One(w, fate, sku, product);
            && r.value.sku == sku
            && (r.value.note.NotPublished? <==> product.None?)
            && (r.value.posStock.None? <==> product.None?)
            && (product.None? ==> w' == w)
            && (!r.value.note.Compared? ==>
                  r.value.channelStock.None? && !Drifted(r.value) && !r.value.repaired && w'.listings == w.listings)
    ensures product.Some? ==>
              var p, (w', r) := product.value, One(w, fate, sku, product);
              && r.value.posStock == Some(p.stock)
              && (r.value.note.FetchFailed? <==> fate(w.made).Fails?)
              && (r.value.note.NotListed? <==> fate(w.made).Lands? && p.sku !in w.listings)
              && (r.value.note.Compared? ==>
                    && p.sku in w.listings && r.value.channelStock == Some(w.listings[p.sku].stock)
                    && (r.value.stockDrift <==> w.listings[p.sku].stock != p.stock)
                    && (r.value.priceDrift <==>
                          w.listings[p.sku].price != p.price || w.listings[p.sku].currency != p.currency))
              && w'.made == w.made + 1 + (if r.value.stockDrift then 1 else 0) + if r.value.priceDrift then 1 else 0
  {
  }

  /**
   What one comparison leaves on the channel: stock is pushed before price, each when it drifted and with its own
   call's effect, and the price push is not reached when the limiter starved the stock push.
   */
  lemma PushesExactly(w: Wire, fate: nat -> Fate, p: Product, s: Snapshot)
    requires p.sku in w.listings && w.listings[p.sku] == s && fate(w.made).Lands?
    ensures var stockPush := w.made + 1;
            var pricePush := stockPush + if s.stock != p.stock then 1 else 0;
            var restocks := s.stock != p.stock && Effective(fate(stockPush));
            var reprices := && (s.price != p.price || s.currency != p.currency) && Effective(fate(pricePush))
                            && !(s.stock != p.stock && fate(stockPush).Starves?);
            One(w, fate, p.sku, Some(p)).0.listings
            == w.listings[p.sku := Snapshot(if restocks then p.stock else s.stock,
                                            if reprices then p.price else s.price,
                                            if reprices then p.currency else s.currency)]
  {
  }

  predicate BothDrift(s: Snapshot, p: Product) {
    StockDrift(s, p) && PriceDrift(s, p)
  }

  /** The first two calls land, the next one fails. */
  function SecondPushFails(w: Wire): nat -> Fate {
    (n: nat) => if n < w.made + 2 then Lands else Fails(false)
  }

  /** Where both stock and price drifted, one of two pushes is enough to be reported as repaired and still differ. */
  lemma RepairedCanStillDiffer(w: Wire, p: Product, s: Snapshot)
    requires p.sku in w.listings && w.listings[p.sku] == s && BothDrift(s, p)
    ensures var (w', r) := One(w, SecondPushFails(w), p.sku, Some(p));
            r.Some? && r.value.repaired && !InSync(w', p)
  {
  }

  /** A listing is truthfully reported as repaired. */
  predicate Truthful(w: Wire, fate: nat -> Fate, p: Product) {
    var (w', r) := One(w, fate, p.sku, Some(p));
    r.Some? && r.value.repaired ==> InSync(w', p)
  }

  /**
   Whatever the calls' fates, a listing reported as repaired equals the hub: exactly when not both its stock and its
   price had drifted.
   */
  lemma RepairedMeansInSyncExactlyWhen(w: Wire, p: Product, s: Snapshot)
    requires p.sku in w.listings && w.listings[p.sku] == s
    ensures (forall fate: nat -> Fate :: Truthful(w, fate, p)) <==> !BothDrift(s, p)
  {
    if BothDrift(s, p) {
      RepairedCanStillDiffer(w, p, s);
      assert !Truthful(w, SecondPushFails(w), p);
    } else {
      forall fate: nat -> Fate ensures Truthful(w, fate, p) {
        var r := One(w, fate, p.sku, Some(p)).1;
        if r.Some? && r.value.note.Compared? {
          InSyncExactlyWhen(w, fate, p);
        }
      }
    }
  }

  /**
   The run knows no safety stock.  A listing the dispatcher keeps at its buffered figure drifts exactly when the
   buffer holds something back, and when the calls land the run gives the buffer away.
   */
  lemma BufferIsGivenAway(w: Wire, fate: nat -> Fate, p: Product, safety: nat)
    requires p.sku in w.listings
             && w.listings[p.sku] == Snapshot(Dispatcher.Figure(p.stock, safety), p.price, p.currency)
    requires forall k :: k >= w.made ==> fate(k).Lands?
    ensures var (w', r) := One(w, fate, p.sku, Some(p));
            && r.Some? && (Drifted(r.value) <==> p.stock > 0 && safety > 0)
            && w'.listings[p.sku].stock == p.stock
  {
    InSyncExactlyWhen(w, fate, p);
  }

  // ---------------------------------------------------------------- a whole run

  /** The listings due are those of distinct known variants, each under its own sku. */
  predicate Proper(hub: Hub, due: seq<Due>) {
    && (forall d <- due :: d.variant in hub.skus && d.sku == hub.skus[d.variant])
    && (forall i, j :: 0 <= i < j < |due| ==> due[i].sku != due[j].sku)
  }

  predicate AllInSync(hub: Hub, w: Wire, due: seq<Due>) {
    forall d <- due :: var p := Build(hub, d.variant, d.at); p.Some? ==> InSync(w, p.value)
  }

  lemma {:induction false} AllFrame(hub: Hub, w: Wire, fate: nat -> Fate, due: seq<Due>, other: Sku)
    requires Proper(hub, due) && forall d <- due :: d.sku != other
    ensures var w' := All(hub, w, fate, due).0;
            && w'.listings.Keys == w.listings.Keys && (other in w.listings ==> w'.listings[other] == w.listings[other])
            && w'.made >= w.made
  {
    if due != [] {
      var before, d := due[..|due| - 1], due[|due| - 1];
      assert due == before + [d];
      AllFrame(hub, w, fate, before, other);
      OneFrame(All(hub, w, fate, before).0, fate, d.sku, Build(hub, d.variant, d.at), other);
    }
  }

  lemma OneConverges(w: Wire, fate: nat -> Fate, sku: Sku, product: Option<Product>)
    requires forall k :: k >= w.made ==> fate(k).Lands?
    ensures One(w, fate, sku, product).1.Some?
    ensures product.Some? ==> InSync(One(w, fate, sku, product).0, product.value)
  {
  }

  lemma OneMoreInSync(hub: Hub, w: Wire, fate: nat -> Fate, before: seq<Due>, d: Due)
    requires AllInSync(hub, w, before) && Proper(hub, before + [d]) && forall k :: k >= w.made ==> fate(k).Lands?
    ensures AllInSync(hub, One(w, fate, d.sku, Build(hub, d.variant, d.at)).0, before + [d])
  {
    var p := Build(hub, d.variant, d.at);
    OneConverges(w, fate, d.sku, p);
    forall e <- before | Build(hub, e.variant, e.at).Some?
      ensures InSync(One(w, fate, d.sku, p).0, Build(hub, e.variant, e.at).value)
    {
      var i :| 0 <= i < |before| && before[i] == e;
      assert (before + [d])[i] == e && (before + [d])[|before|] == d;
      assert e in before + [d];
      OneFrame(w, fate, d.sku, p, e.sku);
    }
  }

  /** When every call lands, one run brings every listing the channel knows to the hub's stock, price and currency. */
  lemma {:induction false} RunConverges(hub: Hub, w: Wire, fate: nat -> Fate, due: seq<Due>)
    requires Proper(hub, due) && forall k :: k >= w.made ==> fate(k).Lands?
    ensures All(hub, w, fate, due).1.Some? && All(hub, w, fate, due).0.made >= w.made
    ensures AllInSync(hub, All(hub, w, fate, due).0, due)
  {
    if due != [] {
      var before, d := due[..|due| - 1], due[|due| - 1];
      assert due == before + [d];
      RunConverges(hub, w, fate, before);
      var w1 := All(hub, w, fate, before).0;
      OneConverges(w1, fate, d.sku, Build(hub, d.variant, d.at));
      OneMoreInSync(hub, w1, fate, before, d);
      OneAborts(w1, fate, d.sku, Build(hub, d.variant, d.at));
    }
  }

  lemma OneIsQuiet(w: Wire, fate: nat -> Fate, sku: Sku, product: Option<Product>)
    requires product.Some? ==> InSync(w, product.value)
    requires !fate(w.made).Starves?
    ensures var (w', r) := One(w, fate, sku, product);
            w'.listings == w.listings && w.made <= w'.made <= w.made + 1 && r.Some? && !Drifted(r.value)
              && !r.value.repaired
  {
  }

  /** With everything in sync a run finds no drift and pushes nothing, whatever fails, unless the limiter starves it. */
  lemma {:induction false} RunIsQuiet(hub: Hub, w: Wire, fate: nat -> Fate, due: seq<Due>)
    requires Proper(hub, due) && AllInSync(hub, w, due)
    requires forall k :: w.made <= k < w.made + |due| ==> !fate(k).Starves?
    ensures var (w', results) := All(hub, w, fate, due);
            && w'.listings == w.listings && w.made <= w'.made <= w.made + |due|
            && results.Some? && |results.value| == |due| && Count(results.value, Drifted) == 0
               && Count(results.value, Mended) == 0
  {
    if due != [] {
      var before, d := due[..|due| - 1], due[|due| - 1];
      assert due == before + [d];
      RunIsQuiet(hub, w, fate, before);
      OneIsQuiet(All(hub, w, fate, before).0, fate, d.sku, Build(hub, d.variant, d.at));
    }
  }

  // ---------------------------------------------------------------- two runs

  /** No price window of the tenant opens or closes in between. */
  predicate Steady(overrides: seq<Pricing.Override>, from: Pricing.Time, until: Pricing.Time) {
    forall o <- overrides :: !Pricing.Within(o.from, from, until) && !Pricing.Within(o.to, from, until)
  }

  lemma SteadyBuild(hub: Hub, v: VariantId, from: Pricing.Time, t: Pricing.Time, until: Pricing.Time)
    requires Steady(hub.overrides, from, until) && from <= t <= until
    ensures Build(hub, v, t) == Build(hub, v, from)
  {
    if Pricing.ResolvePrice(hub.bases, hub.overrides, Pricing.Query(v, from, None))
       != Pricing.ResolvePrice(hub.bases, hub.overrides, Pricing.Query(v, t, None)) {
      Pricing.PriceChangesOnlyAtABoundary(hub.bases, hub.overrides, v, None, from, t);
      assert false;
    }
  }

  /** The same listings at other times. */
  predicate Again(due: seq<Due>, due': seq<Due>) {
    |due| == |due'| && forall i :: 0 <= i < |due| ==> due'[i].variant == due[i].variant && due'[i].sku == due[i].sku
  }

  predicate Between(due: seq<Due>, from: Pricing.Time, until: Pricing.Time) {
    forall d <- due :: from <= d.at <= until
  }

  /** With neither stock nor prices changing, what one run brought into sync is in sync for the next. */
  lemma StillInSync(hub: Hub, w: Wire, due: seq<Due>, due': seq<Due>, from: Pricing.Time, until: Pricing.Time)
    requires Proper(hub, due) && Again(due, due') && AllInSync(hub, w, due)
    requires Steady(hub.overrides, from, until) && Between(due, from, until) && Between(due', from, until)
    ensures Proper(hub, due') && AllInSync(hub, w, due')
  {
    forall d <- due'
      ensures d.variant in hub.skus && d.sku == hub.skus[d.variant]
      ensures Build(hub, d.variant, d.at).Some? ==> InSync(w, Build(hub, d.variant, d.at).value)
    {
      var i :| 0 <= i < |due'| && due'[i] == d;
      assert due[i] in due;
      SteadyBuild(hub, d.variant, from, d.at, until);
      SteadyBuild(hub, d.variant, from, due[i].at, until);
    }
  }

  /** Zero drifted, zero repaired, and nothing touched. */
  predicate FindsNothing(hub: Hub, w: Wire, fate: nat -> Fate, due: seq<Due>) {
    var (w', results) := All(hub, w, fate, due);
    && w'.listings == w.listings
    && results.Some? && |results.value| == |due| && Count(results.value, Drifted) == 0
       && Count(results.value, Mended) == 0
  }

  /**
   If every channel call lands and neither stock nor prices change, the second run reports zero drifted and zero
   repaired and leaves the channel as it is.
   */
  lemma SecondRunFindsNothing(hub: Hub, w: Wire, fate: nat -> Fate, due: seq<Due>, due': seq<Due>,
      from: Pricing.Time, until: Pricing.Time)
    requires Proper(hub, due) && Again(due, due') && forall k :: k >= w.made ==> fate(k).Lands?
    requires Steady(hub.overrides, from, until) && Between(due, from, until) && Between(due', from, until)
    ensures AllInSync(hub, All(hub, w, fate, due).0, due) && FindsNothing(hub, All(hub, w, fate, due).0, fate, due')
  {
    RunConverges(hub, w, fate, due);
    var w1 := All(hub, w, fate, due).0;
    StillInSync(hub, w1, due, due', from, until);
    RunIsQuiet(hub, w1, fate, due');
  }

  // ---------------------------------------------------------------- what holds in every run

  lemma OneAborts(w: Wire, fate: nat -> Fate, sku: Sku, product: Option<Product>)
    ensures var (w', r) := One(w, fate, sku, product);
            && w.made <= w'.made <= w.made + 3
            && (r.None? <==> exists k :: w.made <= k < w'.made && fate(k).Starves?)
            && (r.Some? && r.value.repaired ==> Drifted(r.value))
  {
    var fates := [fate(w.made), fate(w.made + 1), fate(w.made + 2)];
  }

  /**
   A run ends early exactly when a call it made starved at the rate limiter; what it repaired before stays repaired.
   */
  lemma {:induction false} RunAbortsExactlyWhen(hub: Hub, w: Wire, fate: nat -> Fate, due: seq<Due>)
    ensures var (w', results) := All(hub, w, fate, due);
            w.made <= w'.made && (results.None? <==> exists k :: w.made <= k < w'.made && fate(k).Starves?)
  {
    if due != [] {
      var before, d := due[..|due| - 1], due[|due| - 1];
      RunAbortsExactlyWhen(hub, w, fate, before);
      OneAborts(All(hub, w, fate, before).0, fate, d.sku, Build(hub, d.variant, d.at));
    }
  }

  /** The results follow the listings due one by one: each carries its listing's sku and the hub's stock of it. */
  lemma {:induction false} ResultsFollowTheListings(hub: Hub, w: Wire, fate: nat -> Fate, due: seq<Due>)
    requires All(hub, w, fate, due).1.Some?
    ensures var results := All(hub, w, fate, due).1.value;
            && |results| == |due|
            && forall i :: 0 <= i < |due| ==>
                 var p := Build(hub, due[i].variant, due[i].at);
                 && results[i].sku == due[i].sku && (results[i].note.NotPublished? <==> p.None?)
                 && results[i].posStock == if p.Some? then Some(p.value.stock) else None
  {
    if due != [] {
      var before, d := due[..|due| - 1], due[|due| - 1];
      ResultsFollowTheListings(hub, w, fate, before);
      ReportsExactly(All(hub, w, fate, before).0, fate, d.sku, Build(hub, d.variant, d.at));
    }
  }

  /** Nothing is repaired that did not drift, and nothing drifts that was not checked. */
  lemma {:induction false} CountsAreOrdered(hub: Hub, w: Wire, fate: nat -> Fate, due: seq<Due>)
    requires All(hub, w, fate, due).1.Some?
    ensures var results := All(hub, w, fate, due).1.value;
            Count(results, Mended) <= Count(results, Drifted) <= |results| == |due|
  {
    if due != [] {
      var before, d := due[..|due| - 1], due[|due| - 1];
      CountsAreOrdered(hub, w, fate, before);
      OneAborts(All(hub, w, fate, before).0, fate, d.sku, Build(hub, d.variant, d.at));
    }
  }

  lemma {:induction false} CountConcat(a: seq<ListingResult>, b: seq<ListingResult>, p: ListingResult -> bool)
    ensures Count(a + b, p) == Count(a, p) + Count(b, p)
  {
    if b == [] {
      assert a + b == a;
    } else {
      CountConcat(a, b[..|b| - 1], p);
      assert (a + b)[..|a + b| - 1] == a + b[..|b| - 1];
    }
  }

  // ---------------------------------------------------------------- the listings due

  /** A variant's listing on the channel is active and was pushed. */
  predicate Pushable(listings: map<Dispatcher.Key, Dispatcher.Listing>, channel: ChannelId, v: VariantId) {
    var key := Dispatcher.Key(channel, v);
    key in listings && listings[key].status == Dispatcher.Active && listings[key].externalId.Some?
  }

  /** The selection of a run: the active, already pushed listings of the channel, each once. */
  ghost predicate Selected(hub: Hub, listings: map<Dispatcher.Key, Dispatcher.Listing>, channel: ChannelId,
      due: seq<Due>)
  {
    && (forall d <- due ::
          d.variant in hub.skus && d.sku == hub.skus[d.variant] && Pushable(listings, channel, d.variant))
    && (forall i, j :: 0 <= i < j < |due| ==> due[i].variant != due[j].variant)
    && (forall v <- hub.skus :: Pushable(listings, channel, v) ==> exists d <- due :: d.variant == v)
  }

  /** The unique key on a sku. */
  predicate UniqueSkus(hub: Hub) {
    forall v <- hub.skus, u <- hub.skus :: hub.skus[v] == hub.skus[u] ==> v == u
  }

  lemma SelectedIsProper(hub: Hub, listings: map<Dispatcher.Key, Dispatcher.Listing>, channel: ChannelId, due: seq<Due>)
    requires UniqueSkus(hub) && Selected(hub, listings, channel, due)
    ensures Proper(hub, due)
  {
    forall i, j | 0 <= i < j < |due| ensures due[i].sku != due[j].sku {
      assert due[i] in due && due[j] in due;
    }
  }

  /**
   When every call lands, one run leaves every active, already pushed listing of a published product that the channel
   knows at the hub's stock, price and currency, and no other sku of the channel changed.
   */
  lemma EveryListingConverges(hub: Hub, listings: map<Dispatcher.Key, Dispatcher.Listing>, channel: ChannelId, w: Wire,
      fate: nat -> Fate, due: seq<Due>, v: VariantId)
    requires UniqueSkus(hub) && Selected(hub, listings, channel, due) && forall k :: k >= w.made ==> fate(k).Lands?
    requires v in hub.skus
    ensures var w' := All(hub, w, fate, due).0;
            if Pushable(listings, channel, v)
            then exists d <- due ::
              d.variant == v && (Build(hub, v, d.at).Some? ==> InSync(w', Build(hub, v, d.at).value))
            else hub.skus[v] in w.listings ==>
              hub.skus[v] in w'.listings && w'.listings[hub.skus[v]] == w.listings[hub.skus[v]]
  {
    SelectedIsProper(hub, listings, channel, due);
    if Pushable(listings, channel, v) {
      RunConverges(hub, w, fate, due);
    } else {
      AllFrame(hub, w, fate, due, hub.skus[v]);
    }
  }

  // ---------------------------------------------------------------- two runs over all channels

  predicate Quiet(run: seq<ListingResult>) {
    Count(run, Drifted) == 0 && Count(run, Mended) == 0
  }

  lemma {:induction false} QuietTogether(runs: seq<seq<ListingResult>>)
    requires forall run <- runs :: Quiet(run)
    ensures Quiet(Together(runs))
  {
    if runs != [] {
      var n := |runs| - 1;
      assert runs[n] in runs && forall run <- runs[..n] :: run in runs;
      QuietTogether(runs[..n]);
      CountConcat(Together(runs[..n]), runs[n], Drifted);
      CountConcat(Together(runs[..n]), runs[n], Mended);
    }
  }

  /** The same channels and listings at a later time. */
  predicate SameJob(job: Job, job': Job) {
    job'.link == job.link && Again(job.due, job'.due)
  }

  ghost predicate Reachable(job: Job)
    reads LinkOf(job)
  {
    job.link.Some? ==> forall k :: k >= job.link.value.made ==> job.link.value.fate(k).Lands?
  }

  predicate SteadyJobs(hub: Hub, jobs: seq<Job>, jobs': seq<Job>, from: Pricing.Time, until: Pricing.Time) {
    && |jobs| == |jobs'| && Steady(hub.overrides, from, until)
    && forall i :: 0 <= i < |jobs| ==>
         SameJob(jobs[i], jobs'[i]) && Proper(hub, jobs[i].due) && Between(jobs[i].due, from, until)
           && Between(jobs'[i].due, from, until)
  }

  lemma SameLinks(jobs: seq<Job>, jobs': seq<Job>)
    requires |jobs| == |jobs'| && forall i :: 0 <= i < |jobs| ==> jobs'[i].link == jobs[i].link
    ensures Links(jobs') == Links(jobs)
  {
    forall k <- Links(jobs) ensures k in Links(jobs') {
      var j :| j in jobs && j.link == Some(k);
      var i :| 0 <= i < |jobs| && jobs[i] == j;
      assert jobs'[i] in jobs';
    }
    forall k <- Links(jobs') ensures k in Links(jobs) {
      var j :| j in jobs' && j.link == Some(k);
      var i :| 0 <= i < |jobs| && jobs'[i] == j;
      assert jobs[i] in jobs;
    }
  }

  /** One channel's second run, from where its first one left the channel. */
  lemma SecondRunIsQuiet(hub: Hub, w: Wire, fate: nat -> Fate, due: seq<Due>, due': seq<Due>, from: Pricing.Time,
      until: Pricing.Time)
    requires Proper(hub, due) && Again(due, due') && forall k :: k >= w.made ==> fate(k).Lands?
    requires Steady(hub.overrides, from, until) && Between(due, from, until) && Between(due', from, until)
    ensures All(hub, w, fate, due).1.Some?
    ensures var (w', run) := All(hub, All(hub, w, fate, due).0, fate, due'); run.Some? && Quiet(run.value)
  {
    RunConverges(hub, w, fate, due);
    SecondRunFindsNothing(hub, w, fate, due, due', from, until);
  }

  /**
   Reconciling a tenant twice: if every channel call lands and neither stock nor prices change, both reports come
   out and the second one says zero drifted and zero repaired.
   */
  method ReconcileTwice(hub: Hub, jobs: seq<Job>, jobs': seq<Job>, ghost from: Pricing.Time, ghost until: Pricing.Time)
    returns (first: Option<Report>, second: Option<Report>)
    requires OneLinkEach(jobs) && SteadyJobs(hub, jobs, jobs', from, until)
    requires forall job <- jobs :: Reachable(job)
    modifies Links(jobs)
    ensures first.Some? && second.Some?
    ensures second.value.drifted == 0 && second.value.repaired == 0
  {
    SameLinks(jobs, jobs');
    forall i | 0 <= i < |jobs| && jobs[i].link.Some?
      ensures var link := jobs[i].link.value;
              && All(hub, link.View(), link.fate, jobs[i].due).1.Some?
              && var run := All(hub, All(hub, link.View(), link.fate, jobs[i].due).0, link.fate, jobs'[i].due).1;
                 run.Some? && Quiet(run.value)
    {
      assert Reachable(jobs[i]);
      var link := jobs[i].link.value;
      SecondRunIsQuiet(hub, link.View(), link.fate, jobs[i].due, jobs'[i].due, from, until);
    }
    ghost var runs, runs';
    first, runs := ReconcileTenant(hub, jobs);
    label between:
    assert forall i :: 0 <= i < |runs| && jobs[i].link.Some? ==>
        jobs[i].link.value.View() == All(hub, old(jobs[i].link.value.View()), jobs[i].link.value.fate, jobs[i].due).0;
    second, runs' := ReconcileTenant(hub, jobs');
    forall run <- runs' ensures Quiet(run) {
      var i :| 0 <= i < |runs'| && runs'[i] == run;
      assert Ran@between(hub, jobs'[i], Some(run));
    }
    QuietTogether(runs');
  }
}
