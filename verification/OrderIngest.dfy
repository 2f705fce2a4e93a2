/**
 Inbound channel orders: greedy reservation over the online warehouses, all or nothing,
 behind a unique-key insert that makes a redelivery do nothing.
 */
module OrderIngest {
  import opened Results
  import opened Inventory

  type ChannelId = nat
  type OrderId = string

  datatype Line = Line(sku: Sku, qty: int)

  datatype Order = Order(id: OrderId, lines: seq<Line>)

  /** The reference every reservation of an order carries in the journal. */
  function Tag(id: OrderId): string {
    "channel-order:" + id
  }

  /** The online-sellable warehouses, in id order. */
  function Online(ws: seq<Warehouse>): seq<WarehouseId> {
    if ws == [] then [] else (if ws[0].online then [ws[0].id] else []) + Online(ws[1..])
  }

  /** In id order, the online ones among them and no others. */
  lemma {:induction false} OnlineExactly(ws: seq<Warehouse>)
    requires forall i, j :: 0 <= i < j < |ws| ==> ws[i].id < ws[j].id
    ensures forall w :: w in Online(ws) <==> exists h <- ws :: h.id == w && h.online
    ensures forall i, j :: 0 <= i < j < |Online(ws)| ==> Online(ws)[i] < Online(ws)[j]
  {
    if ws != [] {
      var rest := ws[1..];
      OnlineExactly(rest);
      assert ws == [ws[0]] + rest;
      forall k | 0 <= k < |Online(rest)| ensures ws[0].id < Online(rest)[k] {
        assert Online(rest)[k] in Online(rest);
      }
    }
  }

  /** One row of the allocation plan: a warehouse and what an unlocked read says is available there. */
  datatype Slot = Slot(warehouse: WarehouseId, available: int)

  /** The plan of a line: the variant's rows in the given warehouses. */
  function Planned(levels: map<Row, Level>, v: VariantId, ws: seq<WarehouseId>): seq<Slot> {
    if ws == [] then []
    else
      var row := Row(v, ws[0]);
      (if row in levels then [Slot(ws[0], levels[row].Available())] else []) + Planned(levels, v, ws[1..])
  }

  /**
   Takes from the plan in order until nothing remains; each take is a `reserve` movement judged on the current row.
   */
  function TakePlanned(cat: Catalog, s: Store, v: VariantId, plan: seq<Slot>, remaining: int,
      tag: string): Result<(Store, int)>
    decreases |plan|
  {
    if plan == [] || remaining == 0 then Ok((s, remaining))
    else
      var take := Min(plan[0].available, remaining);
      if take <= 0 then TakePlanned(cat, s, v, plan[1..], remaining, tag)
      else match Move(cat, s, Movement(Row(v, plan[0].warehouse), Reserve, take, Some(tag)), None)
           case Err(e) => Err(e)
           case Ok(s') => TakePlanned(cat, s', v, plan[1..], remaining - take, tag)
  }

  /** The reservation of every line, in order; the first failure fails the order. */
  function ReserveLines(cat: Catalog, s: Store, lines: seq<Line>, tag: string): Result<Store>
    requires cat.Valid()
    decreases |lines|
  {
    if lines == [] then Ok(s)
    else if lines[0].sku !in cat.skus then Err(NotFound)
    else
      var v := cat.skus[lines[0].sku];
      match TakePlanned(cat, s, v, Planned(s.levels, v, Online(cat.warehouses)), lines[0].qty, tag)
      case Err(e) => Err(e)
      case Ok((s', remaining)) => if remaining > 0 then Err(Conflict) else ReserveLines(cat, s', lines[1..], tag)
  }

  // ---------------------------------------------------------------- the methods

  method PlanLine(session: Session, v: VariantId, online: seq<WarehouseId>) returns (plan: seq<Slot>)
    ensures plan == Planned(session.levels, v, online)
  {
    plan := [];
    for i := 0 to |online|
      invariant plan + Planned(session.levels, v, online[i..]) == Planned(session.levels, v, online)
    {
      var row := Row(v, online[i]);
      if row in session.levels {
        plan := plan + [Slot(online[i], session.levels[row].Available())];
      }
    }
  }

  method OnlineWarehouses(session: Session) returns (online: seq<WarehouseId>)
    ensures online == Online(session.catalog.warehouses)
  {
    online := [];
    for i := 0 to |session.catalog.warehouses|
      invariant online + Online(session.catalog.warehouses[i..]) == Online(session.catalog.warehouses)
    {
      if session.catalog.warehouses[i].online {
        online := online + [session.catalog.warehouses[i].id];
      }
    }
  }

  /** One line: plan from an unlocked read, then take warehouse by warehouse. */
  method ReserveLine(session: Session, v: VariantId, qty: int, online: seq<WarehouseId>, tag: string)
    returns (r: Result<int>)
    modifies session`levels, session`journal, session`outbox
    ensures var plan := Planned(old(session.levels), v, online);
            match TakePlanned(session.catalog, old(session.Contents()), v, plan, qty, tag)
            case Ok((s, remaining)) => r == Ok(remaining) && session.Contents() == s
            case Err(e) => r == Err(e)
  {
    var remaining := qty;
    var plan := PlanLine(session, v, online);
    ghost var goal := TakePlanned(session.catalog, session.Contents(), v, plan, qty, tag);
    var k := 0;
    while k < |plan|
      invariant 0 <= k <= |plan|
      invariant TakePlanned(session.catalog, session.Contents(), v, plan[k..], remaining, tag) == goal
    {
      assert plan[k..][1..] == plan[k + 1..];
      if remaining == 0 { break; }
      var take := Min(plan[k].available, remaining);
      if take > 0 {
        var taken := session.ApplyMovement(Movement(Row(v, plan[k].warehouse), Reserve, take, Some(tag)), None);
        if taken.Err? { return Err(taken.error); }
        remaining := remaining - take;
      }
      k := k + 1;
    }
    return Ok(remaining);
  }

  /** A failure may leave part of the order reserved; the caller's savepoint undoes it. */
  method ReserveOrder(session: Session, order: Order) returns (r: Result<()>)
    requires session.catalog.Valid()
    modifies session`levels, session`journal, session`outbox
    ensures match ReserveLines(session.catalog, old(session.Contents()), order.lines, Tag(order.id))
            case Ok(s) => r == Ok(()) && session.Contents() == s
            case Err(e) => r == Err(e)
  {
    var online := OnlineWarehouses(session);
    ghost var goal := ReserveLines(session.catalog, session.Contents(), order.lines, Tag(order.id));
    for i := 0 to |order.lines|
      invariant ReserveLines(session.catalog, session.Contents(), order.lines[i..], Tag(order.id)) == goal
    {
      var line := order.lines[i];
      assert order.lines[i..][1..] == order.lines[i + 1..];
      if line.sku !in session.catalog.skus { return Err(NotFound); }
      var remaining := ReserveLine(session, session.catalog.skus[line.sku], line.qty, online, Tag(order.id));
      if remaining.Err? { return Err(remaining.error); }
      if remaining.value > 0 { return Err(Conflict); }
    }
    return Ok(());
  }

  // ---------------------------------------------------------------- what a reservation means

  function Avail(levels: map<Row, Level>, v: VariantId, w: WarehouseId): int {
    if Row(v, w) in levels then levels[Row(v, w)].Available() else 0
  }

  function TotalAvail(levels: map<Row, Level>, v: VariantId, ws: seq<WarehouseId>): int {
    if ws == [] then 0 else Avail(levels, v, ws[0]) + TotalAvail(levels, v, ws[1..])
  }

  /** What warehouse `w` gives when `q` units are poured over `ws` in order. */
  function Share(levels: map<Row, Level>, v: VariantId, ws: seq<WarehouseId>, q: int, w: WarehouseId): int {
    if ws == [] || q <= 0 then 0
    else
      var take := Min(Avail(levels, v, ws[0]), q);
      if w == ws[0] then take else Share(levels, v, ws[1..], q - take, w)
  }

  ghost predicate AllSound(levels: map<Row, Level>) {
    forall row <- levels :: levels[row].Sound()
  }

  /** `after` is `before` with `q` units of `v` poured over `ws`: no other row, and no quantity, differs. */
  ghost predicate Poured(before: map<Row, Level>, after: map<Row, Level>, v: VariantId, ws: seq<WarehouseId>, q: int) {
    && after.Keys == before.Keys
    && forall row <- before ::
         && after[row].qty == before[row].qty
         && after[row].reserved
            == before[row].reserved + if row.variant == v then Share(before, v, ws, q, row.warehouse) else 0
  }

  /** The positive quantity an order asks of a variant. */
  function Need(cat: Catalog, lines: seq<Line>, v: VariantId): nat {
    if lines == [] then 0
    else
      (if lines[0].sku in cat.skus && cat.skus[lines[0].sku] == v then Max(lines[0].qty, 0) else 0)
        + Need(cat, lines[1..], v)
  }

  predicate AllKnown(cat: Catalog, lines: seq<Line>) {
    forall i :: 0 <= i < |lines| ==> lines[i].sku in cat.skus
  }

  /** `after` is `before` with the whole order poured over the online warehouses. */
  ghost predicate Allocated(cat: Catalog, before: map<Row, Level>, after: map<Row, Level>, lines: seq<Line>) {
    && after.Keys == before.Keys
    && forall row <- before ::
         && after[row].qty == before[row].qty
         && after[row].reserved == before[row].reserved
              + Share(before, row.variant, Online(cat.warehouses), Need(cat, lines, row.variant), row.warehouse)
  }

  // ---------------------------------------------------------------- pouring

  lemma {:induction false} ShareBounds(levels: map<Row, Level>, v: VariantId, ws: seq<WarehouseId>, q: int,
      w: WarehouseId)
    requires AllSound(levels)
    ensures 0 <= Share(levels, v, ws, q, w) <= Avail(levels, v, w)
    ensures w !in ws ==> Share(levels, v, ws, q, w) == 0
  {
    if ws != [] && q > 0 {
      ShareBounds(levels, v, ws[1..], q - Min(Avail(levels, v, ws[0]), q), w);
    }
  }

  /** Shares depend only on what is available in the listed warehouses. */
  lemma {:induction false} ShareCongruent(a: map<Row, Level>, b: map<Row, Level>, v: VariantId,
      ws: seq<WarehouseId>, q: int, w: WarehouseId)
    requires forall u <- ws :: Avail(a, v, u) == Avail(b, v, u)
    ensures Share(a, v, ws, q, w) == Share(b, v, ws, q, w)
    ensures TotalAvail(a, v, ws) == TotalAvail(b, v, ws)
  {
    if ws != [] {
      ShareCongruent(a, b, v, ws[1..], q - Min(Avail(a, v, ws[0]), q), w);
      ShareCongruent(a, b, v, ws[1..], q, w);
    }
  }

  /** What is poured at the first warehouse, and what at a later one. */
  lemma SharePastFirst(a: map<Row, Level>, v: VariantId, ws: seq<WarehouseId>, q: int, u: WarehouseId)
    requires AllSound(a) && Distinct(ws) && ws != [] && u in ws
    ensures var t := if q <= 0 then 0 else Min(Avail(a, v, ws[0]), q);
            Share(a, v, ws, q, u) == if u == ws[0] then t else Share(a, v, ws[1..], q - t, u)
  {
  }

  lemma PouredPastFirst(a: map<Row, Level>, b: map<Row, Level>, v: VariantId, ws: seq<WarehouseId>, q: int, t: int)
    requires AllSound(a) && Distinct(ws) && ws != []
    requires forall u <- ws :: Avail(b, v, u) == Avail(a, v, u) - Share(a, v, ws, q, u)
    requires t == if q <= 0 then 0 else Min(Avail(a, v, ws[0]), q)
    ensures Avail(b, v, ws[0]) == Avail(a, v, ws[0]) - t && Avail(a, v, ws[0]) >= 0 && Distinct(ws[1..])
    ensures forall u <- ws[1..] :: Avail(b, v, u) == Avail(a, v, u) - Share(a, v, ws[1..], q - t, u)
  {
    SharePastFirst(a, v, ws, q, ws[0]);
    assert ws[0] in ws;
    forall u <- ws[1..]
      ensures Avail(b, v, u) == Avail(a, v, u) - Share(a, v, ws[1..], q - t, u)
    {
      assert u in ws && u != ws[0];
      SharePastFirst(a, v, ws, q, u);
    }
  }

  lemma MinTwice(a: int, q1: int, q2: int)
    requires a >= 0 && q1 > 0
    ensures var t1 := Min(a, q1); var t2 := if q2 <= 0 then 0 else Min(a - t1, q2);
            t1 + t2 == Min(a, q1 + Max(q2, 0)) && t2 >= 0
            && Max(q1 - t1, 0) + Max(if q2 <= 0 then q2 else q2 - t2, 0) == q1 + Max(q2, 0) - (t1 + t2)
  {
  }

  /** One warehouse of two pourings; `rest` is what remains of q2 after it. */
  lemma PourTwiceStep(a: map<Row, Level>, b: map<Row, Level>, v: VariantId, ws: seq<WarehouseId>, q1: int, q2: int,
      w: WarehouseId, t1: int, rest: int)
    requires ws != [] && q1 > 0 && Avail(a, v, ws[0]) >= 0 && t1 == Min(Avail(a, v, ws[0]), q1)
    requires Avail(b, v, ws[0]) == Avail(a, v, ws[0]) - t1
    requires rest == if q2 <= 0 then q2 else q2 - Min(Avail(b, v, ws[0]), q2)
    requires w != ws[0] ==>
               Share(a, v, ws[1..], q1 - t1, w) + Share(b, v, ws[1..], rest, w)
               == Share(a, v, ws[1..], Max(q1 - t1, 0) + Max(rest, 0), w)
    ensures Share(a, v, ws, q1, w) + Share(b, v, ws, q2, w) == Share(a, v, ws, q1 + Max(q2, 0), w)
  {
    MinTwice(Avail(a, v, ws[0]), q1, q2);
  }

  lemma PourNothingThen(a: map<Row, Level>, b: map<Row, Level>, v: VariantId, ws: seq<WarehouseId>, q1: int, q2: int,
      w: WarehouseId)
    requires q1 <= 0 && forall u <- ws :: Avail(b, v, u) == Avail(a, v, u) - Share(a, v, ws, q1, u)
    ensures Share(a, v, ws, q1, w) == 0 && Share(b, v, ws, q2, w) == Share(a, v, ws, Max(q2, 0), w)
  {
    ShareCongruent(a, b, v, ws, q2, w);
  }

  /** Pouring q1 and then q2 is pouring q1 + q2. */
  lemma {:induction false} PourTwice(a: map<Row, Level>, b: map<Row, Level>, v: VariantId, ws: seq<WarehouseId>,
      q1: int, q2: int, w: WarehouseId)
    requires AllSound(a) && Distinct(ws)
    requires forall u <- ws :: Avail(b, v, u) == Avail(a, v, u) - Share(a, v, ws, q1, u)
    ensures Share(a, v, ws, q1, w) + Share(b, v, ws, q2, w) == Share(a, v, ws, Max(q1, 0) + Max(q2, 0), w)
  {
    if ws != [] {
      if q1 <= 0 {
        PourNothingThen(a, b, v, ws, q1, q2, w);
      } else {
        var t1 := Min(Avail(a, v, ws[0]), q1);
        var rest := if q2 <= 0 then q2 else q2 - Min(Avail(b, v, ws[0]), q2);
        PouredPastFirst(a, b, v, ws, q1, t1);
        if w != ws[0] { PourTwice(a, b, v, ws[1..], q1 - t1, rest, w); }
        PourTwiceStep(a, b, v, ws, q1, q2, w, t1, rest);
        assert Max(q1, 0) == q1;
      }
    }
  }

  /** What is left in all is what was there less what could be poured. */
  lemma {:induction false} PourTotal(a: map<Row, Level>, b: map<Row, Level>, v: VariantId, ws: seq<WarehouseId>, q: int)
    requires AllSound(a) && Distinct(ws)
    requires forall u <- ws :: Avail(b, v, u) == Avail(a, v, u) - Share(a, v, ws, q, u)
    ensures TotalAvail(b, v, ws) == TotalAvail(a, v, ws) - Min(Max(q, 0), TotalAvail(a, v, ws))
    ensures TotalAvail(a, v, ws) >= 0
  {
    if ws != [] {
      var t := if q <= 0 then 0 else Min(Avail(a, v, ws[0]), q);
      PouredPastFirst(a, b, v, ws, q, t);
      PourTotal(a, b, v, ws[1..], q - t);
    }
  }

  /** Greedy fills a prefix: a warehouse gives something only when every earlier one has given all it had. */
  lemma {:induction false} GreedyFillsAPrefix(levels: map<Row, Level>, v: VariantId, ws: seq<WarehouseId>, q: int,
      i: nat, j: nat)
    requires AllSound(levels) && Distinct(ws) && i < j < |ws|
    requires Share(levels, v, ws, q, ws[j]) > 0
    ensures Share(levels, v, ws, q, ws[i]) == Avail(levels, v, ws[i])
  {
    var take := Min(Avail(levels, v, ws[0]), q);
    if i > 0 {
      GreedyFillsAPrefix(levels, v, ws[1..], q - take, i - 1, j - 1);
    }
  }

  // ---------------------------------------------------------------- one line

  lemma {:induction false} OnlineMembers(ws: seq<Warehouse>)
    ensures forall w <- Online(ws) :: exists i :: 0 <= i < |ws| && ws[i].id == w && ws[i].online
    ensures forall i :: 0 <= i < |ws| && ws[i].online ==> ws[i].id in Online(ws)
  {
    if ws != [] {
      OnlineMembers(ws[1..]);
      assert ws == [ws[0]] + ws[1..];
      forall w <- Online(ws)
        ensures exists i :: 0 <= i < |ws| && ws[i].id == w && ws[i].online
      {
        if w in Online(ws[1..]) {
          var i :| 0 <= i < |ws[1..]| && ws[1..][i].id == w && ws[1..][i].online;
          assert ws[i + 1].id == w;
        }
      }
    }
  }

  lemma DistinctCons(w: WarehouseId, ws: seq<WarehouseId>)
    requires Distinct(ws) && w !in ws
    ensures Distinct([w] + ws)
  {
  }

  lemma {:induction false} OnlineFacts(ws: seq<Warehouse>)
    requires forall i, j :: 0 <= i < j < |ws| ==> ws[i].id < ws[j].id
    ensures Distinct(Online(ws))
    ensures forall w <- Online(ws) :: exists i :: 0 <= i < |ws| && ws[i].id == w && ws[i].online
    ensures forall i :: 0 <= i < |ws| && ws[i].online ==> ws[i].id in Online(ws)
  {
    OnlineMembers(ws);
    if ws != [] {
      OnlineFacts(ws[1..]);
      forall w <- Online(ws[1..])
        ensures w != ws[0].id
      {
        var i :| 0 <= i < |ws[1..]| && ws[1..][i].id == w && ws[1..][i].online;
        assert ws[i + 1].id == w;
      }
      if ws[0].online {
        DistinctCons(ws[0].id, Online(ws[1..]));
      } else {
        assert Online(ws) == Online(ws[1..]);
      }
    }
  }

  /** The units of variant `u` booked under a tag. */
  function Tagged(journal: seq<Movement>, tag: string, u: VariantId): int {
    if journal == [] then 0
    else
      var m := journal[|journal| - 1];
      Tagged(journal[..|journal| - 1], tag, u) + if m.reference == Some(tag) && m.row.variant == u then m.qty else 0
  }

  /** The journal grew only by positive reservations of `v` under `tag`, `taken` units in all. */
  ghost predicate Booked(before: seq<Movement>, after: seq<Movement>, tag: string) {
    && before <= after
    && forall i :: |before| <= i < |after| ==>
       after[i].kind == Reserve && after[i].qty > 0 && after[i].reference == Some(tag)
  }

  /** The stored rows are what the plan of `v` over `ws` was read from. */
  ghost predicate PlanIsFresh(cat: Catalog, levels: map<Row, Level>, s: Store, v: VariantId, ws: seq<WarehouseId>) {
    && v in cat.variants && Distinct(ws) && AllSound(s.levels) && AllSound(levels)
    && (forall w <- ws :: cat.HasWarehouse(w))
    && (forall w <- ws :: Row(v, w) in levels <==> Row(v, w) in s.levels)
    && (forall w <- ws :: Row(v, w) in levels ==> s.levels[Row(v, w)] == levels[Row(v, w)])
  }

  /** One take, then the rest of the plan. */
  lemma PourStep(s: Store, s1: Store, after: map<Row, Level>, v: VariantId, ws: seq<WarehouseId>, q: int, take: int)
    requires ws != [] && Distinct(ws) && AllSound(s.levels) && q > 0
    requires Row(v, ws[0]) in s.levels && take == Min(Avail(s.levels, v, ws[0]), q) && take > 0
    requires s1.levels.Keys == s.levels.Keys
    requires forall row <- s.levels ::
               && s1.levels[row].qty == s.levels[row].qty
               && s1.levels[row].reserved == s.levels[row].reserved + if row == Row(v, ws[0]) then take else 0
    requires Poured(s1.levels, after, v, ws[1..], q - take)
    ensures Poured(s.levels, after, v, ws, q)
  {
    forall other <- s.levels
      ensures after[other].reserved == s.levels[other].reserved
                + if other.variant == v then Share(s.levels, v, ws, q, other.warehouse) else 0
    {
      forall u <- ws[1..] ensures Avail(s.levels, v, u) == Avail(s1.levels, v, u) { assert u != ws[0]; }
      ShareCongruent(s.levels, s1.levels, v, ws[1..], q - take, other.warehouse);
      ShareBounds(s.levels, v, ws[1..], q - take, other.warehouse);
    }
  }

  /** A warehouse with nothing to give, or nothing left to ask, is passed over. */
  lemma PourSkip(s: Store, after: map<Row, Level>, v: VariantId, ws: seq<WarehouseId>, q: int)
    requires ws != [] && Distinct(ws) && AllSound(s.levels)
    requires q <= 0 || Avail(s.levels, v, ws[0]) == 0
    requires Poured(s.levels, after, v, ws[1..], q)
    ensures Poured(s.levels, after, v, ws, q)
  {
    forall other <- s.levels
      ensures Share(s.levels, v, ws, q, other.warehouse) == Share(s.levels, v, ws[1..], q, other.warehouse)
    {
      ShareBounds(s.levels, v, ws[1..], q, other.warehouse);
    }
  }

  /** A take within what is available is accepted, and the rest of the plan stays fresh. */
  lemma OneTake(cat: Catalog, levels: map<Row, Level>, s: Store, v: VariantId, ws: seq<WarehouseId>, take: int,
      tag: string)
    requires PlanIsFresh(cat, levels, s, v, ws) && ws != []
    requires Row(v, ws[0]) in levels && 0 < take <= Avail(levels, v, ws[0])
    ensures Row(v, ws[0]) in s.levels && Avail(s.levels, v, ws[0]) == Avail(levels, v, ws[0])
    ensures var m := Movement(Row(v, ws[0]), Reserve, take, Some(tag));
            var level := Level(s.levels[m.row].qty, s.levels[m.row].reserved + take, s.levels[m.row].version + 1);
            var s1 := Posted(s, m, level);
            && Apply(s.levels[m.row], Reserve, take) == Ok(level)
            && Move(cat, s, m, None) == Ok(s1)
            && PlanIsFresh(cat, levels, s1, v, ws[1..])
            && TotalAvail(s1.levels, v, ws[1..]) == TotalAvail(s.levels, v, ws[1..])
  {
    assert ws[0] in ws;
    var s1 := Move(cat, s, Movement(Row(v, ws[0]), Reserve, take, Some(tag)), None).value;
    forall u <- ws[1..] ensures Avail(s.levels, v, u) == Avail(s1.levels, v, u) { assert u != ws[0]; }
    ShareCongruent(s.levels, s1.levels, v, ws[1..], 0, 0);
  }

  /** What a line leaves behind: `q` poured over `ws`, and only the uncovered part remaining. */
  ghost predicate LineDone(s: Store, v: VariantId, ws: seq<WarehouseId>, q: int, r: Result<(Store, int)>) {
    && r.Ok?
    && Poured(s.levels, r.value.0.levels, v, ws, q)
    && AllSound(r.value.0.levels)
    && r.value.1 == q - (if q <= 0 then 0 else Min(q, TotalAvail(s.levels, v, ws)))
  }

  /** A line run alone never fails under its lock and takes what the plan offers. */
  lemma {:induction false} TakeAlone(cat: Catalog, levels: map<Row, Level>, s: Store, v: VariantId,
      ws: seq<WarehouseId>, q: int, tag: string)
    requires PlanIsFresh(cat, levels, s, v, ws)
    ensures LineDone(s, v, ws, q, TakePlanned(cat, s, v, Planned(levels, v, ws), q, tag))
    decreases |ws|
  {
    if ws != [] {
      var plan := Planned(levels, v, ws);
      assert ws == [ws[0]] + ws[1..];
      TotalAvailNonNegative(s.levels, v, ws[1..]);
      if Row(v, ws[0]) !in levels {
        assert plan == Planned(levels, v, ws[1..]);
        TakeAlone(cat, levels, s, v, ws[1..], q, tag);
        PourSkip(s, TakePlanned(cat, s, v, plan, q, tag).value.0.levels, v, ws, q);
      } else if q != 0 {
        assert plan[1..] == Planned(levels, v, ws[1..]);
        if Min(plan[0].available, q) <= 0 {
          TakeAlone(cat, levels, s, v, ws[1..], q, tag);
          PourSkip(s, TakePlanned(cat, s, v, plan[1..], q, tag).value.0.levels, v, ws, q);
        } else {
          TakeFirst(cat, levels, s, v, ws, q, tag);
        }
      }
    }
  }

  lemma {:induction false} TakeFirst(cat: Catalog, levels: map<Row, Level>, s: Store, v: VariantId,
      ws: seq<WarehouseId>, q: int, tag: string)
    requires PlanIsFresh(cat, levels, s, v, ws) && ws != []
    requires Row(v, ws[0]) in levels && Min(Avail(levels, v, ws[0]), q) > 0
    ensures LineDone(s, v, ws, q, TakePlanned(cat, s, v, Planned(levels, v, ws), q, tag))
    decreases |ws|, 0
  {
    var plan, take := Planned(levels, v, ws), Min(Avail(levels, v, ws[0]), q);
    var s1 := Posted(s, Movement(Row(v, ws[0]), Reserve, take, Some(tag)),
      Apply(s.levels[Row(v, ws[0])], Reserve, take).value);
    var rest := TakePlanned(cat, s1, v, Planned(levels, v, ws[1..]), q - take, tag);
    OneTake(cat, levels, s, v, ws, take, tag);
    assert TakePlanned(cat, s, v, plan, q, tag) == rest by {
      assert plan[1..] == Planned(levels, v, ws[1..]);
    }
    TakeAlone(cat, levels, s1, v, ws[1..], q - take, tag);
    PourStep(s, s1, rest.value.0.levels, v, ws, q, take);
    TotalAvailNonNegative(s.levels, v, ws[1..]);
  }

  lemma BookedTransitive(a: seq<Movement>, b: seq<Movement>, c: seq<Movement>, tag: string)
    requires Booked(a, b, tag) && Booked(b, c, tag)
    ensures Booked(a, c, tag)
  {
    forall i | |a| <= i < |c| ensures c[i].kind == Reserve && c[i].qty > 0 && c[i].reference == Some(tag) {
      if i < |b| { assert c[i] == b[i]; }
    }
  }

  lemma TaggedSnoc(journal: seq<Movement>, m: Movement, tag: string, v: VariantId)
    ensures Tagged(journal + [m], tag, v)
            == Tagged(journal, tag, v) + if m.reference == Some(tag) && m.row.variant == v then m.qty else 0
  {
    assert (journal + [m])[..|journal|] == journal;
  }

  /** A take's journal entry. */
  lemma TakeIsBooked(cat: Catalog, s: Store, v: VariantId, w: WarehouseId, take: int, tag: string, t: string,
      u: VariantId)
    requires take > 0 && Move(cat, s, Movement(Row(v, w), Reserve, take, Some(tag)), None).Ok?
    ensures var s1 := Move(cat, s, Movement(Row(v, w), Reserve, take, Some(tag)), None).value;
            && Booked(s.journal, s1.journal, tag)
            && Tagged(s1.journal, t, u) == Tagged(s.journal, t, u) + if t == tag && u == v then take else 0
  {
    var m := Movement(Row(v, w), Reserve, take, Some(tag));
    assert Move(cat, s, m, None).value.journal == s.journal + [m];
    TaggedSnoc(s.journal, m, t, u);
  }

  /** Whatever the plan, what was taken is what was booked under the tag, and nothing else was booked. */
  lemma {:induction false} TakeBooks(cat: Catalog, s: Store, v: VariantId, plan: seq<Slot>, q: int, tag: string,
      t: string, u: VariantId)
    requires TakePlanned(cat, s, v, plan, q, tag).Ok?
    ensures var (s', remaining) := TakePlanned(cat, s, v, plan, q, tag).value;
            && Booked(s.journal, s'.journal, tag)
            && Tagged(s'.journal, t, u) == Tagged(s.journal, t, u) + (if t == tag && u == v then q - remaining else 0)
            && (if q <= 0 then remaining == q else remaining >= 0)
    decreases |plan|
  {
    if plan != [] && q != 0 {
      var take := Min(plan[0].available, q);
      if take <= 0 {
        TakeBooks(cat, s, v, plan[1..], q, tag, t, u);
      } else {
        var s1 := Move(cat, s, Movement(Row(v, plan[0].warehouse), Reserve, take, Some(tag)), None).value;
        TakeIsBooked(cat, s, v, plan[0].warehouse, take, tag, t, u);
        TakeBooks(cat, s1, v, plan[1..], q - take, tag, t, u);
        BookedTransitive(s.journal, s1.journal, TakePlanned(cat, s1, v, plan[1..], q - take, tag).value.0.journal, tag);
      }
    }
  }

  lemma {:induction false} TotalAvailNonNegative(levels: map<Row, Level>, v: VariantId, ws: seq<WarehouseId>)
    requires AllSound(levels)
    ensures TotalAvail(levels, v, ws) >= 0
  {
    if ws != [] { TotalAvailNonNegative(levels, v, ws[1..]); }
  }

  // ---------------------------------------------------------------- a whole order

  ghost predicate Covered(cat: Catalog, levels: map<Row, Level>, lines: seq<Line>) {
    forall v :: Need(cat, lines, v) <= TotalAvail(levels, v, Online(cat.warehouses))
  }

  /** One line's effect on what the rest of the order sees. */
  lemma PouredTotals(cat: Catalog, before: map<Row, Level>, after: map<Row, Level>, v: VariantId, q: int)
    requires cat.Valid() && AllSound(before) && Poured(before, after, v, Online(cat.warehouses), q)
    ensures var ws := Online(cat.warehouses);
            && TotalAvail(after, v, ws) == TotalAvail(before, v, ws) - Min(Max(q, 0), TotalAvail(before, v, ws))
            && TotalAvail(before, v, ws) >= 0
            && forall u :: u != v ==> TotalAvail(after, u, ws) == TotalAvail(before, u, ws)
  {
    var ws := Online(cat.warehouses);
    OnlineFacts(cat.warehouses);
    forall w <- ws
      ensures Avail(after, v, w) == Avail(before, v, w) - Share(before, v, ws, q, w)
    {
      ShareBounds(before, v, ws, q, w);
    }
    PourTotal(before, after, v, ws, q);
    forall u | u != v
      ensures TotalAvail(after, u, ws) == TotalAvail(before, u, ws)
    {
      ShareCongruent(before, after, u, ws, 0, 0);
    }
  }

  /** What a row gives to the whole order is what it gives to the first line and then to the rest. */
  lemma ShareOfLines(cat: Catalog, a: map<Row, Level>, b: map<Row, Level>, lines: seq<Line>, row: Row)
    requires cat.Valid() && AllSound(a) && lines != [] && lines[0].sku in cat.skus
    requires Poured(a, b, cat.skus[lines[0].sku], Online(cat.warehouses), lines[0].qty)
    ensures var v, ws, u := cat.skus[lines[0].sku], Online(cat.warehouses), row.variant;
            Share(a, u, ws, Need(cat, lines, u), row.warehouse)
            == (if u == v then Share(a, v, ws, lines[0].qty, row.warehouse) else 0)
               + Share(b, u, ws, Need(cat, lines[1..], u), row.warehouse)
  {
    var v, q, ws := cat.skus[lines[0].sku], lines[0].qty, Online(cat.warehouses);
    var u, w, rest := row.variant, row.warehouse, Need(cat, lines[1..], row.variant);
    OnlineFacts(cat.warehouses);
    if u == v {
      forall x <- ws
        ensures Avail(b, v, x) == Avail(a, v, x) - Share(a, v, ws, q, x)
      {
        ShareBounds(a, v, ws, q, x);
      }
      PourTwice(a, b, v, ws, q, rest, w);
    } else {
      ShareCongruent(a, b, u, ws, rest, w);
    }
  }

  lemma AllocatedStep(cat: Catalog, a: map<Row, Level>, b: map<Row, Level>, c: map<Row, Level>, lines: seq<Line>)
    requires cat.Valid() && AllSound(a) && lines != [] && lines[0].sku in cat.skus
    requires Poured(a, b, cat.skus[lines[0].sku], Online(cat.warehouses), lines[0].qty)
    requires Allocated(cat, b, c, lines[1..])
    ensures Allocated(cat, a, c, lines)
  {
    forall row <- a {
      ShareOfLines(cat, a, b, lines, row);
    }
  }

  /** One line of an order on a sound store: it is covered, or the order fails here. */
  lemma FirstLine(cat: Catalog, s: Store, lines: seq<Line>, tag: string)
    requires cat.Valid() && AllSound(s.levels) && lines != [] && lines[0].sku in cat.skus
    ensures var v, q, ws := cat.skus[lines[0].sku], lines[0].qty, Online(cat.warehouses);
            var taken := TakePlanned(cat, s, v, Planned(s.levels, v, ws), q, tag);
            && taken.Ok? && AllSound(taken.value.0.levels) && Poured(s.levels, taken.value.0.levels, v, ws, q)
            && (taken.value.1 > 0 <==> q > TotalAvail(s.levels, v, ws))
  {
    var v, q, ws := cat.skus[lines[0].sku], lines[0].qty, Online(cat.warehouses);
    OnlineFacts(cat.warehouses);
    TakeAlone(cat, s.levels, s, v, ws, q, tag);
    TotalAvailNonNegative(s.levels, v, ws);
  }

  /** The fate and the stock of an order run alone. */
  lemma {:induction false} ReservePours(cat: Catalog, s: Store, lines: seq<Line>, tag: string)
    requires cat.Valid() && AllSound(s.levels)
    ensures ReserveLines(cat, s, lines, tag).Ok? <==> AllKnown(cat, lines) && Covered(cat, s.levels, lines)
    ensures ReserveLines(cat, s, lines, tag).Err? ==> ReserveLines(cat, s, lines, tag).error in {NotFound, Conflict}
    ensures ReserveLines(cat, s, lines, tag).Ok? ==>
              && AllSound(ReserveLines(cat, s, lines, tag).value.levels)
              && Allocated(cat, s.levels, ReserveLines(cat, s, lines, tag).value.levels, lines)
    decreases |lines|
  {
    var ws := Online(cat.warehouses);
    if lines == [] {
      forall v
        ensures Need(cat, lines, v) <= TotalAvail(s.levels, v, ws)
      {
        TotalAvailNonNegative(s.levels, v, ws);
      }
    } else if lines[0].sku in cat.skus {
      var v, q := cat.skus[lines[0].sku], lines[0].qty;
      FirstLine(cat, s, lines, tag);
      var (s1, remaining) := TakePlanned(cat, s, v, Planned(s.levels, v, ws), q, tag).value;
      if remaining > 0 {
        assert Need(cat, lines, v) > TotalAvail(s.levels, v, ws);
      } else {
        ReservePours(cat, s1, lines[1..], tag);
        CoverageStep(cat, s.levels, s1.levels, lines);
        assert AllKnown(cat, lines) <==> AllKnown(cat, lines[1..]) by {
          assert lines == [lines[0]] + lines[1..];
        }
        if ReserveLines(cat, s1, lines[1..], tag).Ok? {
          AllocatedStep(cat, s.levels, s1.levels, ReserveLines(cat, s1, lines[1..], tag).value.levels, lines);
        }
      }
    }
  }

  /** Line k is the first obstacle: its sku is unknown, and what comes before it can be reserved. */
  ghost predicate UnknownFirst(cat: Catalog, levels: map<Row, Level>, lines: seq<Line>, k: nat) {
    && k < |lines| && lines[k].sku !in cat.skus
    && AllKnown(cat, lines[..k]) && Covered(cat, levels, lines[..k])
  }

  /** A refused order is refused for an unknown sku exactly when one comes up before the stock runs short. */
  lemma {:induction false} UnknownSkuIsReported(cat: Catalog, s: Store, lines: seq<Line>, tag: string)
    requires cat.Valid() && AllSound(s.levels)
    ensures ReserveLines(cat, s, lines, tag) == Err(NotFound)
       <==> exists k: nat :: UnknownFirst(cat, s.levels, lines, k)
    decreases |lines|
  {
    if lines != [] {
      ReservePours(cat, s, [], tag);
      if lines[0].sku !in cat.skus {
        assert lines[..0] == [];
        assert UnknownFirst(cat, s.levels, lines, 0);
      } else {
        var v := cat.skus[lines[0].sku];
        FirstLine(cat, s, lines, tag);
        var (s1, remaining) := TakePlanned(cat, s, v, Planned(s.levels, v, Online(cat.warehouses)), lines[0].qty,
            tag).value;
        if remaining <= 0 { UnknownSkuIsReported(cat, s1, lines[1..], tag); }
        forall k: nat | 0 < k < |lines|
          ensures UnknownFirst(cat, s.levels, lines, k)
                  <==> remaining <= 0 && UnknownFirst(cat, s1.levels, lines[1..], k - 1)
        {
          LaterUnknown(cat, s, lines, tag, k);
        }
        if remaining <= 0 && exists k: nat :: UnknownFirst(cat, s1.levels, lines[1..], k) {
          var k: nat :| UnknownFirst(cat, s1.levels, lines[1..], k);
          assert UnknownFirst(cat, s.levels, lines, k + 1);
        }
        assert !UnknownFirst(cat, s.levels, lines, 0);
      }
    }
  }

  lemma LaterUnknown(cat: Catalog, s: Store, lines: seq<Line>, tag: string, k: nat)
    requires cat.Valid() && AllSound(s.levels) && 0 < k < |lines| && lines[0].sku in cat.skus
    ensures var v := cat.skus[lines[0].sku];
            var r := TakePlanned(cat, s, v, Planned(s.levels, v, Online(cat.warehouses)), lines[0].qty, tag);
            && r.Ok?
            && (UnknownFirst(cat, s.levels, lines, k)
                <==> r.value.1 <= 0 && UnknownFirst(cat, r.value.0.levels, lines[1..], k - 1))
  {
    FirstLine(cat, s, lines, tag);
    var v := cat.skus[lines[0].sku];
    var s1 := TakePlanned(cat, s, v, Planned(s.levels, v, Online(cat.warehouses)), lines[0].qty, tag).value.0;
    assert lines[..k][1..] == lines[1..][..k - 1];
    ReservePours(cat, s, lines[..k], tag);
    ReservePours(cat, s1, lines[1..][..k - 1], tag);
  }

  /** A reserved order is booked in full, from whatever tables it started. */
  lemma {:induction false} ReserveBooks(cat: Catalog, s: Store, lines: seq<Line>, tag: string, t: string, u: VariantId)
    requires cat.Valid() && ReserveLines(cat, s, lines, tag).Ok?
    ensures var s' := ReserveLines(cat, s, lines, tag).value;
            && Booked(s.journal, s'.journal, tag)
            && Tagged(s'.journal, t, u) == Tagged(s.journal, t, u) + if t == tag then Need(cat, lines, u) else 0
    decreases |lines|
  {
    if lines != [] {
      var v, q, ws := cat.skus[lines[0].sku], lines[0].qty, Online(cat.warehouses);
      TakeBooks(cat, s, v, Planned(s.levels, v, ws), q, tag, t, u);
      var s1 := TakePlanned(cat, s, v, Planned(s.levels, v, ws), q, tag).value.0;
      ReserveBooks(cat, s1, lines[1..], tag, t, u);
      BookedTransitive(s.journal, s1.journal, ReserveLines(cat, s1, lines[1..], tag).value.journal, tag);
    }
  }

  /**
   An order run alone is reserved exactly when every SKU is known and, per variant, the positive
   quantities fit the online stock; then it is poured over the online warehouses and booked in full.
   */
  lemma ReserveSucceedsExactlyWhen(cat: Catalog, s: Store, lines: seq<Line>, tag: string)
    requires cat.Valid() && AllSound(s.levels)
    ensures ReserveLines(cat, s, lines, tag).Ok? <==> AllKnown(cat, lines) && Covered(cat, s.levels, lines)
    ensures ReserveLines(cat, s, lines, tag).Err? ==> ReserveLines(cat, s, lines, tag).error in {NotFound, Conflict}
    ensures ReserveLines(cat, s, lines, tag).Ok? ==>
              var s' := ReserveLines(cat, s, lines, tag).value;
              && AllSound(s'.levels)
              && Allocated(cat, s.levels, s'.levels, lines)
              && Booked(s.journal, s'.journal, tag)
              && forall t, u ::
                   Tagged(s'.journal, t, u) == Tagged(s.journal, t, u) + if t == tag then Need(cat, lines, u) else 0
  {
    ReservePours(cat, s, lines, tag);
    if ReserveLines(cat, s, lines, tag).Ok? {
      ReserveBooks(cat, s, lines, tag, tag, 0);
      var s' := ReserveLines(cat, s, lines, tag).value;
      forall t, u
        ensures Tagged(s'.journal, t, u) == Tagged(s.journal, t, u) + if t == tag then Need(cat, lines, u) else 0
      {
        ReserveBooks(cat, s, lines, tag, t, u);
      }
    }
  }

  lemma CoverageStep(cat: Catalog, before: map<Row, Level>, after: map<Row, Level>, lines: seq<Line>)
    requires cat.Valid() && AllSound(before) && lines != [] && lines[0].sku in cat.skus
    requires Poured(before, after, cat.skus[lines[0].sku], Online(cat.warehouses), lines[0].qty)
    requires lines[0].qty <= TotalAvail(before, cat.skus[lines[0].sku], Online(cat.warehouses))
    ensures Covered(cat, before, lines) <==> Covered(cat, after, lines[1..])
  {
    var v, q, ws := cat.skus[lines[0].sku], lines[0].qty, Online(cat.warehouses);
    PouredTotals(cat, before, after, v, q);
    forall u
      ensures Need(cat, lines, u) <= TotalAvail(before, u, ws) <==> Need(cat, lines[1..], u) <= TotalAvail(after, u, ws)
    {
    }
    if Covered(cat, before, lines) {
      forall u ensures Need(cat, lines[1..], u) <= TotalAvail(after, u, ws) {
        assert Need(cat, lines, u) <= TotalAvail(before, u, ws);
      }
    }
    if Covered(cat, after, lines[1..]) {
      forall u ensures Need(cat, lines, u) <= TotalAvail(before, u, ws) {
        assert Need(cat, lines[1..], u) <= TotalAvail(after, u, ws);
      }
    }
  }

  /** On success each variant's online total falls by exactly what was ordered, and offline rows do not move. */
  lemma ReserveLowersTheTotal(cat: Catalog, s: Store, lines: seq<Line>, tag: string, v: VariantId)
    requires cat.Valid() && AllSound(s.levels) && ReserveLines(cat, s, lines, tag).Ok?
    ensures var s' := ReserveLines(cat, s, lines, tag).value;
            && TotalAvail(s'.levels, v, Online(cat.warehouses))
               == TotalAvail(s.levels, v, Online(cat.warehouses)) - Need(cat, lines, v)
            && forall row <- s.levels :: row.warehouse !in Online(cat.warehouses) ==>
                 row in s'.levels && s'.levels[row].qty == s.levels[row].qty
                   && s'.levels[row].reserved == s.levels[row].reserved
  {
    var s', ws := ReserveLines(cat, s, lines, tag).value, Online(cat.warehouses);
    ReserveSucceedsExactlyWhen(cat, s, lines, tag);
    OnlineFacts(cat.warehouses);
    forall w <- ws
      ensures Avail(s'.levels, v, w) == Avail(s.levels, v, w) - Share(s.levels, v, ws, Need(cat, lines, v), w)
    {
      ShareBounds(s.levels, v, ws, Need(cat, lines, v), w);
    }
    PourTotal(s.levels, s'.levels, v, ws, Need(cat, lines, v));
    assert Need(cat, lines, v) <= TotalAvail(s.levels, v, ws);
    forall row <- s.levels | row.warehouse !in ws
      ensures s'.levels[row].reserved == s.levels[row].reserved
    {
      ShareBounds(s.levels, row.variant, ws, Need(cat, lines, row.variant), row.warehouse);
    }
  }

  // ---------------------------------------------------------------- the order of the lines does not matter

  /** The same stock in every row; versions count movements and may differ. */
  ghost predicate SameStock(a: map<Row, Level>, b: map<Row, Level>) {
    && a.Keys == b.Keys
    && forall row <- a :: a[row].qty == b[row].qty && a[row].reserved == b[row].reserved
  }

  /** Two line lists with the same demand meet the same fate and leave the same stock. */
  lemma SameDemandSameStock(cat: Catalog, s: Store, lines: seq<Line>, lines': seq<Line>, tag: string)
    requires cat.Valid() && AllSound(s.levels)
    requires AllKnown(cat, lines) <==> AllKnown(cat, lines')
    requires forall v :: Need(cat, lines, v) == Need(cat, lines', v)
    ensures ReserveLines(cat, s, lines, tag).Ok? <==> ReserveLines(cat, s, lines', tag).Ok?
    ensures ReserveLines(cat, s, lines, tag).Ok? ==>
              SameStock(ReserveLines(cat, s, lines, tag).value.levels, ReserveLines(cat, s, lines', tag).value.levels)
  {
    ReserveSucceedsExactlyWhen(cat, s, lines, tag);
    ReserveSucceedsExactlyWhen(cat, s, lines', tag);
    assert Covered(cat, s.levels, lines) <==> Covered(cat, s.levels, lines') by {
      if Covered(cat, s.levels, lines) {
        forall v ensures Need(cat, lines', v) <= TotalAvail(s.levels, v, Online(cat.warehouses)) {
          assert Need(cat, lines, v) <= TotalAvail(s.levels, v, Online(cat.warehouses));
        }
      }
      if Covered(cat, s.levels, lines') {
        forall v ensures Need(cat, lines, v) <= TotalAvail(s.levels, v, Online(cat.warehouses)) {
          assert Need(cat, lines', v) <= TotalAvail(s.levels, v, Online(cat.warehouses));
        }
      }
    }
  }

  lemma {:induction false} NeedConcat(cat: Catalog, a: seq<Line>, b: seq<Line>, v: VariantId)
    ensures Need(cat, a + b, v) == Need(cat, a, v) + Need(cat, b, v)
  {
    if a == [] {
      assert a + b == b;
    } else {
      NeedConcat(cat, a[1..], b, v);
      assert (a + b)[1..] == a[1..] + b;
    }
  }

  lemma {:induction false} NeedOfPermutation(cat: Catalog, a: seq<Line>, b: seq<Line>, v: VariantId)
    requires multiset(a) == multiset(b)
    ensures Need(cat, a, v) == Need(cat, b, v)
    decreases |a|
  {
    if a == [] {
      assert |b| == |multiset(b)| == |multiset(a)|;
    } else {
      assert a[0] in multiset(a);
      var i :| 0 <= i < |b| && b[i] == a[0];
      assert a == [a[0]] + a[1..];
      WithoutIndex(b, i);
      NeedWithoutIndex(cat, b, i, v);
      assert multiset(a) == multiset{a[0]} + multiset(a[1..]);
      NeedOfPermutation(cat, a[1..], b[..i] + b[i + 1..], v);
    }
  }

  lemma NeedWithoutIndex(cat: Catalog, b: seq<Line>, i: nat, v: VariantId)
    requires i < |b|
    ensures Need(cat, b, v) == Need(cat, [b[i]], v) + Need(cat, b[..i] + b[i + 1..], v)
  {
    assert b == b[..i] + ([b[i]] + b[i + 1..]);
    NeedConcat(cat, b[..i], [b[i]] + b[i + 1..], v);
    NeedConcat(cat, [b[i]], b[i + 1..], v);
    NeedConcat(cat, b[..i], b[i + 1..], v);
  }

  lemma WithoutIndex<T>(b: seq<T>, i: nat)
    requires i < |b|
    ensures multiset(b[..i] + b[i + 1..]) == multiset(b) - multiset{b[i]}
  {
    assert b == b[..i] + [b[i]] + b[i + 1..];
  }

  /** Any order of the lines reserves the same stock in every row. */
  lemma LineOrderIsIrrelevant(cat: Catalog, s: Store, lines: seq<Line>, shuffled: seq<Line>, tag: string)
    requires cat.Valid() && AllSound(s.levels) && multiset(lines) == multiset(shuffled)
    ensures ReserveLines(cat, s, lines, tag).Ok? <==> ReserveLines(cat, s, shuffled, tag).Ok?
    ensures ReserveLines(cat, s, lines, tag).Ok? ==>
              SameStock(ReserveLines(cat, s, lines, tag).value.levels, ReserveLines(cat, s, shuffled, tag).value.levels)
  {
    forall v ensures Need(cat, lines, v) == Need(cat, shuffled, v) { NeedOfPermutation(cat, lines, shuffled, v); }
    assert forall line :: line in lines <==> line in multiset(lines);
    assert forall line :: line in shuffled <==> line in multiset(shuffled);
    assert AllKnown(cat, lines) <==> forall line <- lines :: line.sku in cat.skus;
    assert AllKnown(cat, shuffled) <==> forall line <- shuffled :: line.sku in cat.skus;
    SameDemandSameStock(cat, s, lines, shuffled, tag);
  }

  /** Two positive lines of one SKU, wherever they stand, reserve the same stock as one line of their sum. */
  lemma MergingLinesIsIrrelevant(cat: Catalog, s: Store, a: seq<Line>, b: seq<Line>, c: seq<Line>, sku: Sku,
      q1: int, q2: int, tag: string)
    requires cat.Valid() && AllSound(s.levels) && q1 > 0 && q2 > 0
    ensures var apart := a + [Line(sku, q1)] + b + [Line(sku, q2)] + c;
            var merged := a + [Line(sku, q1 + q2)] + b + c;
            && (ReserveLines(cat, s, apart, tag).Ok? <==> ReserveLines(cat, s, merged, tag).Ok?)
            && (ReserveLines(cat, s, apart, tag).Ok? ==>
                  SameStock(ReserveLines(cat, s, apart, tag).value.levels,
                    ReserveLines(cat, s, merged, tag).value.levels))
  {
    var l1, l2, l12 := [Line(sku, q1)], [Line(sku, q2)], [Line(sku, q1 + q2)];
    var apart, merged := a + l1 + b + l2 + c, a + l12 + b + c;
    forall v ensures Need(cat, apart, v) == Need(cat, merged, v) {
      NeedConcat(cat, a + l1 + b + l2, c, v);
      NeedConcat(cat, a + l1 + b, l2, v);
      NeedConcat(cat, a + l1, b, v);
      NeedConcat(cat, a, l1, v);
      NeedConcat(cat, a + l12 + b, c, v);
      NeedConcat(cat, a + l12, b, v);
      NeedConcat(cat, a, l12, v);
    }
    KnownSkus(cat, apart);
    KnownSkus(cat, merged);
    assert (forall line <- apart :: line.sku in cat.skus) <==> (forall line <- merged :: line.sku in cat.skus) by {
      assert l1[0] in apart && l12[0] in merged;
    }
    SameDemandSameStock(cat, s, apart, merged, tag);
  }

  lemma KnownSkus(cat: Catalog, lines: seq<Line>)
    ensures AllKnown(cat, lines) <==> forall line <- lines :: line.sku in cat.skus
  {
  }

  // ---------------------------------------------------------------- ingest

  datatype Status = Received | Reserved | Rejected

  /** A row of the order table; (channel, order id) is unique. */
  datatype OrderRow = OrderRow(channel: ChannelId, order: Order, status: Status)

  /** What a delivery answers; `Aborted` is an error the handler does not catch, so its transaction never commits. */
  datatype Outcome = Duplicate | Settled(status: Status, ack: string) | Aborted

  datatype Hub = Hub(store: Store, orders: seq<OrderRow>)

  predicate OnRecord(orders: seq<OrderRow>, channel: ChannelId, id: OrderId) {
    exists i :: 0 <= i < |orders| && orders[i].channel == channel && orders[i].order.id == id
  }

  function Ingest(cat: Catalog, h: Hub, channel: ChannelId, order: Order): (Hub, Outcome)
    requires cat.Valid()
  {
    if OnRecord(h.orders, channel, order.id) then (h, Duplicate)
    else
      match ReserveLines(cat, h.store, order.lines, Tag(order.id))
      case Ok(s) => (Hub(s, h.orders + [OrderRow(channel, order, Reserved)]), Settled(Reserved, "confirmed"))
      case Err(Integrity) => (h, Aborted)
      case Err(_) => (Hub(h.store, h.orders + [OrderRow(channel, order, Rejected)]), Settled(Rejected, "cancelled"))
  }

  class OrderTable {
    var rows: seq<OrderRow>

    constructor (rows: seq<OrderRow>)
      ensures this.rows == rows
    {
      this.rows := rows;
    }

    /** INSERT under UNIQUE(channel, order id). */
    method Insert(row: OrderRow) returns (inserted: bool)
      modifies this
      ensures inserted <==> !OnRecord(old(rows), row.channel, row.order.id)
      ensures rows == if inserted then old(rows) + [row] else old(rows)
    {
      inserted := true;
      for i := 0 to |rows|
        invariant rows == old(rows)
        invariant inserted <==>
                  !exists k :: 0 <= k < i && rows[k].channel == row.channel && rows[k].order.id == row.order.id
      {
        if rows[i].channel == row.channel && rows[i].order.id == row.order.id { inserted := false; }
      }
      if inserted { rows := rows + [row]; }
    }

    method SetLastStatus(status: Status)
      requires rows != []
      modifies this
      ensures rows == old(rows)[|old(rows)| - 1 := old(rows)[|old(rows)| - 1].(status := status)]
    {
      rows := rows[|rows| - 1 := rows[|rows| - 1].(status := status)];
    }
  }

  /** Insert first, reserve inside a savepoint, then settle the status. */
  method IngestChannelOrder(session: Session, table: OrderTable, channel: ChannelId, order: Order)
    returns (outcome: Outcome)
    requires session.catalog.Valid()
    modifies session`levels, session`journal, session`outbox, table
    ensures (Hub(session.Contents(), table.rows), outcome)
            == Ingest(session.catalog, old(Hub(session.Contents(), table.rows)), channel, order)
  {
    var before := table.rows;
    var inserted := table.Insert(OrderRow(channel, order, Received));
    if !inserted { return Duplicate; }
    var savepoint := session.Snapshot();
    var r := ReserveOrder(session, order);
    assert forall status ::
             (before + [OrderRow(channel, order, Received)])[|before| := OrderRow(channel, order, status)]
                            == before + [OrderRow(channel, order, status)];
    match r {
      case Ok(_) =>
        table.SetLastStatus(Reserved);
        outcome := Settled(Reserved, "confirmed");
      case Err(Integrity) =>
        session.RollbackTo(savepoint);
        table.rows := before;
        outcome := Aborted;
      case Err(_) =>
        session.RollbackTo(savepoint);
        table.SetLastStatus(Rejected);
        outcome := Settled(Rejected, "cancelled");
    }
  }

  /** On a sound store a delivery is always settled, and a rejection leaves no trace in stock, journal or outbox. */
  lemma DeliveryIsSettled(cat: Catalog, h: Hub, channel: ChannelId, order: Order)
    requires cat.Valid() && AllSound(h.store.levels)
    ensures var (h', outcome) := Ingest(cat, h, channel, order);
            && AllSound(h'.store.levels)
            && OnRecord(h'.orders, channel, order.id)
            && outcome != Aborted
            && (outcome == Duplicate ==> h' == h)
            && (outcome.Settled? && outcome.status == Rejected ==> h'.store == h.store)
            && (outcome.Settled? && outcome.status == Reserved <==>
                  !OnRecord(h.orders, channel, order.id) && AllKnown(cat, order.lines)
                    && Covered(cat, h.store.levels, order.lines))
  {
    ReserveSucceedsExactlyWhen(cat, h.store, order.lines, Tag(order.id));
    var h' := Ingest(cat, h, channel, order).0;
    if !OnRecord(h.orders, channel, order.id) {
      assert h'.orders[|h.orders|].order.id == order.id;
    }
  }

  /** What the channel is told of a settled order. */
  predicate Agrees(row: OrderRow, status: Status, ack: string) {
    && row.status == status
    && (ack == "confirmed" <==> row.status == Reserved)
    && (ack == "cancelled" <==> row.status == Rejected)
  }

  /**
   A redelivery is answered as such and changes nothing.  A new order gets one row, and the answer agrees with it:
   confirmed and reserved exactly when every SKU is known and covered, else cancelled and rejected.
   */
  lemma AnsweredExactlyAs(cat: Catalog, h: Hub, channel: ChannelId, order: Order)
    requires cat.Valid() && AllSound(h.store.levels)
    ensures var (h', outcome) := Ingest(cat, h, channel, order);
            if OnRecord(h.orders, channel, order.id) then h' == h && outcome == Duplicate
            else
              && outcome.Settled? && |h'.orders| == |h.orders| + 1 && h.orders <= h'.orders
              && var row := h'.orders[|h.orders|];
                 && row.channel == channel && row.order == order && Agrees(row, outcome.status, outcome.ack)
                 && (row.status == Reserved <==>
                       AllKnown(cat, order.lines) && Covered(cat, h.store.levels, order.lines))
                 && (row.status == Reserved || row.status == Rejected)
  {
    ReserveSucceedsExactlyWhen(cat, h.store, order.lines, Tag(order.id));
  }

  // ---------------------------------------------------------------- runs of deliveries and stock operations

  datatype HubOp =
    | Deliver(channel: ChannelId, order: Order)
    | Stock(op: Op)

  const EMPTY_TABLES := Hub(Store(map[], [], []), [])

  function PerformHub(cat: Catalog, h: Hub, op: HubOp): Hub
    requires cat.Valid()
  {
    match op
    case Deliver(channel, order) => Ingest(cat, h, channel, order).0
    case Stock(op) => Hub(Perform(cat, h.store, op), h.orders)
  }

  function RunHub(cat: Catalog, h: Hub, ops: seq<HubOp>): Hub
    requires cat.Valid()
  {
    if ops == [] then h else PerformHub(cat, RunHub(cat, h, ops[..|ops| - 1]), ops[|ops| - 1])
  }

  predicate Delivered(ops: seq<HubOp>, channel: ChannelId, id: OrderId) {
    exists i :: 0 <= i < |ops| && ops[i].Deliver? && ops[i].channel == channel && ops[i].order.id == id
  }

  /** The run without the redeliveries. */
  function FirstDeliveries(ops: seq<HubOp>): seq<HubOp> {
    if ops == [] then []
    else
      var prior, last := ops[..|ops| - 1], ops[|ops| - 1];
      if last.Deliver? && Delivered(prior, last.channel, last.order.id) then FirstDeliveries(prior)
      else FirstDeliveries(prior) + [last]
  }

  lemma PerformKeepsSound(cat: Catalog, s: Store, op: Op)
    requires AllSound(s.levels)
    ensures AllSound(Perform(cat, s, op).levels)
  {
  }

  /** Exactly the delivered orders are on record. */
  lemma {:induction false} DeliveredAreOnRecord(cat: Catalog, h: Hub, ops: seq<HubOp>)
    requires cat.Valid() && AllSound(h.store.levels)
    ensures AllSound(RunHub(cat, h, ops).store.levels)
    ensures forall channel, id :: OnRecord(RunHub(cat, h, ops).orders, channel, id) <==>
                                  OnRecord(h.orders, channel, id) || Delivered(ops, channel, id)
  {
    if ops != [] {
      var prior, last := ops[..|ops| - 1], ops[|ops| - 1];
      var mid := RunHub(cat, h, prior);
      DeliveredAreOnRecord(cat, h, prior);
      match last {
        case Deliver(channel, order) => DeliveryIsSettled(cat, mid, channel, order);
        case Stock(op) => PerformKeepsSound(cat, mid.store, op);
      }
      var end := PerformHub(cat, mid, last);
      forall channel, id
        ensures OnRecord(end.orders, channel, id) <==> OnRecord(h.orders, channel, id) || Delivered(ops, channel, id)
      {
        OneMoreOnRecord(cat, mid, last, channel, id);
        OneMoreDelivered(ops, channel, id);
      }
    }
  }

  lemma OneMoreDelivered(ops: seq<HubOp>, channel: ChannelId, id: OrderId)
    requires ops != []
    ensures var last := ops[|ops| - 1];
            Delivered(ops, channel, id) <==>
            Delivered(ops[..|ops| - 1], channel, id)
              || (last.Deliver? && last.channel == channel && last.order.id == id)
  {
    var prior := ops[..|ops| - 1];
    if Delivered(prior, channel, id) {
      var i :| 0 <= i < |prior| && prior[i].Deliver? && prior[i].channel == channel && prior[i].order.id == id;
      assert ops[i] == prior[i];
    }
    if Delivered(ops, channel, id) {
      var i :| 0 <= i < |ops| && ops[i].Deliver? && ops[i].channel == channel && ops[i].order.id == id;
      assert i < |prior| ==> prior[i] == ops[i];
    }
  }

  lemma OneMoreOnRecord(cat: Catalog, h: Hub, op: HubOp, channel: ChannelId, id: OrderId)
    requires cat.Valid() && AllSound(h.store.levels)
    ensures OnRecord(PerformHub(cat, h, op).orders, channel, id) <==>
            OnRecord(h.orders, channel, id) || (op.Deliver? && op.channel == channel && op.order.id == id)
  {
    var h' := PerformHub(cat, h, op);
    if op.Deliver? {
      DeliveryIsSettled(cat, h, op.channel, op.order);
    }
    if OnRecord(h.orders, channel, id) {
      var i :| 0 <= i < |h.orders| && h.orders[i].channel == channel && h.orders[i].order.id == id;
      assert h'.orders[i] == h.orders[i];
    }
  }

  /** Redeliveries, wherever they fall among the other operations, change nothing anywhere. */
  lemma {:induction false} RedeliveriesAreInvisible(cat: Catalog, h: Hub, ops: seq<HubOp>)
    requires cat.Valid() && AllSound(h.store.levels)
    ensures RunHub(cat, h, ops) == RunHub(cat, h, FirstDeliveries(ops))
  {
    if ops != [] {
      var prior, last := ops[..|ops| - 1], ops[|ops| - 1];
      RedeliveriesAreInvisible(cat, h, prior);
      if last.Deliver? && Delivered(prior, last.channel, last.order.id) {
        DeliveredAreOnRecord(cat, h, prior);
      } else {
        var kept := FirstDeliveries(prior) + [last];
        assert kept[..|kept| - 1] == FirstDeliveries(prior);
      }
    }
  }

  /** Whatever happens later, an order on record keeps its row, status included, and no row stays `Received`. */
  lemma {:induction false} SettledStatusIsFinal(cat: Catalog, h: Hub, ops: seq<HubOp>)
    requires cat.Valid() && AllSound(h.store.levels)
    requires forall row <- h.orders :: row.status != Received
    ensures h.orders <= RunHub(cat, h, ops).orders
    ensures forall row <- RunHub(cat, h, ops).orders :: row.status != Received
  {
    if ops != [] {
      SettledStatusIsFinal(cat, h, ops[..|ops| - 1]);
    }
  }

  // ---------------------------------------------------------------- what the channels are told

  /** One acknowledgement sent to a channel; a redelivery gets none. */
  datatype Receipt = Receipt(channel: ChannelId, id: OrderId, status: Status, ack: string)

  /** All acknowledgements of a run, in order. */
  function Receipts(cat: Catalog, h: Hub, ops: seq<HubOp>): seq<Receipt>
    requires cat.Valid()
  {
    if ops == [] then []
    else
      var prior, last := ops[..|ops| - 1], ops[|ops| - 1];
      Receipts(cat, h, prior)
        + match last
          case Stock(_) => []
          case Deliver(channel, order) =>
            match Ingest(cat, RunHub(cat, h, prior), channel, order).1
            case Settled(status, ack) => [Receipt(channel, order.id, status, ack)]
            case _ => []
  }

  predicate AnswersRow(a: Receipt, row: OrderRow) {
    a.channel == row.channel && a.id == row.order.id && Agrees(row, a.status, a.ack)
  }

  /** UNIQUE(channel, order id). */
  predicate UniqueRows(orders: seq<OrderRow>) {
    forall i, j :: 0 <= i < j < |orders| ==> !(orders[i].channel == orders[j].channel
                                               && orders[i].order.id == orders[j].order.id)
  }

  lemma DeliveryIsAnswered(cat: Catalog, h: Hub, answers: seq<Receipt>, channel: ChannelId, order: Order)
    requires cat.Valid() && AllSound(h.store.levels) && UniqueRows(h.orders)
    requires |answers| == |h.orders| && forall i :: 0 <= i < |answers| ==> AnswersRow(answers[i], h.orders[i])
    ensures var (h', outcome) := Ingest(cat, h, channel, order);
            var answers' := answers + match outcome
                                      case Settled(status, ack) => [Receipt(channel, order.id, status, ack)]
                                      case _ => [];
            && UniqueRows(h'.orders) && |answers'| == |h'.orders|
            && forall i :: 0 <= i < |answers'| ==> AnswersRow(answers'[i], h'.orders[i])
  {
    AnsweredExactlyAs(cat, h, channel, order);
    var (h', outcome) := Ingest(cat, h, channel, order);
    if outcome.Settled? {
      var answer := Receipt(channel, order.id, outcome.status, outcome.ack);
      assert AnswersRow(answer, h'.orders[|h.orders|]);
    }
  }

  /** In every run the acknowledgements are, one by one and in order, those of the rows on record at the end. */
  lemma {:induction false} EveryAnswerAgrees(cat: Catalog, ops: seq<HubOp>)
    requires cat.Valid()
    ensures var answers, orders := Receipts(cat, EMPTY_TABLES, ops), RunHub(cat, EMPTY_TABLES, ops).orders;
            && |answers| == |orders| && UniqueRows(orders)
            && forall i :: 0 <= i < |answers| ==> AnswersRow(answers[i], orders[i])
  {
    if ops != [] {
      var prior, last := ops[..|ops| - 1], ops[|ops| - 1];
      EveryAnswerAgrees(cat, prior);
      DeliveredAreOnRecord(cat, EMPTY_TABLES, prior);
      var answers, h := Receipts(cat, EMPTY_TABLES, prior), RunHub(cat, EMPTY_TABLES, prior);
      assert answers + [] == answers;
      if last.Deliver? {
        DeliveryIsAnswered(cat, h, answers, last.channel, last.order);
      }
    }
  }

  /** However often it is delivered, an order that was delivered is acknowledged exactly once, and no other is. */
  lemma AnsweredExactlyOnce(cat: Catalog, ops: seq<HubOp>, channel: ChannelId, id: OrderId)
    requires cat.Valid()
    ensures var answers := Receipts(cat, EMPTY_TABLES, ops);
            && (Delivered(ops, channel, id) <==>
                  exists i :: 0 <= i < |answers| && answers[i].channel == channel && answers[i].id == id)
            && (forall i, j :: 0 <= i < j < |answers| ==>
                  !(answers[i].channel == answers[j].channel && answers[i].id == answers[j].id))
  {
    var answers, orders := Receipts(cat, EMPTY_TABLES, ops), RunHub(cat, EMPTY_TABLES, ops).orders;
    EveryAnswerAgrees(cat, ops);
    DeliveredAreOnRecord(cat, EMPTY_TABLES, ops);
    assert forall i :: 0 <= i < |answers| ==> AnswersRow(answers[i], orders[i]);
    assert OnRecord(orders, channel, id) <==> Delivered(ops, channel, id);
    if OnRecord(orders, channel, id) {
      var i :| 0 <= i < |orders| && orders[i].channel == channel && orders[i].order.id == id;
      assert AnswersRow(answers[i], orders[i]);
    }
  }

  // ---------------------------------------------------------------- the journal books exactly the reserved orders

  /** The units of `v` in the reserved orders with this id. */
  function Promised(cat: Catalog, orders: seq<OrderRow>, id: OrderId, v: VariantId): nat {
    if orders == [] then 0
    else
      var last := orders[|orders| - 1];
      Promised(cat, orders[..|orders| - 1], id, v)
        + if last.order.id == id && last.status == Reserved then Need(cat, last.order.lines, v) else 0
  }

  /** The units a stock operation of another origin books under the same reference: the API accepts any. */
  function OpUnits(cat: Catalog, s: Store, op: Op, tag: string, v: VariantId): int {
    match op
    case DoMove(m, expected) =>
      if m.reference == Some(tag) && m.row.variant == v && Move(cat, s, m, expected).Ok? then m.qty else 0
    case DoTransfer(w, from, to, qty, reference) =>
      if reference == Some(tag) && w == v && Transfer(cat, s, w, from, to, qty, reference).Ok? then 2 * qty else 0
  }

  /** All such units of a run. */
  function OtherUnits(cat: Catalog, h: Hub, ops: seq<HubOp>, tag: string, v: VariantId): int
    requires cat.Valid()
  {
    if ops == [] then 0
    else
      var prior, last := ops[..|ops| - 1], ops[|ops| - 1];
      OtherUnits(cat, h, prior, tag, v)
        + if last.Stock? then OpUnits(cat, RunHub(cat, h, prior).store, last.op, tag, v) else 0
  }

  predicate Untagged(op: HubOp, tag: string) {
    op.Stock? ==> match op.op
                  case DoMove(m, _) => m.reference != Some(tag)
                  case DoTransfer(_, _, _, _, reference) => reference != Some(tag)
  }

  lemma {:induction false} NoOtherUnits(cat: Catalog, h: Hub, ops: seq<HubOp>, tag: string, v: VariantId)
    requires cat.Valid() && forall op <- ops :: Untagged(op, tag)
    ensures OtherUnits(cat, h, ops, tag, v) == 0
  {
    if ops != [] {
      var n := |ops| - 1;
      assert Untagged(ops[n], tag) && forall op <- ops[..n] :: op in ops;
      NoOtherUnits(cat, h, ops[..n], tag, v);
    }
  }

  lemma TagsDiffer(a: OrderId, b: OrderId)
    requires Tag(a) == Tag(b)
    ensures a == b
  {
    var n := |"channel-order:"|;
    assert Tag(a)[n..] == a && Tag(b)[n..] == b;
  }

  lemma MoveBooksItsUnits(cat: Catalog, s: Store, m: Movement, expected: Option<nat>, tag: string, v: VariantId)
    ensures Move(cat, s, m, expected).Ok? ==>
              Tagged(Move(cat, s, m, expected).value.journal, tag, v)
              == Tagged(s.journal, tag, v) + if m.reference == Some(tag) && m.row.variant == v then m.qty else 0
  {
    TaggedSnoc(s.journal, m, tag, v);
  }

  lemma TransferBooksItsUnits(cat: Catalog, s: Store, w: VariantId, from: WarehouseId, to: WarehouseId, qty: int,
      reference: Option<string>, tag: string, v: VariantId)
    ensures Transfer(cat, s, w, from, to, qty, reference).Ok? ==>
              Tagged(Transfer(cat, s, w, from, to, qty, reference).value.journal, tag, v)
              == Tagged(s.journal, tag, v) + if reference == Some(tag) && w == v then 2 * qty else 0
  {
    var debit := Debited(cat, s, w, from, to, qty, reference);
    if debit.Ok? {
      MoveBooksItsUnits(cat, s, Movement(Row(w, from), Out, qty, reference), None, tag, v);
      MoveBooksItsUnits(cat, debit.value, Movement(Row(w, to), In, qty, reference), None, tag, v);
    }
  }

  lemma OpBooksItsUnits(cat: Catalog, s: Store, op: Op, tag: string, v: VariantId)
    ensures Tagged(Perform(cat, s, op).journal, tag, v) == Tagged(s.journal, tag, v) + OpUnits(cat, s, op, tag, v)
  {
    match op
    case DoMove(m, expected) => MoveBooksItsUnits(cat, s, m, expected, tag, v);
    case DoTransfer(w, from, to, qty, reference) => TransferBooksItsUnits(cat, s, w, from, to, qty, reference, tag, v);
  }

  /** A delivery books what it promises, and nothing under another reference. */
  lemma DeliveryBooksItsOrder(cat: Catalog, h: Hub, channel: ChannelId, order: Order, id: OrderId, v: VariantId)
    requires cat.Valid() && AllSound(h.store.levels)
    ensures var h' := Ingest(cat, h, channel, order).0;
            Tagged(h'.store.journal, Tag(id), v) - Tagged(h.store.journal, Tag(id), v)
            == Promised(cat, h'.orders, id, v) - Promised(cat, h.orders, id, v)
  {
    var h' := Ingest(cat, h, channel, order).0;
    ReserveSucceedsExactlyWhen(cat, h.store, order.lines, Tag(order.id));
    if order.id != id && Tag(order.id) == Tag(id) { TagsDiffer(order.id, id); }
    assert h'.orders != h.orders ==> h'.orders[..|h'.orders| - 1] == h.orders;
  }

  /**
   In every run the units of a variant booked under an order's reference are exactly the positive quantities of the
   reserved orders with that id, and whatever movements of other origin carry the same reference; a rejected order has
   none of them.
   */
  lemma {:induction false} JournalBooksTheReservedOrders(cat: Catalog, ops: seq<HubOp>, id: OrderId, v: VariantId)
    requires cat.Valid()
    ensures var h := RunHub(cat, EMPTY_TABLES, ops);
            Tagged(h.store.journal, Tag(id), v)
              == Promised(cat, h.orders, id, v) + OtherUnits(cat, EMPTY_TABLES, ops, Tag(id), v)
  {
    if ops != [] {
      var prior, last := ops[..|ops| - 1], ops[|ops| - 1];
      JournalBooksTheReservedOrders(cat, prior, id, v);
      var h := RunHub(cat, EMPTY_TABLES, prior);
      DeliveredAreOnRecord(cat, EMPTY_TABLES, prior);
      match last {
        case Stock(op) => OpBooksItsUnits(cat, h.store, op, Tag(id), v);
        case Deliver(channel, order) => DeliveryBooksItsOrder(cat, h, channel, order, id, v);
      }
    }
  }

  lemma {:induction false} PromisedByOneRow(cat: Catalog, orders: seq<OrderRow>, k: nat, v: VariantId)
    requires k < |orders|
    requires forall i :: 0 <= i < |orders| && i != k ==> orders[i].order.id != orders[k].order.id
    ensures Promised(cat, orders, orders[k].order.id, v)
            == if orders[k].status == Reserved then Need(cat, orders[k].order.lines, v) else 0
  {
    var prior := orders[..|orders| - 1];
    if k < |prior| {
      PromisedByOneRow(cat, prior, k, v);
    } else {
      PromisedByNone(cat, prior, orders[k].order.id, v);
    }
  }

  lemma {:induction false} PromisedByNone(cat: Catalog, orders: seq<OrderRow>, id: OrderId, v: VariantId)
    requires forall row <- orders :: row.order.id != id
    ensures Promised(cat, orders, id, v) == 0
  {
    if orders != [] { PromisedByNone(cat, orders[..|orders| - 1], id, v); }
  }

  /** All rows are of one channel, and no order id occurs twice. */
  predicate OneChannel(orders: seq<OrderRow>, channel: ChannelId) {
    && (forall row <- orders :: row.channel == channel)
    && (forall i, j :: 0 <= i < j < |orders| ==> orders[i].order.id != orders[j].order.id)
  }

  /** Deliveries of one channel leave one row per order id. */
  lemma {:induction false} OneChannelKeepsIdsApart(cat: Catalog, ops: seq<HubOp>, channel: ChannelId)
    requires cat.Valid() && forall op <- ops :: op.Deliver? ==> op.channel == channel
    ensures OneChannel(RunHub(cat, EMPTY_TABLES, ops).orders, channel)
  {
    if ops != [] {
      var n := |ops| - 1;
      assert ops[n] in ops && forall op <- ops[..n] :: op in ops;
      OneChannelKeepsIdsApart(cat, ops[..n], channel);
      DeliveredAreOnRecord(cat, EMPTY_TABLES, ops[..n]);
      var h := RunHub(cat, EMPTY_TABLES, ops[..n]);
      if ops[n].Deliver? { DeliveryKeepsIdsApart(cat, h, channel, ops[n].order); }
    }
  }

  lemma DeliveryKeepsIdsApart(cat: Catalog, h: Hub, channel: ChannelId, order: Order)
    requires cat.Valid() && AllSound(h.store.levels) && OneChannel(h.orders, channel)
    ensures OneChannel(Ingest(cat, h, channel, order).0.orders, channel)
  {
    assert forall i :: 0 <= i < |h.orders| ==> h.orders[i] in h.orders;
  }

  /**
   In any run whose deliveries all come from one channel a reserved order is booked in full and a rejected one not at
   all, beside whatever movements of other origin carry the same reference.
   */
  lemma OneChannelBooksEachOrder(cat: Catalog, ops: seq<HubOp>, channel: ChannelId, k: nat, v: VariantId)
    requires cat.Valid() && forall op <- ops :: op.Deliver? ==> op.channel == channel
    requires k < |RunHub(cat, EMPTY_TABLES, ops).orders|
    ensures var h := RunHub(cat, EMPTY_TABLES, ops);
            Tagged(h.store.journal, "channel-order:" + h.orders[k].order.id, v)
            == (if h.orders[k].status == Reserved then Need(cat, h.orders[k].order.lines, v) else 0)
               + OtherUnits(cat, EMPTY_TABLES, ops, Tag(h.orders[k].order.id), v)
  {
    var orders := RunHub(cat, EMPTY_TABLES, ops).orders;
    OneChannelKeepsIdsApart(cat, ops, channel);
    JournalBooksTheReservedOrders(cat, ops, orders[k].order.id, v);
    PromisedByOneRow(cat, orders, k, v);
  }
}
