/**
 Stock levels and the movement journal.

 A level changes only by a movement.  Every movement appends one journal row and one
 outbox event in the transaction that changes the level.
 */
module Inventory {
  import opened Results

  type VariantId = nat
  type WarehouseId = nat
  type Sku = string

  datatype Kind = In | Out | Reserve | Unreserve | Adjust

  datatype Row = Row(variant: VariantId, warehouse: WarehouseId)

  datatype Level = Level(qty: int, reserved: int, version: nat) {
    /** The database CHECK constraints on an inventory row. */
    predicate Sound() {
      0 <= reserved <= qty
    }

    function Available(): int {
      qty - reserved
    }
  }

  /** The row a first movement inserts before its effect is computed. */
  const EMPTY := Level(0, 0, 0)

  datatype Movement = Movement(row: Row, kind: Kind, qty: int, reference: Option<string>)

  datatype Event =
    | MovementApplied(row: Row, kind: Kind, qty: int, level: Level)
    | ProductCreated(name: string)
    | VariantAdded(variant: VariantId)

  datatype Warehouse = Warehouse(id: WarehouseId, online: bool)

  /** The tenant's variants and warehouses; the warehouse table is listed in id order. */
  datatype Catalog = Catalog(skus: map<Sku, VariantId>, variants: set<VariantId>, warehouses: seq<Warehouse>) {
    predicate Valid() {
      && (forall sku <- skus :: skus[sku] in variants)
      && (forall a <- skus, b <- skus :: skus[a] == skus[b] ==> a == b)
      && (forall i, j :: 0 <= i < j < |warehouses| ==> warehouses[i].id < warehouses[j].id)
    }

    predicate HasWarehouse(w: WarehouseId) {
      exists i :: 0 <= i < |warehouses| && warehouses[i].id == w
    }
  }

  /** The tables one business transaction writes. */
  datatype Store = Store(levels: map<Row, Level>, journal: seq<Movement>, outbox: seq<Event>)

  // ---------------------------------------------------------------- one movement

  /** The new (quantity, reserved) pair, or the refusal that prevents an oversell. */
  function Effect(kind: Kind, qty: int, onHand: int, reserved: int): Result<(int, int)> {
    var available := onHand - reserved;
    match kind
    case In => Ok((onHand + qty, reserved))
    case Out => if qty > available then Err(Conflict) else Ok((onHand - qty, reserved))
    case Reserve => if qty > available then Err(Conflict) else Ok((onHand, reserved + qty))
    case Unreserve => if qty > reserved then Err(Validation) else Ok((onHand, reserved - qty))
    case Adjust => if onHand + qty < reserved then Err(Validation) else Ok((onHand + qty, reserved))
  }

  /** The guard, then the version bump, then the CHECK constraints at flush. */
  function Apply(level: Level, kind: Kind, qty: int): (r: Result<Level>)
    ensures r.Ok? ==> r.value.Sound() && r.value.version == level.version + 1
  {
    match Effect(kind, qty, level.qty, level.reserved)
    case Err(e) => Err(e)
    case Ok((q, res)) => if 0 <= res <= q then Ok(Level(q, res, level.version + 1)) else Err(Integrity)
  }

  /**
   A movement judged on the level `seen` while the stored one is `stored`: the flush writes the columns the movement
   changed, and the refresh reads the others back.
   */
  function Merged(seen: Level, stored: Level, kind: Kind, qty: int): Level
    requires Effect(kind, qty, seen.qty, seen.reserved).Ok?
  {
    var (q, res) := Effect(kind, qty, seen.qty, seen.reserved).value;
    Level(if q == seen.qty then stored.qty else q, if res
      == seen.reserved then stored.reserved else res, seen.version + 1)
  }

  /** What every caller passes: only an adjustment is signed. */
  predicate Signed(kind: Kind, qty: int) {
    kind != Adjust ==> qty > 0
  }

  /** On a sound level the guard alone decides: the CHECK constraints are never what refuses a movement. */
  lemma GuardSubsumesCheck(level: Level, kind: Kind, qty: int)
    requires level.Sound() && Signed(kind, qty)
    ensures Apply(level, kind, qty).Err? <==>
            match kind
            case In => false
            case Out => qty > level.Available()
            case Reserve => qty > level.Available()
            case Unreserve => qty > level.reserved
            case Adjust => qty < -level.Available()
    ensures Apply(level, kind, qty) != Err(Integrity)
  {
  }

  /** Whatever the sign, the CHECK refuses exactly what the guard wrongly lets through. */
  lemma CheckRefusesExactlyWhen(level: Level, kind: Kind, qty: int)
    requires level.Sound()
    ensures Apply(level, kind, qty) == Err(Integrity) <==>
            match kind
            case In => level.qty + qty < level.reserved
            case Reserve => level.reserved + qty < 0
            case Unreserve => level.reserved - qty > level.qty
            case _ => false
  {
  }

  /** The store after a movement that was accepted. */
  function Posted(s: Store, m: Movement, level: Level): Store {
    Store(s.levels[m.row := level], s.journal + [m], s.outbox + [MovementApplied(m.row, m.kind, m.qty, level)])
  }

  /** A whole movement: the lookups, the first-create rule, the optimistic lock, then the effect. */
  function Move(cat: Catalog, s: Store, m: Movement, expected: Option<nat>): Result<Store> {
    if m.row.variant !in cat.variants then Err(NotFound)
    else if !cat.HasWarehouse(m.row.warehouse) then Err(NotFound)
    else if m.row !in s.levels && m.kind != In && m.kind != Adjust then Err(Validation)
    else
      var level := if m.row in s.levels then s.levels[m.row] else EMPTY;
      if expected.Some? && expected.value != level.version then Err(Conflict)
      else match Apply(level, m.kind, m.qty)
           case Err(e) => Err(e)
           case Ok(level') => Ok(Posted(s, m, level'))
  }

  /** The level a movement of `row` is judged on: that of an empty row if there is none yet. */
  function LevelAt(s: Store, row: Row): Level {
    if row in s.levels then s.levels[row] else Level(0, 0, 0)
  }

  /** What a level can take, kind by kind and whatever the sign. */
  predicate Fits(level: Level, kind: Kind, qty: int) {
    match kind
    case In => level.qty + qty >= level.reserved
    case Out => qty <= level.Available()
    case Reserve => -level.reserved <= qty <= level.Available()
    case Unreserve => -level.Available() <= qty <= level.reserved
    case Adjust => level.qty + qty >= level.reserved
  }

  /** The variant and the warehouse exist, and so does the row unless the movement may make it. */
  predicate Placed(cat: Catalog, s: Store, m: Movement) {
    && m.row.variant in cat.variants && cat.HasWarehouse(m.row.warehouse)
    && (m.row in s.levels || m.kind.In? || m.kind.Adjust?)
  }

  /** The caller expected another version than the row's; a new row has version 0. */
  predicate Stale(s: Store, row: Row, expected: Option<nat>) {
    expected.Some? && expected.value != LevelAt(s, row).version
  }

  /** On a sound level: whether the effect is computed at all, and which error refuses it. */
  lemma AppliesExactlyWhen(level: Level, kind: Kind, qty: int)
    requires level.Sound()
    ensures var r := Apply(level, kind, qty);
            && (r.Ok? <==> Fits(level, kind, qty))
            && (r == Err(Conflict) <==> (kind.Out? || kind.Reserve?) && qty > level.Available())
            && (r == Err(Integrity) <==> !Fits(level, kind, qty) && qty < 0 && !kind.Out? && !kind.Adjust?)
            && r != Err(NotFound)
  {
  }

  /** A movement is accepted exactly when it has its place, is not stale and fits; else which error it raises. */
  lemma MoveSucceedsExactlyWhen(cat: Catalog, s: Store, m: Movement, expected: Option<nat>)
    requires LevelAt(s, m.row).Sound()
    ensures var r, level := Move(cat, s, m, expected), LevelAt(s, m.row);
            var judged := Placed(cat, s, m) && !Stale(s, m.row, expected);
            && (r.Ok? <==> judged && Fits(level, m.kind, m.qty))
            && (r == Err(NotFound) <==> m.row.variant !in cat.variants || !cat.HasWarehouse(m.row.warehouse))
            && (r == Err(Conflict) <==>
                  || (Placed(cat, s, m) && Stale(s, m.row, expected))
                  || (judged && (m.kind.Out? || m.kind.Reserve?) && m.qty > level.Available()))
            && (r == Err(Integrity) <==>
                  judged && !Fits(level, m.kind, m.qty) && m.qty < 0 && !m.kind.Out? && !m.kind.Adjust?)
  {
    AppliesExactlyWhen(LevelAt(s, m.row), m.kind, m.qty);
  }

  /** What an accepted movement leaves: the row's new level, one journal entry and one event, and nothing else. */
  lemma MoveLeaves(cat: Catalog, s: Store, m: Movement, expected: Option<nat>)
    requires Move(cat, s, m, expected).Ok?
    ensures var s', level := Move(cat, s, m, expected).value, LevelAt(s, m.row);
            && s'.levels.Keys == s.levels.Keys + {m.row}
            && (forall row <- s.levels :: row != m.row ==> s'.levels[row] == s.levels[row])
            && s'.levels[m.row].qty
               == level.qty + (if m.kind in {In, Adjust} then m.qty else if m.kind == Out then -m.qty else 0)
            && s'.levels[m.row].reserved
               == level.reserved + (if m.kind == Reserve then m.qty else if m.kind == Unreserve then -m.qty else 0)
            && s'.levels[m.row].version == level.version + 1
            && s'.journal == s.journal + [m]
            && s'.outbox == s.outbox + [MovementApplied(m.row, m.kind, m.qty, s'.levels[m.row])]
  {
  }

  /** The first half of a transfer: the destination is checked before the source is debited. */
  function Debited(cat: Catalog, s: Store, v: VariantId, from: WarehouseId, to: WarehouseId, qty: int,
                   reference: Option<string>): Result<Store> {
    if qty <= 0 then Err(Validation)
    else if from == to then Err(Validation)
    else if !cat.HasWarehouse(to) then Err(NotFound)
    else Move(cat, s, Movement(Row(v, from), Out, qty, reference), None)
  }

  /** Two movements in one transaction. */
  function Transfer(cat: Catalog, s: Store, v: VariantId, from: WarehouseId, to: WarehouseId, qty: int,
                    reference: Option<string>): Result<Store> {
    match Debited(cat, s, v, from, to, qty, reference)
    case Err(e) => Err(e)
    case Ok(s') => Move(cat, s', Movement(Row(v, to), In, qty, reference), None)
  }

  // ---------------------------------------------------------------- the session

  /** One open transaction on the hub's tables. */
  class Session {
    var catalog: Catalog
    var levels: map<Row, Level>
    var journal: seq<Movement>
    var outbox: seq<Event>

    constructor (catalog: Catalog, s: Store)
      ensures this.catalog == catalog && Contents() == s
    {
      this.catalog := catalog;
      levels, journal, outbox := s.levels, s.journal, s.outbox;
    }

    ghost function Contents(): Store
      reads this
    {
      Store(levels, journal, outbox)
    }

    function Snapshot(): (s: Store)
      reads this
      ensures s == Contents()
    {
      Store(levels, journal, outbox)
    }

    /** ROLLBACK TO SAVEPOINT, for a savepoint taken when the tables held `saved`. */
    method RollbackTo(saved: Store)
      modifies this`levels, this`journal, this`outbox
      ensures Contents() == saved
    {
      levels, journal, outbox := saved.levels, saved.journal, saved.outbox;
    }

    method HasWarehouse(w: WarehouseId) returns (found: bool)
      ensures found <==> catalog.HasWarehouse(w)
    {
      found := false;
      for i := 0 to |catalog.warehouses|
        invariant found <==> exists k :: 0 <= k < i && catalog.warehouses[k].id == w
      {
        if catalog.warehouses[i].id == w { found := true; }
      }
    }

    /** A refused movement may leave the empty row it inserted behind; the caller's rollback removes it. */
    method ApplyMovement(m: Movement, expected: Option<nat>) returns (r: Result<Level>)
      modifies this`levels, this`journal, this`outbox
      ensures match Move(catalog, old(Contents()), m, expected)
              case Ok(s) => Contents() == s && m.row in levels && r == Ok(levels[m.row])
              case Err(e) => r == Err(e) && journal == old(journal) && outbox == old(outbox) &&
                             (levels == old(levels)
                              || (m.row !in old(levels) && m.kind in {In, Adjust}
                                  && levels == old(levels)[m.row := EMPTY]))
    {
      if m.row.variant !in catalog.variants { return Err(NotFound); }
      var found := HasWarehouse(m.row.warehouse);
      if !found { return Err(NotFound); }
      if m.row !in levels {
        if m.kind != In && m.kind != Adjust { return Err(Validation); }
        levels := levels[m.row := EMPTY];
      }
      var inv := levels[m.row];
      if expected.Some? && expected.value != inv.version { return Err(Conflict); }
      r := Apply(inv, m.kind, m.qty);
      if r.Ok? {
        levels := levels[m.row := r.value];
        journal := journal + [m];
        outbox := outbox + [MovementApplied(m.row, m.kind, m.qty, r.value)];
        assert levels == old(levels)[m.row := r.value];
      }
    }

    method TransferStock(v: VariantId, from: WarehouseId, to: WarehouseId, qty: int, reference: Option<string>)
      returns (r: Result<(Level, Level)>)
      modifies this`levels, this`journal, this`outbox
      ensures match Transfer(catalog, old(Contents()), v, from, to, qty, reference)
              case Ok(s) => Contents() == s && Row(v, from) in levels && Row(v, to) in levels &&
                            r == Ok((levels[Row(v, from)], levels[Row(v, to)]))
              case Err(e) =>
                && r == Err(e)
                && match Debited(catalog, old(Contents()), v, from, to, qty, reference)
                   case Err(_) => Contents() == old(Contents())
                   case Ok(s) =>
                     && journal == s.journal && outbox == s.outbox
                     && levels - {Row(v, to)} == s.levels - {Row(v, to)}
    {
      if qty <= 0 { return Err(Validation); }
      if from == to { return Err(Validation); }
      var found := HasWarehouse(to);
      if !found { return Err(NotFound); }
      var source := ApplyMovement(Movement(Row(v, from), Out, qty, reference), None);
      if source.Err? { return Err(source.error); }
      var destination := ApplyMovement(Movement(Row(v, to), In, qty, reference), None);
      if destination.Err? { return Err(destination.error); }
      return Ok((source.value, destination.value));
    }
  }

  // ---------------------------------------------------------------- the journal explains every level

  /** The level a row reaches when the journal is replayed from the empty row. */
  function Replay(journal: seq<Movement>, row: Row): Result<Level> {
    if journal == [] then Ok(EMPTY)
    else
      var m := journal[|journal| - 1];
      var before := Replay(journal[..|journal| - 1], row);
      if before.Err? || m.row != row then before else Apply(before.value, m.kind, m.qty)
  }

  /** The number of journal rows of `row`. */
  function Entries(journal: seq<Movement>, row: Row): nat {
    if journal == [] then 0
    else
      var m := journal[|journal| - 1];
      Entries(journal[..|journal| - 1], row) + if m.row == row then 1 else 0
  }

  /** The total quantity of the `kind` movements of `row`. */
  function Moved(journal: seq<Movement>, row: Row, kind: Kind): int {
    if journal == [] then 0
    else
      var m := journal[|journal| - 1];
      Moved(journal[..|journal| - 1], row, kind) + if m.row == row && m.kind == kind then m.qty else 0
  }

  /** The level carried by the newest event of `row`. */
  function Newest(outbox: seq<Event>, row: Row): Option<Level> {
    if outbox == [] then None
    else
      var e := outbox[|outbox| - 1];
      if e.MovementApplied? && e.row == row then Some(e.level) else Newest(outbox[..|outbox| - 1], row)
  }

  /** Every row is sound, is the replay of its journal, and is what its newest event announced. */
  ghost predicate Explained(s: Store) {
    forall row ::
      if row in s.levels then
        s.levels[row].Sound() && Replay(s.journal, row) == Ok(s.levels[row])
          && Newest(s.outbox, row) == Some(s.levels[row])
      else
        Replay(s.journal, row) == Ok(EMPTY) && Entries(s.journal, row) == 0
  }

  /** The closed form of a replay, kind by kind. */
  lemma {:induction false} ReplayClosedForm(journal: seq<Movement>, row: Row)
    requires Replay(journal, row).Ok?
    ensures var level := Replay(journal, row).value;
            && level.qty == Moved(journal, row, In) - Moved(journal, row, Out) + Moved(journal, row, Adjust)
            && level.reserved == Moved(journal, row, Reserve) - Moved(journal, row, Unreserve)
            && level.version == Entries(journal, row)
  {
    if journal != [] {
      ReplayClosedForm(journal[..|journal| - 1], row);
    }
  }

  lemma MoveKeepsExplained(cat: Catalog, s: Store, m: Movement, expected: Option<nat>)
    requires Explained(s) && Move(cat, s, m, expected).Ok?
    ensures Explained(Move(cat, s, m, expected).value)
  {
    var s' := Move(cat, s, m, expected).value;
    assert s'.journal[..|s'.journal| - 1] == s.journal;
    assert s'.outbox[..|s'.outbox| - 1] == s.outbox;
  }

  // ---------------------------------------------------------------- transfers

  lemma OutSucceedsExactlyWhen(cat: Catalog, s: Store, m: Movement)
    requires m.kind == Out && m.qty > 0 && (m.row in s.levels ==> s.levels[m.row].Sound())
    ensures Move(cat, s, m, None).Ok? <==>
            && m.row.variant in cat.variants && cat.HasWarehouse(m.row.warehouse)
            && m.row in s.levels && m.qty <= s.levels[m.row].Available()
    ensures Move(cat, s, m, None).Ok? ==> forall row :: row != m.row ==>
              (row in Move(cat, s, m, None).value.levels <==> row in s.levels)
              && (row in s.levels ==> Move(cat, s, m, None).value.levels[row] == s.levels[row])
  {
  }

  lemma InSucceedsExactlyWhen(cat: Catalog, s: Store, m: Movement)
    requires m.kind == In && m.qty > 0 && (m.row in s.levels ==> s.levels[m.row].Sound())
    ensures Move(cat, s, m, None).Ok? <==> m.row.variant in cat.variants && cat.HasWarehouse(m.row.warehouse)
  {
  }

  /** A transfer goes through exactly when the source row covers it; else which error it raises. */
  lemma TransferSucceedsExactlyWhen(cat: Catalog, s: Store, v: VariantId, from: WarehouseId, to: WarehouseId, qty: int,
                                    reference: Option<string>)
    requires Explained(s)
    ensures Transfer(cat, s, v, from, to, qty, reference).Ok? <==>
            && qty > 0 && from != to && v in cat.variants && cat.HasWarehouse(from) && cat.HasWarehouse(to)
            && Row(v, from) in s.levels && qty <= s.levels[Row(v, from)].Available()
    ensures Transfer(cat, s, v, from, to, qty, reference) == Err(NotFound) <==>
            qty > 0 && from != to && !(v in cat.variants && cat.HasWarehouse(from) && cat.HasWarehouse(to))
    ensures Transfer(cat, s, v, from, to, qty, reference) == Err(Conflict) <==>
            && qty > 0 && from != to && v in cat.variants && cat.HasWarehouse(from) && cat.HasWarehouse(to)
            && Row(v, from) in s.levels && qty > s.levels[Row(v, from)].Available()
    ensures Transfer(cat, s, v, from, to, qty, reference) != Err(Integrity)
  {
    assert Row(v, from) in s.levels ==> s.levels[Row(v, from)].Sound();
    assert Row(v, to) in s.levels ==> s.levels[Row(v, to)].Sound();
    if qty > 0 && from != to {
      var out := Movement(Row(v, from), Out, qty, reference);
      OutSucceedsExactlyWhen(cat, s, out);
      if Move(cat, s, out, None).Ok? {
        InSucceedsExactlyWhen(cat, Move(cat, s, out, None).value, Movement(Row(v, to), In, qty, reference));
      }
    }
  }

  /** The total quantity of a variant over a list of warehouses. */
  function TotalQty(levels: map<Row, Level>, v: VariantId, ws: seq<WarehouseId>): int {
    if ws == [] then 0
    else (if Row(v, ws[0]) in levels then levels[Row(v, ws[0])].qty else 0) + TotalQty(levels, v, ws[1..])
  }

  function TotalReserved(levels: map<Row, Level>, v: VariantId, ws: seq<WarehouseId>): int {
    if ws == [] then 0
    else (if Row(v, ws[0]) in levels then levels[Row(v, ws[0])].reserved else 0) + TotalReserved(levels, v, ws[1..])
  }

  predicate Distinct(ws: seq<WarehouseId>) {
    forall i, j :: 0 <= i < j < |ws| ==> ws[i] != ws[j]
  }

  /** A change of one row shifts the totals by that row's change and no more. */
  lemma {:induction false} TotalsAfterUpdate(levels: map<Row, Level>, row: Row, level: Level, v: VariantId,
      ws: seq<WarehouseId>)
    requires Distinct(ws)
    ensures var was := if row in levels then levels[row] else EMPTY;
            var hit := v == row.variant && row.warehouse in ws;
            && TotalQty(levels[row := level], v, ws)
               == TotalQty(levels, v, ws) + (if hit then level.qty - was.qty else 0)
            && TotalReserved(levels[row := level], v, ws)
               == TotalReserved(levels, v, ws) + (if hit then level.reserved - was.reserved else 0)
  {
    if ws != [] {
      TotalsAfterUpdate(levels, row, level, v, ws[1..]);
      assert ws == [ws[0]] + ws[1..];
      assert row.warehouse in ws <==> row.warehouse == ws[0] || row.warehouse in ws[1..];
    }
  }

  /** A transfer creates and loses nothing: any list of warehouses holding both ends keeps its totals. */
  lemma TransferConserves(cat: Catalog, s: Store, v: VariantId, from: WarehouseId, to: WarehouseId, qty: int,
                          reference: Option<string>, u: VariantId, ws: seq<WarehouseId>)
    requires Transfer(cat, s, v, from, to, qty, reference).Ok?
    requires Distinct(ws) && from in ws && to in ws
    ensures var s' := Transfer(cat, s, v, from, to, qty, reference).value;
            && TotalQty(s'.levels, u, ws) == TotalQty(s.levels, u, ws)
            && TotalReserved(s'.levels, u, ws) == TotalReserved(s.levels, u, ws)
            && Row(v, from) in s'.levels && Row(v, to) in s'.levels
            && s'.levels[Row(v, from)].qty == s.levels[Row(v, from)].qty - qty
            && (forall row <- s'.levels :: row != Row(v, from) && row != Row(v, to) ==>
                  row in s.levels && s'.levels[row] == s.levels[row])
            && |s'.outbox| == |s.outbox| + 2
  {
    var m1 := Movement(Row(v, from), Out, qty, reference);
    var m2 := Movement(Row(v, to), In, qty, reference);
    var s1 := Move(cat, s, m1, None).value;
    var s2 := Move(cat, s1, m2, None).value;
    TotalsAfterUpdate(s.levels, m1.row, s1.levels[m1.row], u, ws);
    TotalsAfterUpdate(s1.levels, m2.row, s2.levels[m2.row], u, ws);
  }

  // ---------------------------------------------------------------- runs

  /** One business transaction; a refusal rolls the transaction back. */
  datatype Op =
    | DoMove(m: Movement, expected: Option<nat>)
    | DoTransfer(v: VariantId, from: WarehouseId, to: WarehouseId, qty: int, reference: Option<string>)

  function Perform(cat: Catalog, s: Store, op: Op): Store {
    var r := match op
      case DoMove(m, expected) => Move(cat, s, m, expected)
      case DoTransfer(v, from, to, qty, reference) => Transfer(cat, s, v, from, to, qty, reference);
    if r.Ok? then r.value else s
  }

  function PerformAll(cat: Catalog, s: Store, ops: seq<Op>): Store {
    if ops == [] then s else Perform(cat, PerformAll(cat, s, ops[..|ops| - 1]), ops[|ops| - 1])
  }

  lemma PerformKeepsExplained(cat: Catalog, s: Store, op: Op)
    requires Explained(s)
    ensures Explained(Perform(cat, s, op))
  {
    match op
    case DoMove(m, expected) =>
      if Move(cat, s, m, expected).Ok? { MoveKeepsExplained(cat, s, m, expected); }
    case DoTransfer(v, from, to, qty, reference) =>
      if Transfer(cat, s, v, from, to, qty, reference).Ok? {
        var m1 := Movement(Row(v, from), Out, qty, reference);
        MoveKeepsExplained(cat, s, m1, None);
        MoveKeepsExplained(cat, Move(cat, s, m1, None).value, Movement(Row(v, to), In, qty, reference), None);
      }
  }

  // ---------------------------------------------------------------- the optimistic lock

  lemma {:induction false} EntriesGrow(journal: seq<Movement>, later: seq<Movement>, row: Row)
    requires journal <= later
    ensures Entries(journal, row) <= Entries(later, row)
    decreases |later|
  {
    if |journal| < |later| {
      EntriesGrow(journal, later[..|later| - 1], row);
    } else {
      assert journal == later;
    }
  }

  /**
   Of two movements of a row that name the same expected version at most one is accepted: once `m` is, `n` is refused
   as stale in every later state, whatever wrote the journal in between.
   */
  lemma OptimisticLock(cat: Catalog, s: Store, m: Movement, later: Store, n: Movement, version: nat)
    requires Explained(s) && Move(cat, s, m, Some(version)).Ok?
    requires Explained(later) && Move(cat, s, m, Some(version)).value.journal <= later.journal
    requires n.row == m.row
    ensures Move(cat, later, n, Some(version)) == Err(Conflict)
  {
    var s' := Move(cat, s, m, Some(version)).value;
    MoveKeepsExplained(cat, s, m, Some(version));
    MoveLeaves(cat, s, m, Some(version));
    ReplayClosedForm(s'.journal, m.row);
    EntriesGrow(s'.journal, later.journal, m.row);
    ReplayClosedForm(later.journal, m.row);
  }

  lemma {:induction false} JournalGrows(cat: Catalog, s: Store, ops: seq<Op>, n: nat)
    requires n <= |ops|
    ensures PerformAll(cat, s, ops[..n]).journal <= PerformAll(cat, s, ops).journal
  {
    if n < |ops| {
      JournalGrows(cat, s, ops[..|ops| - 1], n);
      assert ops[..|ops| - 1][..n] == ops[..n];
    } else {
      assert ops[..n] == ops;
    }
  }

  lemma {:induction false} PerformAllKeepsExplained(cat: Catalog, s: Store, ops: seq<Op>)
    requires Explained(s)
    ensures Explained(PerformAll(cat, s, ops))
  {
    if ops != [] {
      PerformAllKeepsExplained(cat, s, ops[..|ops| - 1]);
      PerformKeepsExplained(cat, PerformAll(cat, s, ops[..|ops| - 1]), ops[|ops| - 1]);
    }
  }

  /** In a run, a movement that names the version an earlier accepted one named is refused as stale. */
  lemma SecondWriterIsRefused(cat: Catalog, s: Store, ops: seq<Op>, i: nat, j: nat)
    requires Explained(s) && i < j < |ops| && ops[i].DoMove? && ops[j].DoMove?
    requires ops[i].m.row == ops[j].m.row && ops[i].expected == ops[j].expected && ops[i].expected.Some?
    requires Move(cat, PerformAll(cat, s, ops[..i]), ops[i].m, ops[i].expected).Ok?
    ensures Move(cat, PerformAll(cat, s, ops[..j]), ops[j].m, ops[j].expected) == Err(Conflict)
  {
    assert ops[..i + 1][..i] == ops[..i] && ops[..j][..i + 1] == ops[..i + 1];
    PerformAllKeepsExplained(cat, s, ops[..i]);
    PerformAllKeepsExplained(cat, s, ops[..j]);
    JournalGrows(cat, s, ops[..j], i + 1);
    OptimisticLock(cat, PerformAll(cat, s, ops[..i]), ops[i].m, PerformAll(cat, s, ops[..j]), ops[j].m,
      ops[i].expected.value);
  }

  /** From an empty hub, every run leaves every level sound and equal to its journal, in fold and in closed form. */
  lemma EveryRunIsExplained(cat: Catalog, ops: seq<Op>)
    ensures var s := PerformAll(cat, Store(map[], [], []), ops);
            && Explained(s)
            && forall row <- s.levels ::
                 && s.levels[row].qty == Moved(s.journal, row, In) - Moved(s.journal, row, Out)
                    + Moved(s.journal, row, Adjust)
                 && s.levels[row].reserved == Moved(s.journal, row, Reserve) - Moved(s.journal, row, Unreserve)
                 && s.levels[row].version == Entries(s.journal, row)
  {
    var s := PerformAll(cat, Store(map[], [], []), ops);
    PerformAllKeepsExplained(cat, Store(map[], [], []), ops);
    forall row <- s.levels
      ensures && s.levels[row].qty
              == Moved(s.journal, row, In) - Moved(s.journal, row, Out) + Moved(s.journal, row, Adjust)
              && s.levels[row].reserved == Moved(s.journal, row, Reserve) - Moved(s.journal, row, Unreserve)
              && s.levels[row].version == Entries(s.journal, row)
    {
      ReplayClosedForm(s.journal, row);
    }
  }
}
