/** The channel-agnostic view of a variant: aggregated online stock, resolved price. */
module Canonical {
  import opened Results
  import opened Inventory
  import opened OrderIngest

  /** An inventory row of one variant, as a query returns it. */
  datatype StockRow = StockRow(warehouse: WarehouseId, qty: int, reserved: int)

  /** The snapshot pushed to a channel; `stock` is never negative. */
  datatype Product = Product(sku: Sku, stock: nat, price: int, currency: string)

  /** (quantity, reserved) summed over the rows in online warehouses. */
  function SumOnline(rows: seq<StockRow>, online: set<WarehouseId>): (int, int) {
    if rows == [] then (0, 0)
    else
      var (q, r) := SumOnline(rows[..|rows| - 1], online);
      var row := rows[|rows| - 1];
      if row.warehouse in online then (q + row.qty, r + row.reserved) else (q, r)
  }

  method AggregateOnlineStock(rows: seq<StockRow>, online: set<WarehouseId>) returns (qty: int, reserved: int)
    ensures (qty, reserved) == SumOnline(rows, online)
  {
    qty, reserved := 0, 0;
    for i := 0 to |rows|
      invariant (qty, reserved) == SumOnline(rows[..i], online)
    {
      assert rows[..i + 1][..i] == rows[..i];
      if rows[i].warehouse in online {
        qty := qty + rows[i].qty;
        reserved := reserved + rows[i].reserved;
      }
    }
    assert rows[..|rows|] == rows;
  }

  /** The sellable figure of a snapshot. */
  function Sellable(qty: int, reserved: int): nat {
    Max(qty - reserved, 0)
  }

  /** The variant's rows, warehouse by warehouse. */
  function RowsOf(levels: map<Row, Level>, v: VariantId, ws: seq<Warehouse>): seq<StockRow> {
    if ws == [] then []
    else
      var n := |ws| - 1;
      var row := Row(v, ws[n].id);
      RowsOf(levels, v, ws[..n])
        + if row in levels then [StockRow(ws[n].id, levels[row].qty, levels[row].reserved)] else []
  }

  function OnlineSet(ws: seq<Warehouse>): set<WarehouseId> {
    set w <- ws | w.online :: w.id
  }

  /** What the hub offers of a variant online. */
  function HubStock(cat: Catalog, levels: map<Row, Level>, v: VariantId): nat {
    var (q, r) := SumOnline(RowsOf(levels, v, cat.warehouses), OnlineSet(cat.warehouses));
    Sellable(q, r)
  }

  lemma {:induction false} SumsOverWarehouses(levels: map<Row, Level>, v: VariantId, ws: seq<Warehouse>,
      online: set<WarehouseId>)
    requires forall w <- ws :: w.id in online <==> w.online
    ensures SumOnline(RowsOf(levels, v, ws), online).0 - SumOnline(RowsOf(levels, v, ws), online).1
            == TotalAvail(levels, v, Online(ws))
  {
    if ws != [] {
      var n := |ws| - 1;
      var w := ws[n];
      SumsOverWarehouses(levels, v, ws[..n], online);
      OnlineSnoc(ws[..n], w);
      assert ws == ws[..n] + [w];
      TotalAvailConcat(levels, v, Online(ws[..n]), if w.online then [w.id] else []);
      var rows := RowsOf(levels, v, ws);
      if Row(v, w.id) in levels {
        assert rows[..|rows| - 1] == RowsOf(levels, v, ws[..n]);
      } else {
        assert rows == RowsOf(levels, v, ws[..n]);
      }
    }
  }

  lemma {:induction false} OnlineSnoc(ws: seq<Warehouse>, w: Warehouse)
    ensures Online(ws + [w]) == Online(ws) + (if w.online then [w.id] else [])
  {
    if ws != [] {
      OnlineSnoc(ws[1..], w);
      assert (ws + [w])[1..] == ws[1..] + [w];
    }
  }

  lemma {:induction false} TotalAvailConcat(levels: map<Row, Level>, v: VariantId, a: seq<WarehouseId>,
      b: seq<WarehouseId>)
    ensures TotalAvail(levels, v, a + b) == TotalAvail(levels, v, a) + TotalAvail(levels, v, b)
  {
    if a == [] {
      assert a + b == b;
    } else {
      TotalAvailConcat(levels, v, a[1..], b);
      assert (a + b)[1..] == a[1..] + b;
    }
  }

  /** The figure offered online is exactly what an order can still reserve. */
  lemma OfferedIsReservable(cat: Catalog, levels: map<Row, Level>, v: VariantId)
    requires cat.Valid() && AllSound(levels)
    ensures HubStock(cat, levels, v) == TotalAvail(levels, v, Online(cat.warehouses))
  {
    forall w <- cat.warehouses ensures w.id in OnlineSet(cat.warehouses) <==> w.online {
    }
    SumsOverWarehouses(levels, v, cat.warehouses, OnlineSet(cat.warehouses));
    TotalAvailNonNegative(levels, v, Online(cat.warehouses));
  }
}
