/**
 * The session-backed cart.  The dict stored under the cart's session key is an
 * object (LineTable) because the cart and the session share it: the cart
 * updates the very dict the session will save, and clearing the session drops
 * the session's reference while the cart object keeps its own.
 */
module SessionCart {
  import opened Wrappers
  import opened Catalog
  import opened CartLines

  /** The dict under the cart's session key: lines keyed by product id, and the order their keys were inserted in. */
  class LineTable {
    var order: seq<nat>
    var entries: map<nat, Line>

    ghost predicate Valid()
      reads this
    {
      TableValid(order, entries)
    }

    constructor ()
      ensures Valid() && order == [] && entries == map[]
    {
      order := [];
      entries := map[];
    }

    /** `self.cart.values()`. */
    function Values(): seq<Line>
      reads this
      requires Valid()
    {
      ValuesOf(order, entries)
    }

    /** `self.cart[id] = line`: a new key goes after the existing ones. */
    method Put(id: nat, line: Line)
      requires Valid()
      modifies this
      ensures Valid()
      ensures entries == old(entries)[id := line]
      ensures order == AddedOrder(old(order), old(entries), id)
    {
      SumAfterPut(order, entries, id, line, Qty);
      if id !in entries {
        order := order + [id];
      }
      entries := entries[id := line];
    }

    /**
     * The dict part of `add`: insert a zero-quantity line with the product's
     * current price when the key is missing, then set or raise its quantity.
     */
    method AddLine(p: Product, quantity: int, overrideQuantity: bool)
      requires Valid()
      modifies this
      ensures Valid()
      ensures entries == Added(old(entries), p, quantity, overrideQuantity)
      ensures order == AddedOrder(old(order), old(entries), p.id)
    {
      ghost var order0, entries0 := order, entries;
      var id := p.id;
      if id !in entries {
        Put(id, NewLine(p));
      }
      ghost var order1 := order;
      assert order1 == AddedOrder(order0, entries0, id);
      var line := entries[id];
      if overrideQuantity {
        line := line.(quantity := quantity);
      } else {
        line := line.(quantity := line.quantity + quantity);
      }
      assert Added(entries0, p, quantity, overrideQuantity) == entries0[id := line];
      Put(id, line);
      assert order == order1;
      assert entries == entries0[id := line] by {
        assert entries.Keys == entries0.Keys + {id};
        forall k | k in entries ensures entries[k] == entries0[id := line][k] {}
      }
    }

    /** The first loop of `__iter__`: each catalog product found for a key is written into that key's line. */
    method AttachProducts(catalog: map<nat, Product>, found: set<nat>)
      requires Valid()
      requires found == catalog.Keys * entries.Keys
      modifies this
      ensures Valid() && order == old(order) && entries.Keys == old(entries.Keys)
      ensures forall k :: k in entries ==> entries[k] == Attached(old(entries[k]), k, catalog)
    {
      ghost var before := entries;
      var todo := found;
      while todo != {}
        invariant todo <= found
        invariant order == old(order) && entries.Keys == before.Keys
        invariant forall k :: k in entries ==>
          entries[k] == if k in found - todo then Attached(before[k], k, catalog) else before[k]
        decreases todo
      {
        var id :| id in todo;
        entries := entries[id := entries[id].(product := Some(catalog[id]))];
        todo := todo - {id};
      }
    }

    /** The second loop of `__iter__`: each line, in order, gets its total written and is yielded. */
    method WriteTotals() returns (items: seq<Line>)
      requires Valid()
      modifies this
      ensures Valid() && order == old(order) && entries.Keys == old(entries.Keys)
      ensures forall k :: k in entries ==>
        entries[k] == old(entries[k]).(totalPrice := Some(old(entries[k]).price * old(entries[k]).quantity))
      ensures items == Values()
    {
      ghost var before := entries;
      items := [];
      for i := 0 to |order|
        invariant order == old(order) && entries.Keys == before.Keys
        invariant forall k :: k in entries ==>
          entries[k] == if k in order[..i] then before[k].(totalPrice := Some(before[k].price * before[k].quantity)) else before[k]
        invariant |items| == i
        invariant forall j :: 0 <= j < i ==> items[j] == entries[order[j]]
      {
        var id := order[i];
        var line := entries[id];
        line := line.(totalPrice := Some(line.price * line.quantity));
        entries := entries[id := line];
        items := items + [line];
      }
    }
  }

  /**
   * A user's session as far as the cart is concerned: the dict under the
   * cart's key (null while the key is absent) and the flag that makes the
   * framework write the session back.
   */
  class Session {
    var stored: LineTable?
    var modified: bool

    constructor (stored: LineTable?)
      ensures this.stored == stored && !modified
    {
      this.stored := stored;
      modified := false;
    }
  }

  class Cart {
    const session: Session
    /** `self.cart`: the dict that was under the session key when this cart was built. */
    const table: LineTable

    ghost predicate Valid()
      reads this, table
    {
      table.Valid()
    }

    /**
     * A missing or empty stored cart is replaced by a new empty dict stored
     * under the key (assigning a session key marks the session modified);
     * otherwise the stored dict itself is used, unchanged.
     */
    constructor (session: Session)
      requires session.stored != null ==> session.stored.Valid()
      modifies session
      ensures Valid() && this.session == session && session.stored == table
      ensures old(session.stored) == null || old(session.stored.entries) == map[] ==>
        fresh(table) && table.entries == map[] && table.order == [] && session.modified
      ensures old(session.stored) != null && old(session.stored.entries) != map[] ==>
        table == old(session.stored) && session.modified == old(session.modified)
    {
      var stored := session.stored;
      if stored == null || stored.entries == map[] {
        stored := new LineTable();
        session.stored := stored;
        session.modified := true;
      }
      this.session := session;
      this.table := stored;
    }

    /** `len(cart)`: the number of items, each line counted by its quantity, not the number of lines. */
    function Len(): (n: int)
      reads this, table
      requires Valid()
      ensures AllPositive(table.entries) ==> n >= |table.entries|
      ensures table.entries == map[] ==> n == 0
    {
      var n := Sum(table.Values(), Qty);
      assert AllPositive(table.entries) ==> n >= |table.entries| by {
        if AllPositive(table.entries) {
          TableSize(table.order, table.entries);
          CountAtLeastLines(table.Values());
        }
      }
      n
    }

    /** `get_total_price()`, exactly in cents: price snapshot times quantity, summed over the lines. */
    function TotalPrice(): (total: int)
      reads this, table
      requires Valid()
      ensures table.entries == map[] ==> total == 0
      ensures (forall k :: k in table.entries ==> table.entries[k].price >= 0 && table.entries[k].quantity >= 0) ==> total >= 0
    {
      var total := Sum(table.Values(), Cost);
      assert (forall k :: k in table.entries ==> table.entries[k].price >= 0 && table.entries[k].quantity >= 0) ==> total >= 0 by {
        if forall k :: k in table.entries ==> table.entries[k].price >= 0 && table.entries[k].quantity >= 0 {
          var vs := table.Values();
          forall i | 0 <= i < |vs| ensures Cost(vs[i]) >= 0 {
            assert vs[i] == table.entries[table.order[i]];
          }
          SumNonNegative(vs, Cost);
        }
      }
      total
    }

    /** `save()`: mark the session modified so that it is written back. */
    method Save()
      modifies session`modified
      ensures session.modified
    {
      session.modified := true;
    }

    /**
     * `add(product, quantity=1, override_quantity=False)`.  The key is
     * `str(product.id)`; as `str` is injective on ids (Numerals.StrInjective)
     * the model keys by the id itself.
     */
    method Add(p: Product, quantity: int := 1, overrideQuantity: bool := false)
      requires Valid()
      modifies table, session`modified
      ensures Valid()
      ensures table.entries == Added(old(table.entries), p, quantity, overrideQuantity)
      ensures table.order == AddedOrder(old(table.order), old(table.entries), p.id)
      ensures session.modified
      ensures !overrideQuantity ==> Len() == old(Len()) + quantity
      ensures !overrideQuantity ==> TotalPrice() == old(TotalPrice()) + quantity * Snapshot(old(table.entries), p)
    {
      AddIsAdditive(table.order, table.entries, p, quantity);
      table.AddLine(p, quantity, overrideQuantity);
      Save();
    }

    /** `remove(product)`: delete the product's line if there is one; mark the session modified either way. */
    method Remove(p: Product)
      requires Valid()
      modifies table, session`modified
      ensures Valid()
      ensures table.entries == old(table.entries) - {p.id}
      ensures table.order == Without(old(table.order), p.id)
      ensures session.modified
      ensures Len() == old(Len()) - (if p.id in old(table.entries) then old(table.entries[p.id].quantity) else 0)
      ensures TotalPrice() == old(TotalPrice()) - (if p.id in old(table.entries) then Cost(old(table.entries[p.id])) else 0)
    {
      SumAfterDelete(table.order, table.entries, p.id, Qty);
      SumAfterDelete(table.order, table.entries, p.id, Cost);
      var id := p.id;
      if id in table.entries {
        table.entries := table.entries - {id};
        table.order := Without(table.order, id);
      } else {
        WithoutAbsent(table.order, id);
        assert table.entries - {id} == table.entries;
      }
      Save();
    }

    /**
     * `__iter__`, run to the end.  The ids in the cart are looked up in the
     * catalog; the shallow copy shares the stored line dicts, so the found
     * product and the line's total are written into the stored lines.  Every
     * line is yielded, including a line whose product the catalog no longer has.
     */
    method Iterate(catalog: map<nat, Product>) returns (items: seq<Line>)
      requires Valid()
      requires CatalogKeyed(catalog)
      modifies table
      ensures Valid()
      ensures table.order == old(table.order) && table.entries.Keys == old(table.entries.Keys)
      ensures forall k :: k in table.entries ==> table.entries[k] == Enriched(old(table.entries[k]), k, catalog)
      ensures items == table.Values()
      ensures forall i :: 0 <= i < |items| ==> items[i].totalPrice == Some(items[i].price * items[i].quantity)
      ensures Len() == old(Len()) && TotalPrice() == old(TotalPrice())
      ensures Sum(items, ItemTotal) == TotalPrice()
    {
      ghost var before := table.entries;
      // Product.objects.filter(id__in=self.cart.keys())
      var found := catalog.Keys * table.entries.Keys;
      table.AttachProducts(catalog, found);
      items := table.WriteTotals();
      EnrichKeepsSums(table.order, before, table.entries, catalog);
    }

    /**
     * `clear()`: delete the session key (a `KeyError` when it is already
     * gone, reported as `keyError`) and mark the session modified.  This
     * cart's own lines are left as they were.
     */
    method Clear() returns (keyError: bool)
      modifies session
      ensures keyError == (old(session.stored) == null)
      ensures keyError ==> session.stored == old(session.stored) && session.modified == old(session.modified)
      ensures !keyError ==> session.stored == null && session.modified
    {
      if session.stored == null {
        return true;
      }
      session.stored := null;
      keyError := false;
      Save();
    }
  }
}
