/**
 * The dict a cart keeps in the session, as a value: its lines keyed by product
 * id, the insertion order of those keys, and the sums the cart reports.
 * The classes in SessionCart update these values in place.
 */
module CartLines {
  import opened Wrappers
  import opened Catalog

  /**
   * One stored line: `{'quantity': q, 'price': str(price)}`, plus the
   * `product` and `total_price` entries that iterating the cart writes into it.
   * The price snapshot is held as the exact number of cents.
   */
  datatype Line = Line(quantity: int, price: int, product: Option<Product>, totalPrice: Option<int>)

  /** The line `add` inserts for a product not yet in the cart. */
  function NewLine(p: Product): Line {
    Line(0, p.price, None, None)
  }

  function Qty(l: Line): int {
    l.quantity
  }

  function Cost(l: Line): int {
    l.price * l.quantity
  }

  /** The `total_price` iteration wrote into a line; a line never iterated has none. */
  function ItemTotal(l: Line): int {
    if l.totalPrice.Some? then l.totalPrice.value else 0
  }

  /** `sum(w(item) for item in lines)`. */
  function Sum(ls: seq<Line>, w: Line -> int): int {
    if ls == [] then 0 else w(ls[0]) + Sum(ls[1..], w)
  }

  predicate Distinct(s: seq<nat>) {
    forall i, j :: 0 <= i < j < |s| ==> s[i] != s[j]
  }

  /** `order` lists every key of `lines` exactly once: the dict's insertion order. */
  predicate TableValid(order: seq<nat>, lines: map<nat, Line>) {
    && Distinct(order)
    && (forall k :: k in lines ==> k in order)
    && (forall k :: k in order ==> k in lines)
  }

  /** `lines.values()`, in insertion order. */
  function ValuesOf(order: seq<nat>, lines: map<nat, Line>): seq<Line>
    requires forall k :: k in order ==> k in lines
  {
    seq(|order|, i requires 0 <= i < |order| => lines[order[i]])
  }

  /** The price of a product's line after `add`: the stored snapshot if there is one, else the product's price now. */
  function Snapshot(lines: map<nat, Line>, p: Product): int {
    if p.id in lines then lines[p.id].price else p.price
  }

  /**
   * `add(p, q, override)` on the stored lines: a missing line is inserted with
   * quantity 0 and the product's current price, then its quantity is set to
   * `q` or increased by `q`.
   */
  function Added(lines: map<nat, Line>, p: Product, q: int, overrideQuantity: bool): (r: map<nat, Line>)
    ensures r.Keys == lines.Keys + {p.id}
    ensures r[p.id].price == Snapshot(lines, p)
    ensures overrideQuantity ==> r[p.id].quantity == q
  {
    var line := if p.id in lines then lines[p.id] else NewLine(p);
    lines[p.id := line.(quantity := if overrideQuantity then q else line.quantity + q)]
  }

  /** The key order after `add`: a new key goes last. */
  function AddedOrder(order: seq<nat>, lines: map<nat, Line>, id: nat): (r: seq<nat>)
    ensures |r| == |order| + (if id in lines then 0 else 1)
    ensures r[..|order|] == order
    ensures id !in lines ==> r[|order|] == id
  {
    if id in lines then order else order + [id]
  }

  /** The key order after `del lines[id]`: the other keys keep their order. */
  function Without(order: seq<nat>, id: nat): (r: seq<nat>)
    ensures forall k :: k in r <==> k in order && k != id
  {
    if order == [] then [] else (if order[0] == id then [] else [order[0]]) + Without(order[1..], id)
  }

  /** The line iteration attaches the catalog product to, when the catalog has one. */
  function Attached(l: Line, id: nat, catalog: map<nat, Product>): (r: Line)
    ensures r.quantity == l.quantity && r.price == l.price && r.totalPrice == l.totalPrice
    ensures id in catalog ==> r.product == Some(catalog[id])
    ensures id !in catalog ==> r.product == l.product
  {
    if id in catalog then l.(product := Some(catalog[id])) else l
  }

  /** A stored line after iteration: product attached, price times quantity written as its total. */
  function Enriched(l: Line, id: nat, catalog: map<nat, Product>): (r: Line)
    ensures r.quantity == l.quantity && r.price == l.price
    ensures r.totalPrice == Some(Cost(l))
    ensures r.product == Attached(l, id, catalog).product
  {
    var a := Attached(l, id, catalog);
    a.(totalPrice := Some(a.price * a.quantity))
  }

  /** No line holds zero or fewer items. */
  predicate AllPositive(lines: map<nat, Line>) {
    forall k :: k in lines ==> lines[k].quantity >= 1
  }

  // ---------------------------------------------------------------------------
  // Sums

  lemma {:induction false} SumAppend(ls: seq<Line>, l: Line, w: Line -> int)
    ensures Sum(ls + [l], w) == Sum(ls, w) + w(l)
  {
    if ls != [] {
      assert (ls + [l])[1..] == ls[1..] + [l];
      SumAppend(ls[1..], l, w);
    }
  }

  lemma {:induction false} SumReplace(ls: seq<Line>, i: nat, l: Line, w: Line -> int)
    requires i < |ls|
    ensures Sum(ls[i := l], w) == Sum(ls, w) - w(ls[i]) + w(l)
  {
    if i > 0 {
      assert ls[i := l][1..] == ls[1..][i - 1 := l];
      SumReplace(ls[1..], i - 1, l, w);
    }
  }

  /** Two sequences whose elements weigh the same one by one have the same sum. */
  lemma {:induction false} SumPointwise(xs: seq<Line>, ys: seq<Line>, v: Line -> int, w: Line -> int)
    requires |xs| == |ys|
    requires forall i :: 0 <= i < |xs| ==> v(xs[i]) == w(ys[i])
    ensures Sum(xs, v) == Sum(ys, w)
  {
    if xs != [] {
      SumPointwise(xs[1..], ys[1..], v, w);
    }
  }

  /** A sum of weights that are never negative is not negative. */
  lemma {:induction false} SumNonNegative(ls: seq<Line>, w: Line -> int)
    requires forall i :: 0 <= i < |ls| ==> w(ls[i]) >= 0
    ensures Sum(ls, w) >= 0
  {
    if ls != [] {
      SumNonNegative(ls[1..], w);
    }
  }

  /** With every quantity at least 1, the item count is at least the number of lines. */
  lemma {:induction false} CountAtLeastLines(ls: seq<Line>)
    requires forall i :: 0 <= i < |ls| ==> ls[i].quantity >= 1
    ensures Sum(ls, Qty) >= |ls|
  {
    if ls != [] {
      CountAtLeastLines(ls[1..]);
    }
  }

  /** The keys an order lists. */
  function KeySet(s: seq<nat>): set<nat> {
    set x | x in s
  }

  lemma {:induction false} DistinctCard(s: seq<nat>)
    requires Distinct(s)
    ensures |KeySet(s)| == |s|
  {
    if s != [] {
      DistinctCard(s[1..]);
      assert s[0] !in KeySet(s[1..]);
      assert KeySet(s) == KeySet(s[1..]) + {s[0]};
    }
  }

  /** A well-formed table has as many lines as its order has keys. */
  lemma TableSize(order: seq<nat>, lines: map<nat, Line>)
    requires TableValid(order, lines)
    ensures |lines| == |order|
  {
    DistinctCard(order);
    assert lines.Keys == KeySet(order);
  }

  /** Storing `v` under `k` (appending `k` if new) moves a sum by `w(v)` minus the weight of the line replaced. */
  lemma SumAfterPut(order: seq<nat>, lines: map<nat, Line>, k: nat, v: Line, w: Line -> int)
    requires TableValid(order, lines)
    ensures TableValid(AddedOrder(order, lines, k), lines[k := v])
    ensures Sum(ValuesOf(AddedOrder(order, lines, k), lines[k := v]), w)
         == Sum(ValuesOf(order, lines), w) - (if k in lines then w(lines[k]) else 0) + w(v)
  {
    if k in lines {
      var i :| 0 <= i < |order| && order[i] == k;
      assert ValuesOf(order, lines[k := v]) == ValuesOf(order, lines)[i := v];
      SumReplace(ValuesOf(order, lines), i, v, w);
    } else {
      assert ValuesOf(order + [k], lines[k := v]) == ValuesOf(order, lines) + [v];
      SumAppend(ValuesOf(order, lines), v, w);
    }
  }

  lemma {:induction false} WithoutAbsent(order: seq<nat>, id: nat)
    requires id !in order
    ensures Without(order, id) == order
  {
    if order != [] {
      WithoutAbsent(order[1..], id);
    }
  }

  lemma {:induction false} WithoutDistinct(order: seq<nat>, id: nat)
    requires Distinct(order)
    ensures Distinct(Without(order, id))
  {
    if order != [] {
      var rest := order[1..];
      assert Distinct(rest);
      assert order[0] !in rest;
      WithoutDistinct(rest, id);
      assert Without(order, id) == (if order[0] == id then [] else [order[0]]) + Without(rest, id);
    }
  }

  /** Dropping `id` from the order removes exactly its weight from the sum. */
  lemma {:induction false} SumWithout(order: seq<nat>, lines: map<nat, Line>, id: nat, w: Line -> int)
    requires Distinct(order)
    requires forall k :: k in order ==> k in lines
    ensures Sum(ValuesOf(Without(order, id), lines), w)
         == Sum(ValuesOf(order, lines), w) - (if id in order then w(lines[id]) else 0)
  {
    if order != [] {
      var rest := order[1..];
      assert ValuesOf(order, lines) == [lines[order[0]]] + ValuesOf(rest, lines);
      SumWithout(rest, lines, id, w);
      assert Sum(ValuesOf(order, lines), w) == w(lines[order[0]]) + Sum(ValuesOf(rest, lines), w);
      if order[0] == id {
        assert id !in rest;
        assert Without(order, id) == Without(rest, id);
      } else {
        assert ValuesOf(Without(order, id), lines) == [lines[order[0]]] + ValuesOf(Without(rest, id), lines);
      }
    }
  }

  /** Removing a line keeps the table well formed and takes exactly that line's weight off a sum. */
  lemma SumAfterDelete(order: seq<nat>, lines: map<nat, Line>, id: nat, w: Line -> int)
    requires TableValid(order, lines)
    ensures TableValid(Without(order, id), lines - {id})
    ensures Sum(ValuesOf(Without(order, id), lines - {id}), w)
         == Sum(ValuesOf(order, lines), w) - (if id in lines then w(lines[id]) else 0)
  {
    WithoutDistinct(order, id);
    SumWithout(order, lines, id, w);
    assert ValuesOf(Without(order, id), lines - {id}) == ValuesOf(Without(order, id), lines);
  }

  // ---------------------------------------------------------------------------
  // What `add` does

  /** Adding a product that is not in the cart creates its line with quantity q and the product's price at that moment. */
  lemma AddNewProduct(lines: map<nat, Line>, p: Product, q: int, overrideQuantity: bool)
    requires p.id !in lines
    ensures Added(lines, p, q, overrideQuantity)[p.id] == Line(q, p.price, None, None)
  {
  }

  /** Adding without override raises the quantity by exactly q and keeps the price snapshot, whatever the product costs now. */
  lemma AddAccumulates(lines: map<nat, Line>, p: Product, q: int)
    requires p.id in lines
    ensures Added(lines, p, q, false)[p.id] == lines[p.id].(quantity := lines[p.id].quantity + q)
  {
  }

  /** Two additions of a product add up: `add(p, a); add(p, b)` is `add(p, a + b)`, so 2 then 3 gives 5. */
  lemma AddTwice(lines: map<nat, Line>, p: Product, a: int, b: int)
    ensures Added(Added(lines, p, a, false), p, b, false) == Added(lines, p, a + b, false)
    ensures p.id !in lines ==> Added(Added(lines, p, 2, false), p, 3, false)[p.id].quantity == 5
  {
  }

  /** With override the quantity becomes q whatever it was; an existing line keeps its snapshot. */
  lemma AddOverride(lines: map<nat, Line>, p: Product, q: int)
    ensures Added(lines, p, q, true)[p.id].quantity == q
    ensures Added(lines, p, q, true)[p.id].price == Snapshot(lines, p)
    ensures forall a, o :: Added(Added(lines, p, a, o), p, q, true) == Added(lines, p, q, true)
  {
  }

  /** `add` touches only the line keyed by the product's id; every other key and line stays as it was. */
  lemma AddFrame(lines: map<nat, Line>, p: Product, q: int, overrideQuantity: bool)
    ensures Added(lines, p, q, overrideQuantity).Keys == lines.Keys + {p.id}
    ensures forall k :: k in lines && k != p.id ==> Added(lines, p, q, overrideQuantity)[k] == lines[k]
  {
  }

  /** `add(p, q)` without override raises `len` by q and the total by q times the line's price snapshot. */
  lemma AddIsAdditive(order: seq<nat>, lines: map<nat, Line>, p: Product, q: int)
    requires TableValid(order, lines)
    ensures TableValid(AddedOrder(order, lines, p.id), Added(lines, p, q, false))
    ensures Sum(ValuesOf(AddedOrder(order, lines, p.id), Added(lines, p, q, false)), Qty)
         == Sum(ValuesOf(order, lines), Qty) + q
    ensures Sum(ValuesOf(AddedOrder(order, lines, p.id), Added(lines, p, q, false)), Cost)
         == Sum(ValuesOf(order, lines), Cost) + q * Snapshot(lines, p)
  {
    var line := if p.id in lines then lines[p.id] else NewLine(p);
    var v := line.(quantity := line.quantity + q);
    assert Added(lines, p, q, false) == lines[p.id := v];
    SumAfterPut(order, lines, p.id, v, Qty);
    SumAfterPut(order, lines, p.id, v, Cost);
    var replaced := if p.id in lines then Cost(lines[p.id]) else 0;
    assert replaced == Cost(line) by {
      if p.id !in lines {
        assert Cost(line) == p.price * 0;
      }
    }
    assert Cost(v) == Cost(line) + q * line.price by {
      assert line.price * (line.quantity + q) == line.price * line.quantity + line.price * q;
    }
  }

  /** Quantities that passed the form (at least 1) never produce a line with zero or fewer items. */
  lemma AddKeepsPositive(lines: map<nat, Line>, p: Product, q: int, overrideQuantity: bool)
    requires AllPositive(lines) && q >= 1
    ensures AllPositive(Added(lines, p, q, overrideQuantity))
  {
  }

  // ---------------------------------------------------------------------------
  // What `remove` does

  /** Removing twice is removing once, for the key order and for the lines. */
  lemma {:induction false} RemoveIdempotent(order: seq<nat>, lines: map<nat, Line>, id: nat)
    ensures Without(Without(order, id), id) == Without(order, id)
    ensures (lines - {id}) - {id} == lines - {id}
  {
    WithoutAbsent(Without(order, id), id);
  }

  // ---------------------------------------------------------------------------
  // What iteration does to the stored lines

  /** Enriching every line changes neither `len` nor the total, and the written totals add up to the total. */
  lemma EnrichKeepsSums(order: seq<nat>, before: map<nat, Line>, after: map<nat, Line>, catalog: map<nat, Product>)
    requires TableValid(order, before)
    requires after.Keys == before.Keys
    requires forall k :: k in before ==> after[k] == Enriched(before[k], k, catalog)
    ensures Sum(ValuesOf(order, after), Qty) == Sum(ValuesOf(order, before), Qty)
    ensures Sum(ValuesOf(order, after), Cost) == Sum(ValuesOf(order, before), Cost)
    ensures Sum(ValuesOf(order, after), ItemTotal) == Sum(ValuesOf(order, before), Cost)
  {
    var xs, ys := ValuesOf(order, after), ValuesOf(order, before);
    assert forall i :: 0 <= i < |xs| ==> xs[i] == Enriched(ys[i], order[i], catalog);
    SumPointwise(xs, ys, Qty, Qty);
    SumPointwise(xs, ys, Cost, Cost);
    SumPointwise(xs, ys, ItemTotal, Cost);
  }

  /** On a line never iterated, iteration attaches a product exactly when the catalog has the id. */
  lemma EnrichAttachesCatalogProducts(l: Line, id: nat, catalog: map<nat, Product>)
    requires l.product == None
    ensures Enriched(l, id, catalog).product.Some? <==> id in catalog
    ensures id in catalog ==> Enriched(l, id, catalog).product == Some(catalog[id])
  {
  }
}
