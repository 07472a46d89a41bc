/** The catalog products the cart refers to and the enriched items that
    `getItems` derives from a catalog and a snapshot of the cart lines. */
module CartItems {
  import opened Errors
  import opened CartLines

  /** A catalog record; prices are whole cents. */
  datatype Product = Product(id: int, name: string, price: int)

  /** `{product, quantity, total}` as `getItems` builds it. */
  datatype Item = Item(product: Product, quantity: int, total: int)

  /** Alphabetical order on names, the `alpha-asc` criterion under which
      the catalog is requested. */
  predicate AlphaLe(a: string, b: string) {
    a == [] || (b != [] && (a[0] < b[0] || (a[0] == b[0] && AlphaLe(a[1..], b[1..]))))
  }

  predicate AlphaSorted(catalog: seq<Product>) {
    forall i, j :: 0 <= i < j < |catalog| ==> AlphaLe(catalog[i].name, catalog[j].name)
  }

  predicate DistinctIds(catalog: seq<Product>) {
    forall i, j :: 0 <= i < j < |catalog| ==> catalog[i].id != catalog[j].id
  }

  predicate ItemsAlphaSorted(items: seq<Item>) {
    forall i, j :: 0 <= i < j < |items| ==> AlphaLe(items[i].product.name, items[j].product.name)
  }

  predicate ItemsDistinct(items: seq<Item>) {
    forall i, j :: 0 <= i < j < |items| ==> items[i].product.id != items[j].product.id
  }

  predicate Listed(catalog: seq<Product>, id: int) {
    exists product :: product in catalog && product.id == id
  }

  /** The join of `getItems`: keep the catalog products that have a cart
      line, in catalog order, and pair each with the quantity of that line
      and `price * quantity`. Lines whose product is not in the catalog
      produce nothing. */
  function Join(catalog: seq<Product>, lines: seq<CartLine>): (items: seq<Item>)
    ensures |items| <= |catalog|
    ensures forall it :: it in items ==>
              && it.product in catalog
              && Find(lines, it.product.id) == Some(CartLine(it.product.id, it.quantity))
              && it.total == it.product.price * it.quantity
  {
    if catalog == [] then []
    else
      var product := catalog[0];
      var rest := Join(catalog[1..], lines);
      match Find(lines, product.id)
      case None => rest
      case Some(line) => [Item(product, line.quantity, product.price * line.quantity)] + rest
  }

  /** The `{productId, quantity}` view of a list of items. */
  function LinesOf(items: seq<Item>): (lines: seq<CartLine>)
    ensures |lines| == |items|
    ensures forall i :: 0 <= i < |items| ==>
              lines[i] == CartLine(items[i].product.id, items[i].quantity)
  {
    if items == [] then [] else [CartLine(items[0].product.id, items[0].quantity)] + LinesOf(items[1..])
  }

  // ---------------------------------------------------------------------
  // Lemmas

  /** A catalog product is enriched exactly when the cart has a line for it. */
  lemma {:induction false} JoinListsEveryProductWithALine(catalog: seq<Product>, lines: seq<CartLine>, product: Product)
    requires product in catalog
    ensures (exists it :: it in Join(catalog, lines) && it.product == product) <==> HasLine(lines, product.id)
  {
    var items := Join(catalog, lines);
    if HasLine(lines, product.id) {
      if catalog[0] == product {
        var line := Find(lines, product.id).value;
        assert items[0] == Item(product, line.quantity, product.price * line.quantity);
      } else {
        JoinListsEveryProductWithALine(catalog[1..], lines, product);
        var it :| it in Join(catalog[1..], lines) && it.product == product;
        assert it in items;
      }
    }
  }

  /** A cart line whose product is missing from the catalog is dropped. */
  lemma JoinDropsUnlisted(catalog: seq<Product>, lines: seq<CartLine>, id: int)
    requires !Listed(catalog, id)
    ensures forall it :: it in Join(catalog, lines) ==> it.product.id != id
  {
  }

  /** `idx` places each item's product in the catalog, at strictly
      increasing positions. */
  predicate AtCatalogPositions(catalog: seq<Product>, items: seq<Item>, idx: seq<int>) {
    && |idx| == |items|
    && (forall k :: 0 <= k < |idx| ==> 0 <= idx[k] < |catalog| && catalog[idx[k]] == items[k].product)
    && (forall k, k' :: 0 <= k < k' < |idx| ==> idx[k] < idx[k'])
  }

  /** The items keep the catalog's relative order: their products occur in
      the catalog at strictly increasing positions. */
  lemma {:induction false} JoinKeepsCatalogOrder(catalog: seq<Product>, lines: seq<CartLine>)
    ensures exists idx :: AtCatalogPositions(catalog, Join(catalog, lines), idx)
  {
    if catalog == [] {
      assert Join(catalog, lines) == [];
      assert AtCatalogPositions(catalog, [], []);
    } else {
      var rest := Join(catalog[1..], lines);
      JoinKeepsCatalogOrder(catalog[1..], lines);
      var inTail :| AtCatalogPositions(catalog[1..], rest, inTail);
      var shifted := ShiftPositions(catalog, rest, inTail);
      var items := Join(catalog, lines);
      match Find(lines, catalog[0].id)
      case None =>
        assert items == rest;
      case Some(line) =>
        var item := Item(catalog[0], line.quantity, catalog[0].price * line.quantity);
        assert items == [item] + rest;
        ConsPosition(catalog, item, rest, shifted);
    }
  }

  /** Positions in the catalog's tail, moved up by one, are positions in
      the whole catalog. */
  lemma {:induction false} ShiftPositions(catalog: seq<Product>, items: seq<Item>, inTail: seq<int>)
    returns (shifted: seq<int>)
    requires catalog != [] && AtCatalogPositions(catalog[1..], items, inTail)
    ensures AtCatalogPositions(catalog, items, shifted)
    ensures forall k :: 0 <= k < |shifted| ==> shifted[k] > 0
  {
    shifted := seq(|inTail|, k requires 0 <= k < |inTail| => inTail[k] + 1);
    forall k | 0 <= k < |shifted| ensures catalog[shifted[k]] == items[k].product {
      assert catalog[shifted[k]] == catalog[1..][inTail[k]];
    }
  }

  /** The first catalog product, put in front of items placed after it,
      goes at position 0. */
  lemma {:induction false} ConsPosition(catalog: seq<Product>, item: Item, items: seq<Item>, idx: seq<int>)
    requires catalog != [] && catalog[0] == item.product
    requires AtCatalogPositions(catalog, items, idx)
    requires forall k :: 0 <= k < |idx| ==> idx[k] > 0
    ensures AtCatalogPositions(catalog, [item] + items, [0] + idx)
  {
    var all, at := [item] + items, [0] + idx;
    forall k | 0 < k < |at| ensures at[k] == idx[k - 1] && all[k] == items[k - 1] {
    }
  }

  /** The items come out in catalog order, so an alphabetically sorted
      catalog gives alphabetically sorted items. */
  lemma {:induction false} JoinKeepsAlphaOrder(catalog: seq<Product>, lines: seq<CartLine>)
    requires AlphaSorted(catalog)
    ensures ItemsAlphaSorted(Join(catalog, lines))
  {
    if catalog != [] {
      var rest := Join(catalog[1..], lines);
      assert AlphaSorted(catalog[1..]) by {
        forall i, j | 0 <= i < j < |catalog[1..]|
          ensures AlphaLe(catalog[1..][i].name, catalog[1..][j].name)
        {
          assert catalog[1..][i] == catalog[i + 1] && catalog[1..][j] == catalog[j + 1];
        }
      }
      JoinKeepsAlphaOrder(catalog[1..], lines);
      forall k | 0 <= k < |rest| ensures AlphaLe(catalog[0].name, rest[k].product.name) {
        assert rest[k] in rest;
        var m :| 0 <= m < |catalog[1..]| && catalog[1..][m] == rest[k].product;
        assert catalog[m + 1] == rest[k].product;
      }
      var items := Join(catalog, lines);
      if Find(lines, catalog[0].id).Some? {
        assert items[0].product == catalog[0] && items[1..] == rest;
        forall i, j | 0 <= i < j < |items| ensures AlphaLe(items[i].product.name, items[j].product.name) {
          assert items[j] == rest[j - 1];
          if i == 0 {
            assert AlphaLe(catalog[0].name, rest[j - 1].product.name);
          } else {
            assert items[i] == rest[i - 1];
            assert AlphaLe(rest[i - 1].product.name, rest[j - 1].product.name);
          }
        }
      } else {
        assert items == rest;
      }
    }
  }

  /** A catalog with distinct ids yields at most one item per product. */
  lemma {:induction false} JoinDistinct(catalog: seq<Product>, lines: seq<CartLine>)
    requires DistinctIds(catalog)
    ensures ItemsDistinct(Join(catalog, lines))
  {
    if catalog != [] {
      var rest := Join(catalog[1..], lines);
      assert DistinctIds(catalog[1..]) by {
        forall i, j | 0 <= i < j < |catalog[1..]| ensures catalog[1..][i].id != catalog[1..][j].id {
          assert catalog[1..][i] == catalog[i + 1] && catalog[1..][j] == catalog[j + 1];
        }
      }
      JoinDistinct(catalog[1..], lines);
      forall k | 0 <= k < |rest| ensures rest[k].product.id != catalog[0].id {
        assert rest[k] in rest;
        var m :| 0 <= m < |catalog[1..]| && catalog[1..][m] == rest[k].product;
        assert catalog[m + 1] == rest[k].product;
      }
      var items := Join(catalog, lines);
      if Find(lines, catalog[0].id).Some? {
        assert items[0].product == catalog[0] && items[1..] == rest;
        forall i, j | 0 <= i < j < |items| ensures items[i].product.id != items[j].product.id {
          assert items[j] == rest[j - 1];
          if i == 0 {
            assert rest[j - 1].product.id != catalog[0].id;
          } else {
            assert items[i] == rest[i - 1];
            assert rest[i - 1].product.id != rest[j - 1].product.id;
          }
        }
      } else {
        assert items == rest;
      }
    }
  }

  /** With unique lines `find` returns a line exactly when it is in the cart. */
  lemma {:induction false} FindUnique(lines: seq<CartLine>, line: CartLine)
    requires Unique(lines)
    ensures Find(lines, line.productId) == Some(line) <==> line in lines
  {
    var i := FirstIndex(lines, line.productId);
    if line in lines {
      var k :| 0 <= k < |lines| && lines[k] == line;
      assert i <= k;
      assert i == k;
    }
  }

  /** Joining against a cart from which an unlisted product's line has been
      removed gives the same items. */
  lemma {:induction false} JoinIgnoresRemoved(catalog: seq<Product>, lines: seq<CartLine>, p: int)
    requires Unique(lines) && !Listed(catalog, p)
    ensures Join(catalog, RemoveLine(lines, p)) == Join(catalog, lines)
  {
    if catalog != [] {
      var id := catalog[0].id;
      assert catalog[0] in catalog;
      assert !Listed(catalog[1..], p) by {
        forall product | product in catalog[1..] ensures product.id != p { assert product in catalog; }
      }
      JoinIgnoresRemoved(catalog[1..], lines, p);
      var removed := RemoveLine(lines, p);
      RemoveLineUnique(lines, p);
      assert Find(removed, id) == Find(lines, id) by {
        match Find(lines, id)
        case Some(line) =>
          FindUnique(lines, line);
          FindUnique(removed, line);
        case None =>
      }
    }
  }

  /** With unique lines, the cart splits into the line of `p` and the rest. */
  lemma {:induction false} MultisetSplit(lines: seq<CartLine>, line: CartLine)
    requires Unique(lines) && line in lines
    ensures multiset(lines) == multiset{line} + multiset(RemoveLine(lines, line.productId))
  {
    var p := line.productId;
    assert lines == [lines[0]] + lines[1..];
    if lines[0] == line {
      assert !HasLine(lines[1..], p) by {
        forall l | l in lines[1..] ensures l.productId != p {
          var k :| 0 <= k < |lines[1..]| && lines[1..][k] == l;
          assert lines[k + 1] == l;
        }
      }
      RemoveNothing(lines[1..], p);
    } else {
      assert lines[0].productId != p by {
        var k :| 0 <= k < |lines| && lines[k] == line;
      }
      assert Unique(lines[1..]);
      assert line in lines[1..];
      MultisetSplit(lines[1..], line);
    }
  }

  predicate Covers(catalog: seq<Product>, lines: seq<CartLine>) {
    forall l :: l in lines ==> Listed(catalog, l.productId)
  }

  /** When every line's product is in a catalog with distinct ids, the join
      keeps every line: its `{id, quantity}` pairs are the cart lines,
      reordered to catalog order. */
  lemma {:induction false} JoinKeepsCoveredLines(catalog: seq<Product>, lines: seq<CartLine>)
    requires DistinctIds(catalog) && Unique(lines) && Covers(catalog, lines)
    ensures multiset(LinesOf(Join(catalog, lines))) == multiset(lines)
  {
    if catalog == [] {
      assert multiset(lines) == multiset{};
    } else {
      var product := catalog[0];
      var tail := catalog[1..];
      assert DistinctIds(tail) by {
        forall i, j | 0 <= i < j < |tail| ensures tail[i].id != tail[j].id {
          assert tail[i] == catalog[i + 1] && tail[j] == catalog[j + 1];
        }
      }
      assert !Listed(tail, product.id) by {
        forall other | other in tail ensures other.id != product.id {
          var m :| 0 <= m < |tail| && tail[m] == other;
          assert catalog[m + 1] == other;
        }
      }
      var rest := RemoveLine(lines, product.id);
      RemoveLineUnique(lines, product.id);
      assert Covers(tail, rest) by {
        forall l | l in rest ensures Listed(tail, l.productId) {
          var owner :| owner in catalog && owner.id == l.productId;
          if owner != product {
            var m :| 0 <= m < |catalog| && catalog[m] == owner;
            assert owner in tail;
          }
        }
      }
      JoinKeepsCoveredLines(tail, rest);
      JoinIgnoresRemoved(tail, lines, product.id);
      match Find(lines, product.id)
      case None =>
        RemoveNothing(lines, product.id);
      case Some(line) =>
        MultisetSplit(lines, line);
        var items := Join(catalog, lines);
        assert items == [Item(product, line.quantity, product.price * line.quantity)] + Join(tail, lines);
        assert LinesOf(items) == [line] + LinesOf(Join(tail, lines));
    }
  }

  /** Two lines priced 1000 and 500: each item's total is price times
      quantity, and the cart counts three units. */
  lemma TotalsExample()
    ensures var bag, pen := Product(1, "Bag", 1000), Product(2, "Pen", 500);
            var lines := [CartLine(1, 2), CartLine(2, 1)];
            && Join([bag, pen], lines) == [Item(bag, 2, 2000), Item(pen, 1, 500)]
            && Sum(lines) == 3
  {
    var bag, pen := Product(1, "Bag", 1000), Product(2, "Pen", 500);
    var lines := [CartLine(1, 2), CartLine(2, 1)];
    assert Find(lines, 1) == Some(CartLine(1, 2));
    assert Find(lines, 2) == Some(CartLine(2, 1));
    assert Join([pen], lines) == [Item(pen, 1, 500)];
  }
}
