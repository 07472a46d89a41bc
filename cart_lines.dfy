/** Cart lines as the remote cart stores them, the effect each cart request
    has on the stored lines, and the pure computations the shopping-cart
    service performs on a snapshot of them. */
module CartLines {
  import opened Errors

  /** One `{productId, quantity}` record of the remote cart. */
  datatype CartLine = CartLine(productId: int, quantity: int)

  predicate HasLine(lines: seq<CartLine>, p: int) {
    exists l :: l in lines && l.productId == p
  }

  /** At most one line per product: the invariant sequential `addItem`
      calls keep. */
  predicate Unique(lines: seq<CartLine>) {
    forall i, j :: 0 <= i < j < |lines| ==> lines[i].productId != lines[j].productId
  }

  /** Index of the first line for product `p`, or `|lines|` when there is none. */
  function FirstIndex(lines: seq<CartLine>, p: int): (i: nat)
    ensures i <= |lines|
    ensures forall j :: 0 <= j < i ==> lines[j].productId != p
    ensures i < |lines| ==> lines[i].productId == p
  {
    if lines == [] then 0
    else if lines[0].productId == p then 0
    else 1 + FirstIndex(lines[1..], p)
  }

  /** `items.find(i => i.productId === productId)`. */
  function Find(lines: seq<CartLine>, p: int): (r: Option<CartLine>)
    ensures r.None? <==> !HasLine(lines, p)
    ensures r.Some? ==> r.value in lines && r.value.productId == p
    // the line reported is the first one for `p`
    ensures r.Some? ==> exists i :: && 0 <= i < |lines| && lines[i] == r.value
                                    && forall j :: 0 <= j < i ==> lines[j].productId != p
  {
    var i := FirstIndex(lines, p);
    if i < |lines| then Some(lines[i]) else None
  }

  /** Quantity of the line `find` reports for `p`, 0 when there is none. */
  function QuantityOf(lines: seq<CartLine>, p: int): int {
    match Find(lines, p)
    case Some(l) => l.quantity
    case None => 0
  }

  /** Effect of a successful `PUT /shopping-cart/{p}`: the line for `p` gets
      quantity `q`; a cart without such a line is left as it is. */
  function SetQuantity(lines: seq<CartLine>, p: int, q: int): (r: seq<CartLine>)
    ensures |r| == |lines|
    ensures forall i {:trigger r[i]} :: 0 <= i < |r| ==>
              r[i] == if lines[i].productId == p then CartLine(p, q) else lines[i]
  {
    if lines == [] then []
    else
      var head := if lines[0].productId == p then CartLine(p, q) else lines[0];
      [head] + SetQuantity(lines[1..], p, q)
  }

  /** Effect of a successful `DELETE /shopping-cart/{p}`: the line for `p` is
      gone and every other line stays. */
  function RemoveLine(lines: seq<CartLine>, p: int): (r: seq<CartLine>)
    ensures forall l :: l in r <==> l in lines && l.productId != p
    ensures |r| <= |lines|
  {
    if lines == [] then []
    else if lines[0].productId == p then RemoveLine(lines[1..], p)
    else [lines[0]] + RemoveLine(lines[1..], p)
  }

  /** What a successful `addItem(p, q)` leaves in the remote cart: a POST of
      `{p, q}` when there is no line for `p`, otherwise a PUT of the found
      quantity plus `q`. */
  function AddedLines(lines: seq<CartLine>, p: int, q: int): (r: seq<CartLine>)
    // a new line only when the product had none
    ensures |r| == |lines| + (if Find(lines, p).None? then 1 else 0)
  {
    match Find(lines, p)
    case None => lines + [CartLine(p, q)]
    case Some(l) => SetQuantity(lines, p, l.quantity + q)
  }

  /** `items.reduce((sum, item) => sum + item.quantity, 0)`: 0 for an empty
      cart, and when no quantity is negative, never negative and at least
      the quantity of any one line. */
  function Sum(lines: seq<CartLine>): (n: int)
    ensures lines == [] ==> n == 0
    ensures (forall l :: l in lines ==> l.quantity >= 0) ==>
              n >= 0 && forall l :: l in lines ==> l.quantity <= n
  {
    if lines == [] then 0
    else
      var n := lines[0].quantity + Sum(lines[1..]);
      assert (forall l :: l in lines ==> l.quantity >= 0) ==> forall l :: l in lines ==> l.quantity <= n by {
        if forall l :: l in lines ==> l.quantity >= 0 {
          forall l | l in lines ensures l.quantity <= n {
            assert lines[0] in lines;
            assert forall m :: m in lines[1..] ==> m in lines;
            if l != lines[0] {
              assert l in lines[1..];
            }
          }
        }
      }
      n
  }

  // ---------------------------------------------------------------------
  // Lemmas

  lemma {:induction false} SumAppend(a: seq<CartLine>, b: seq<CartLine>)
    ensures Sum(a + b) == Sum(a) + Sum(b)
  {
    if a != [] {
      assert (a + b)[1..] == a[1..] + b;
      SumAppend(a[1..], b);
    } else {
      assert a + b == b;
    }
  }

  /** With unique lines, the line for `p` contributes exactly its quantity
      to the count and everything else contributes `Sum` of the rest. */
  lemma {:induction false} SumSplit(lines: seq<CartLine>, p: int)
    requires Unique(lines)
    ensures Sum(lines) == QuantityOf(lines, p) + Sum(RemoveLine(lines, p))
  {
    if lines != [] {
      SumSplit(lines[1..], p);
      if lines[0].productId == p {
        assert !HasLine(lines[1..], p) by {
          forall l | l in lines[1..] ensures l.productId != p {
            var k :| 0 <= k < |lines[1..]| && lines[1..][k] == l;
            assert lines[k + 1] == l;
          }
        }
        assert Find(lines[1..], p) == None;
        RemoveNothing(lines[1..], p);
      }
    }
  }

  lemma {:induction false} RemoveNothing(lines: seq<CartLine>, p: int)
    requires !HasLine(lines, p)
    ensures RemoveLine(lines, p) == lines
  {
    if lines != [] {
      assert lines[0] in lines;
      assert !HasLine(lines[1..], p) by {
        forall l | l in lines[1..] ensures l.productId != p {
          assert l in lines;
        }
      }
      RemoveNothing(lines[1..], p);
    }
  }

  /** A PUT on a product that has no line leaves the cart unchanged. */
  lemma {:induction false} SetQuantityAbsent(lines: seq<CartLine>, p: int, q: int)
    requires !HasLine(lines, p)
    ensures SetQuantity(lines, p, q) == lines
  {
    var r := SetQuantity(lines, p, q);
    forall i | 0 <= i < |lines| ensures r[i] == lines[i] {
      assert lines[i] in lines;
    }
  }

  lemma SetQuantityUnique(lines: seq<CartLine>, p: int, q: int)
    requires Unique(lines)
    ensures Unique(SetQuantity(lines, p, q))
  {
  }

  lemma {:induction false} RemoveLineUnique(lines: seq<CartLine>, p: int)
    requires Unique(lines)
    ensures Unique(RemoveLine(lines, p))
  {
    if lines != [] {
      assert Unique(lines[1..]);
      RemoveLineUnique(lines[1..], p);
      var rest := RemoveLine(lines[1..], p);
      if lines[0].productId != p {
        forall l | l in rest ensures l.productId != lines[0].productId {
          var k :| 0 <= k < |lines[1..]| && lines[1..][k] == l;
          assert lines[k + 1] == l;
        }
      }
    }
  }

  /** With unique lines, removing `p` lowers the count by the quantity of
      its line. */
  lemma {:induction false} RemoveLineSum(lines: seq<CartLine>, p: int)
    requires Unique(lines)
    ensures Sum(RemoveLine(lines, p)) == Sum(lines) - QuantityOf(lines, p)
  {
    SumSplit(lines, p);
  }

  /** A PUT on the line of `p` changes the count by the difference between
      the new and the old quantity. */
  lemma {:induction false} SetQuantitySum(lines: seq<CartLine>, p: int, q: int)
    requires Unique(lines) && HasLine(lines, p)
    ensures Sum(SetQuantity(lines, p, q)) == Sum(lines) - QuantityOf(lines, p) + q
  {
    var r := SetQuantity(lines, p, q);
    assert Unique(r) by { SetQuantityUnique(lines, p, q); }
    assert QuantityOf(r, p) == q by { SetQuantityFind(lines, p, q); }
    assert Sum(lines) == QuantityOf(lines, p) + Sum(RemoveLine(lines, p)) by { SumSplit(lines, p); }
    assert Sum(r) == q + Sum(RemoveLine(r, p)) by { SumSplit(r, p); }
    assert RemoveLine(r, p) == RemoveLine(lines, p) by { SetQuantityRemove(lines, p, q); }
  }

  /** After a PUT on a present line, `find` reports the new quantity. */
  lemma {:induction false} SetQuantityFind(lines: seq<CartLine>, p: int, q: int)
    requires HasLine(lines, p)
    ensures Find(SetQuantity(lines, p, q), p) == Some(CartLine(p, q))
  {
    var r := SetQuantity(lines, p, q);
    var i := FirstIndex(lines, p);
    assert i < |lines| by { assert Find(lines, p).Some?; }
    assert FirstIndex(r, p) == i by { FirstIndexSame(lines, r, p); }
    assert r[i] == CartLine(p, q);
  }

  lemma {:induction false} SetQuantityRemove(lines: seq<CartLine>, p: int, q: int)
    ensures RemoveLine(SetQuantity(lines, p, q), p) == RemoveLine(lines, p)
  {
    if lines != [] {
      assert SetQuantity(lines, p, q)[1..] == SetQuantity(lines[1..], p, q);
      SetQuantityRemove(lines[1..], p, q);
    }
  }

  lemma {:induction false} FirstIndexSame(a: seq<CartLine>, b: seq<CartLine>, p: int)
    requires |a| == |b|
    requires forall i :: 0 <= i < |a| ==> a[i].productId == b[i].productId
    ensures FirstIndex(a, p) == FirstIndex(b, p)
  {
    if a != [] {
      FirstIndexSame(a[1..], b[1..], p);
    }
  }

  /** `addItem(p, q)` leaves `find` reporting one line for `p` whose
      quantity is the previous one plus `q`; the POST case creates exactly
      `{p, q}`. */
  lemma {:induction false} AddedQuantity(lines: seq<CartLine>, p: int, q: int)
    ensures Find(AddedLines(lines, p, q), p) == Some(CartLine(p, QuantityOf(lines, p) + q))
  {
    if HasLine(lines, p) {
      var x := QuantityOf(lines, p) + q;
      assert AddedLines(lines, p, q) == SetQuantity(lines, p, x) by { AddedToPresent(lines, p, q); }
      SetQuantityFind(lines, p, x);
    } else {
      assert AddedLines(lines, p, q) == lines + [CartLine(p, q)] by { AddedToAbsent(lines, p, q); }
      assert QuantityOf(lines, p) == 0 by { assert Find(lines, p) == None; }
      assert FirstIndex(lines + [CartLine(p, q)], p) == |lines| by {
        PrefixFirstIndex(lines, [CartLine(p, q)], p);
      }
    }
  }

  lemma {:induction false} PrefixFirstIndex(a: seq<CartLine>, b: seq<CartLine>, p: int)
    requires !HasLine(a, p)
    ensures FirstIndex(a + b, p) == |a| + FirstIndex(b, p)
  {
    if a != [] {
      assert a[0] in a;
      assert (a + b)[1..] == a[1..] + b;
      assert !HasLine(a[1..], p) by {
        forall l | l in a[1..] ensures l.productId != p { assert l in a; }
      }
      PrefixFirstIndex(a[1..], b, p);
    } else {
      assert a + b == b;
    }
  }

  /** `addItem(p, q)` leaves the lines of every other product alone. */
  lemma {:induction false} AddedOthers(lines: seq<CartLine>, p: int, q: int, other: int)
    requires other != p
    ensures Find(AddedLines(lines, p, q), other) == Find(lines, other)
  {
    var r := AddedLines(lines, p, q);
    if Find(lines, p).None? {
      if HasLine(lines, other) {
        var i := FirstIndex(lines, other);
        assert FirstIndex(r, other) == i by { FirstIndexPrefix(lines, [CartLine(p, q)], other); }
      } else {
        PrefixFirstIndex(lines, [CartLine(p, q)], other);
      }
    } else {
      FirstIndexSame(lines, r, other);
      var i := FirstIndex(lines, other);
      if i < |lines| {
        assert r[i] == lines[i];
      }
    }
  }

  lemma {:induction false} FirstIndexPrefix(a: seq<CartLine>, b: seq<CartLine>, p: int)
    requires HasLine(a, p)
    ensures FirstIndex(a + b, p) == FirstIndex(a, p)
  {
    assert a != [];
    assert (a + b)[1..] == a[1..] + b;
    if a[0].productId != p {
      assert HasLine(a[1..], p) by {
        var l :| l in a && l.productId == p;
        var k :| 0 <= k < |a| && a[k] == l;
        assert a[1..][k - 1] == l;
      }
      FirstIndexPrefix(a[1..], b, p);
    }
  }

  /** Sequential `addItem` calls never create a second line for a product. */
  lemma {:induction false} AddedUnique(lines: seq<CartLine>, p: int, q: int)
    requires Unique(lines)
    ensures Unique(AddedLines(lines, p, q))
  {
    if Find(lines, p).None? {
      var r := lines + [CartLine(p, q)];
      forall i | 0 <= i < |lines| ensures r[i].productId != p {
        assert lines[i] in lines;
      }
    } else {
      SetQuantityUnique(lines, p, (Find(lines, p).value.quantity) + q);
    }
  }

  /** `addItem` on a product with no line appends `{p, q}`. */
  lemma {:induction false} AddedToAbsent(lines: seq<CartLine>, p: int, q: int)
    requires !HasLine(lines, p)
    ensures AddedLines(lines, p, q) == lines + [CartLine(p, q)]
  {
    assert Find(lines, p) == None;
  }

  /** `addItem` on a product with a line sets it to its quantity plus `q`. */
  lemma {:induction false} AddedToPresent(lines: seq<CartLine>, p: int, q: int)
    requires HasLine(lines, p)
    ensures AddedLines(lines, p, q) == SetQuantity(lines, p, QuantityOf(lines, p) + q)
  {
    var found := Find(lines, p);
    assert found.Some?;
    var l := found.value;
    calc {
      AddedLines(lines, p, q);
      SetQuantity(lines, p, l.quantity + q);
      { assert QuantityOf(lines, p) == l.quantity; }
      SetQuantity(lines, p, QuantityOf(lines, p) + q);
    }
  }

  /** A PUT on a line appended for a product the cart did not have touches
      only that last line. */
  lemma {:induction false} SetQuantityLast(lines: seq<CartLine>, p: int, q: int, q': int)
    requires !HasLine(lines, p)
    ensures SetQuantity(lines + [CartLine(p, q)], p, q') == lines + [CartLine(p, q')]
  {
    var r := SetQuantity(lines + [CartLine(p, q)], p, q');
    forall i | 0 <= i < |lines| ensures r[i] == lines[i] {
      assert lines[i] in lines;
      assert (lines + [CartLine(p, q)])[i] == lines[i];
    }
    assert r[|lines|] == CartLine(p, q');
  }

  /** With unique lines, `addItem(p, q)` raises the item count by `q`. */
  lemma {:induction false} AddedSum(lines: seq<CartLine>, p: int, q: int)
    requires Unique(lines)
    ensures Sum(AddedLines(lines, p, q)) == Sum(lines) + q
  {
    if HasLine(lines, p) {
      var x := QuantityOf(lines, p) + q;
      assert AddedLines(lines, p, q) == SetQuantity(lines, p, x) by { AddedToPresent(lines, p, q); }
      assert Sum(SetQuantity(lines, p, x)) == Sum(lines) + q by { SetQuantitySum(lines, p, x); }
    } else {
      var added := [CartLine(p, q)];
      assert AddedLines(lines, p, q) == lines + added by { AddedToAbsent(lines, p, q); }
      assert Sum(lines + added) == Sum(lines) + Sum(added) by { SumAppend(lines, added); }
      assert Sum(added) == q by { assert added[1..] == []; }
    }
  }

  /** Two `addItem` calls for a product not yet in the cart leave exactly one
      line for it, carrying the sum of both quantities. */
  lemma {:induction false} AddTwiceMerges(lines: seq<CartLine>, p: int, q1: int, q2: int)
    requires !HasLine(lines, p)
    ensures AddedLines(AddedLines(lines, p, q1), p, q2) == lines + [CartLine(p, q1 + q2)]
  {
    var once := lines + [CartLine(p, q1)];
    AddedToAbsent(lines, p, q1);
    AddedQuantity(lines, p, q1);
    assert QuantityOf(lines, p) == 0 by { assert Find(lines, p) == None; }
    assert QuantityOf(once, p) == q1 && HasLine(once, p);
    AddedToPresent(once, p, q2);
    SetQuantityLast(lines, p, q1, q1 + q2);
  }
}
