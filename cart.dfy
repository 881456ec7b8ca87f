/**
 * The client-side cart store (`useCartStore`): an ordered list of line items
 * keyed by product id alone, an open/closed flag for the cart pop-up, and two
 * totals folded over the list. Each mutator replaces `items` with a new list
 * computed from the old one; those list functions are defined first, the
 * store object after them.
 */
module Cart {
  import opened Text
  import opened Wrappers
  import opened Numbers

  /** What `addItem` receives: a cart line without its quantity. `price` is display text such as "From: $39.75". */
  datatype Product = Product(id: int, title: string, price: string, image: string, category: string)

  datatype CartItem = CartItem(id: int, title: string, price: string, image: string, category: string, quantity: int)

  function LineFor(p: Product, quantity: int): CartItem
  {
    CartItem(p.id, p.title, p.price, p.image, p.category, quantity)
  }

  predicate HasId(items: seq<CartItem>, id: int)
  {
    exists i :: 0 <= i < |items| && items[i].id == id
  }

  predicate DistinctIds(items: seq<CartItem>)
  {
    forall i, j :: 0 <= i < j < |items| ==> items[i].id != items[j].id
  }

  predicate AllPositive(items: seq<CartItem>)
  {
    forall i :: 0 <= i < |items| ==> items[i].quantity > 0
  }

  /** `addItem(p, quantity)`: the line with the product's id gains `quantity`; if there is none, a line is appended. */
  function Added(items: seq<CartItem>, p: Product, quantity: int): (r: seq<CartItem>)
    ensures |r| == if HasId(items, p.id) then |items| else |items| + 1
    ensures HasId(r, p.id)
    ensures DistinctIds(items) ==> DistinctIds(r)
    ensures forall i :: 0 <= i < |items| && items[i].id != p.id ==> r[i] == items[i]
    ensures forall i :: 0 <= i < |items| && items[i].id == p.id ==>
      r[i] == items[i].(quantity := items[i].quantity + quantity)
    ensures !HasId(items, p.id) ==> r == items + [LineFor(p, quantity)]
  {
    if HasId(items, p.id) then
      var r := Incremented(items, p.id, quantity);
      var k :| 0 <= k < |items| && items[k].id == p.id;
      assert r[k].id == p.id;
      r
    else
      var r := items + [LineFor(p, quantity)];
      assert r[|items|].id == p.id;
      r
  }

  /** `map(i => i.id === id ? { ...i, quantity: i.quantity + quantity } : i)`. */
  function Incremented(items: seq<CartItem>, id: int, quantity: int): (r: seq<CartItem>)
    ensures |r| == |items|
    ensures forall i :: 0 <= i < |items| ==>
      r[i] == if items[i].id == id then items[i].(quantity := items[i].quantity + quantity) else items[i]
  {
    seq(|items|, i requires 0 <= i < |items| =>
      if items[i].id == id then items[i].(quantity := items[i].quantity + quantity) else items[i])
  }

  /** `removeItem(id)`: the lines whose id differs, in their original order. */
  function Removed(items: seq<CartItem>, id: int): (r: seq<CartItem>)
    ensures |r| <= |items|
    ensures !HasId(r, id)
    ensures forall x :: x in r <==> x in items && x.id != id
  {
    if items == [] then []
    else (if items[0].id != id then [items[0]] else []) + Removed(items[1..], id)
  }

  /** `filter(item => item.quantity > 0)`. */
  function Positives(items: seq<CartItem>): (r: seq<CartItem>)
    ensures |r| <= |items| && AllPositive(r)
    ensures forall x :: x in r <==> x in items && x.quantity > 0
  {
    if items == [] then []
    else (if items[0].quantity > 0 then [items[0]] else []) + Positives(items[1..])
  }

  /** `map(item => item.id === id ? { ...item, quantity } : item)`. */
  function WithQuantity(items: seq<CartItem>, id: int, quantity: int): (r: seq<CartItem>)
    ensures |r| == |items|
    ensures forall i :: 0 <= i < |items| ==> r[i].id == items[i].id
    ensures forall i :: 0 <= i < |items| && items[i].id == id ==> r[i] == items[i].(quantity := quantity)
    ensures forall i :: 0 <= i < |items| && items[i].id != id ==> r[i] == items[i]
  {
    seq(|items|, i requires 0 <= i < |items| =>
      if items[i].id == id then items[i].(quantity := quantity) else items[i])
  }

  /**
   * `updateQuantity(id, quantity)`: the lines with `id` take `max(0, quantity)`,
   * then every line whose quantity is not positive is dropped.
   */
  function Updated(items: seq<CartItem>, id: int, quantity: int): (r: seq<CartItem>)
    ensures AllPositive(r)
    ensures DistinctIds(items) ==> DistinctIds(r)
  {
    var r := Positives(WithQuantity(items, id, if quantity > 0 then quantity else 0));
    SubsequenceDistinct(items, r);
    r
  }

  /** Every line of `r` is a line of `items` with only its quantity possibly changed, in the same relative order. */
  lemma SubsequenceDistinct(items: seq<CartItem>, r: seq<CartItem>)
    requires exists q: int, id: int :: r == Positives(WithQuantity(items, id, q))
    ensures DistinctIds(items) ==> DistinctIds(r)
  {
    var q: int, id: int :| r == Positives(WithQuantity(items, id, q));
    if DistinctIds(items) {
      var m := WithQuantity(items, id, q);
      assert DistinctIds(m) by {
        forall i, j | 0 <= i < j < |m| ensures m[i].id != m[j].id {
          assert m[i].id == items[i].id && m[j].id == items[j].id;
        }
      }
      PositivesDistinct(m);
    }
  }

  lemma {:induction false} PositivesDistinct(items: seq<CartItem>)
    requires DistinctIds(items)
    ensures DistinctIds(Positives(items))
  {
    if items != [] {
      var t := items[1..];
      assert DistinctIds(t) by {
        forall i, j | 0 <= i < j < |t| ensures t[i].id != t[j].id {
          assert t[i] == items[i + 1] && t[j] == items[j + 1];
        }
      }
      PositivesDistinct(t);
      var pt := Positives(t);
      forall x | x in pt ensures x.id != items[0].id {
        var k :| 0 <= k < |t| && t[k] == x;
        assert items[k + 1] == x;
      }
    }
  }

  /** `getTotalItems`: the quantities summed from the left, starting at 0. */
  function TotalItems(items: seq<CartItem>): (n: int)
    ensures (forall i :: 0 <= i < |items| ==> items[i].quantity >= 0) ==> n >= 0
  {
    if items == [] then 0
    else TotalItems(items[..|items| - 1]) + items[|items| - 1].quantity
  }

  /** The value one line adds to `getTotalPrice`: its display price, with "From: $" removed, parsed and times the quantity. */
  function LinePrice(item: CartItem): Num
  {
    Times(ParseFloat(ReplaceFirst(item.price, "From: $", "")), item.quantity)
  }

  /** `getTotalPrice`: the line prices summed from the left, starting at 0; one unparsable price makes it NaN. */
  function TotalPrice(items: seq<CartItem>): (r: Num)
    ensures r.Finite? <==> EveryLine(items, LineParses)
  {
    if items == [] then Finite(0.0)
    else
      EveryLineInit(items, LineParses);
      Plus(TotalPrice(items[..|items| - 1]), LinePrice(items[|items| - 1]))
  }

  /** The line's price parses to a number. */
  predicate LineParses(item: CartItem)
  {
    LinePrice(item).Finite?
  }

  predicate EveryLine(items: seq<CartItem>, p: CartItem -> bool)
  {
    forall i :: 0 <= i < |items| ==> p(items[i])
  }

  lemma EveryLineInit(items: seq<CartItem>, p: CartItem -> bool)
    requires items != []
    ensures EveryLine(items, p) <==> EveryLine(items[..|items| - 1], p) && p(items[|items| - 1])
  {
    var init := items[..|items| - 1];
    assert forall i :: 0 <= i < |init| ==> init[i] == items[i];
  }

  lemma {:induction false} TotalItemsAppend(a: seq<CartItem>, b: seq<CartItem>)
    ensures TotalItems(a + b) == TotalItems(a) + TotalItems(b)
    decreases |b|
  {
    if b == [] {
      assert a + b == a;
    } else {
      var b' := b[..|b| - 1];
      assert (a + b)[..|a + b| - 1] == a + b';
      TotalItemsAppend(a, b');
    }
  }

  /** The item count of a cart with positive quantities is at least its number of lines. */
  lemma {:induction false} TotalItemsAtLeastLines(items: seq<CartItem>)
    requires AllPositive(items)
    ensures TotalItems(items) >= |items|
  {
    if items != [] {
      TotalItemsAtLeastLines(items[..|items| - 1]);
    }
  }

  lemma TotalItemsReplaceAt(s: seq<CartItem>, k: int, x: CartItem)
    requires 0 <= k < |s|
    ensures TotalItems(s[k := x]) == TotalItems(s) - s[k].quantity + x.quantity
  {
    assert s == s[..k] + [s[k]] + s[k + 1..];
    assert s[k := x] == s[..k] + [x] + s[k + 1..];
    TotalItemsAppend(s[..k] + [s[k]], s[k + 1..]);
    TotalItemsAppend(s[..k], [s[k]]);
    TotalItemsAppend(s[..k] + [x], s[k + 1..]);
    TotalItemsAppend(s[..k], [x]);
    assert [s[k]][..0] == [] && [x][..0] == [];
  }

  /** With distinct ids, the line carrying `id` is the only one `addItem` touches. */
  lemma AddedExisting(items: seq<CartItem>, p: Product, quantity: int, k: int)
    requires DistinctIds(items)
    requires 0 <= k < |items| && items[k].id == p.id
    ensures Added(items, p, quantity) == items[k := items[k].(quantity := items[k].quantity + quantity)]
  {
    var r := Added(items, p, quantity);
    var e := items[k := items[k].(quantity := items[k].quantity + quantity)];
    forall i | 0 <= i < |items| ensures r[i] == e[i] {
      if i != k {
        assert items[i].id != p.id;
      }
    }
  }

  /** After `addItem(p, q)` the item count has grown by exactly `q`, whether the line was new or not. */
  lemma TotalItemsAfterAdd(items: seq<CartItem>, p: Product, quantity: int)
    requires DistinctIds(items)
    ensures TotalItems(Added(items, p, quantity)) == TotalItems(items) + quantity
  {
    if HasId(items, p.id) {
      var k :| 0 <= k < |items| && items[k].id == p.id;
      AddedExisting(items, p, quantity, k);
      TotalItemsReplaceAt(items, k, items[k].(quantity := items[k].quantity + quantity));
    } else {
      TotalItemsAppend(items, [LineFor(p, quantity)]);
      assert [LineFor(p, quantity)][..0] == [];
    }
  }

  lemma {:induction false} TotalPriceAppend(a: seq<CartItem>, b: seq<CartItem>)
    ensures TotalPrice(a + b) == Plus(TotalPrice(a), TotalPrice(b))
    decreases |b|
  {
    if b == [] {
      assert a + b == a;
    } else {
      var b' := b[..|b| - 1];
      assert (a + b)[..|a + b| - 1] == a + b';
      TotalPriceAppend(a, b');
      PlusAssociates(TotalPrice(a), TotalPrice(b'), LinePrice(b[|b| - 1]));
    }
  }

  /** `getTotalPrice` does not depend on the order of the lines. */
  lemma {:induction false} TotalPriceReorder(a: seq<CartItem>, b: seq<CartItem>)
    requires multiset(a) == multiset(b)
    ensures TotalPrice(a) == TotalPrice(b)
    decreases |a|
  {
    if a == [] {
      assert |b| == |multiset(b)| == 0;
    } else {
      var x := a[|a| - 1];
      var a' := a[..|a| - 1];
      assert a == a' + [x];
      assert x in multiset(b);
      var k :| 0 <= k < |b| && b[k] == x;
      var b' := b[..k] + b[k + 1..];
      assert b == b[..k] + [x] + b[k + 1..];
      assert multiset(a') == multiset(a) - multiset{x};
      assert multiset(b) == multiset(b[..k]) + multiset{x} + multiset(b[k + 1..]);
      assert multiset(b') == multiset(b[..k]) + multiset(b[k + 1..]);
      assert multiset(b') == multiset(b) - multiset{x};
      TotalPriceReorder(a', b');
      TotalPriceAppend(b[..k] + [x], b[k + 1..]);
      TotalPriceAppend(b[..k], [x]);
      TotalPriceAppend(b[..k], b[k + 1..]);
      assert [x][..0] == [];
      var p, q, l := TotalPrice(b[..k]), TotalPrice(b[k + 1..]), LinePrice(x);
      PlusAssociates(p, l, q);
      PlusCommutes(l, q);
      PlusAssociates(p, q, l);
    }
  }

  lemma {:induction false} RemovedAbsent(items: seq<CartItem>, id: int)
    requires !HasId(items, id)
    ensures Removed(items, id) == items
  {
    if items != [] {
      assert !HasId(items[1..], id) by {
        forall i | 0 <= i < |items[1..]| ensures items[1..][i].id != id {
          assert items[1..][i] == items[i + 1];
        }
      }
      RemovedAbsent(items[1..], id);
      assert items[0].id != id;
    }
  }

  lemma {:induction false} RemovedAppend(a: seq<CartItem>, b: seq<CartItem>, id: int)
    ensures Removed(a + b, id) == Removed(a, id) + Removed(b, id)
  {
    if a == [] {
      assert a + b == b;
    } else {
      RemovedAppend(a[1..], b, id);
      RemovedAppendStep(a, b, id);
    }
  }

  /** One step of the induction: the head of `a` is kept or dropped in both. */
  lemma RemovedAppendStep(a: seq<CartItem>, b: seq<CartItem>, id: int)
    requires a != []
    requires Removed(a[1..] + b, id) == Removed(a[1..], id) + Removed(b, id)
    ensures Removed(a + b, id) == Removed(a, id) + Removed(b, id)
  {
    HeadOfAppend(a, b);
    var head := if a[0].id != id then [a[0]] else [];
    assert Removed(a + b, id) == head + Removed(a[1..] + b, id);
    assert Removed(a, id) == head + Removed(a[1..], id);
    SeqAssoc(head, Removed(a[1..], id), Removed(b, id));
  }

  lemma HeadOfAppend(a: seq<CartItem>, b: seq<CartItem>)
    requires a != []
    ensures a + b != [] && (a + b)[0] == a[0] && (a + b)[1..] == a[1..] + b
  {
  }

  lemma SeqAssoc(x: seq<CartItem>, y: seq<CartItem>, z: seq<CartItem>)
    ensures x + (y + z) == (x + y) + z
  {
  }

  lemma NoIdInPrefix(items: seq<CartItem>, k: int)
    requires DistinctIds(items) && 0 <= k < |items|
    ensures !HasId(items[..k], items[k].id)
  {
    forall i | 0 <= i < k ensures items[..k][i].id != items[k].id {
      assert items[..k][i] == items[i];
    }
  }

  lemma NoIdInSuffix(items: seq<CartItem>, k: int)
    requires DistinctIds(items) && 0 <= k < |items|
    ensures !HasId(items[k + 1..], items[k].id)
  {
    var t := items[k + 1..];
    forall i | 0 <= i < |t| ensures t[i].id != items[k].id {
      assert t[i] == items[k + 1 + i];
    }
  }

  /** `removeItem` on a cart with distinct ids drops exactly the line with that id; the others keep their order. */
  lemma RemoveDropsOnlyThatLine(items: seq<CartItem>, k: int)
    requires DistinctIds(items) && 0 <= k < |items|
    ensures Removed(items, items[k].id) == items[..k] + items[k + 1..]
  {
    var id, pre, post := items[k].id, items[..k], items[k + 1..];
    var mid := [items[k]] + post;
    SplitAround(items, k);
    NoIdInPrefix(items, k);
    NoIdInSuffix(items, k);
    RemovedAppend(pre, mid, id);
    RemovedAbsent(pre, id);
    RemovedHead(items[k], post);
    assert Removed(pre + mid, id) == pre + post;
  }

  lemma SplitAround(items: seq<CartItem>, k: int)
    requires 0 <= k < |items|
    ensures items == items[..k] + ([items[k]] + items[k + 1..])
  {
    assert items[k..] == [items[k]] + items[k + 1..];
    assert items == items[..k] + items[k..];
  }

  lemma RemovedHead(x: CartItem, post: seq<CartItem>)
    requires !HasId(post, x.id)
    ensures Removed([x] + post, x.id) == post
  {
    var m := [x] + post;
    assert m[0] == x && m[1..] == post;
    RemovedAbsent(post, x.id);
  }

  /** Dropping lines keeps the remaining ids distinct. */
  lemma {:induction false} RemovedDistinct(items: seq<CartItem>, id: int)
    requires DistinctIds(items)
    ensures DistinctIds(Removed(items, id))
  {
    if items != [] {
      var t := items[1..];
      assert DistinctIds(t) by {
        forall i, j | 0 <= i < j < |t| ensures t[i].id != t[j].id {
          assert t[i] == items[i + 1] && t[j] == items[j + 1];
        }
      }
      RemovedDistinct(t, id);
      var rt := Removed(t, id);
      forall x | x in rt ensures x.id != items[0].id {
        var k :| 0 <= k < |t| && t[k] == x;
        assert items[k + 1] == x;
      }
    }
  }

  lemma {:induction false} PositivesAllPositive(items: seq<CartItem>)
    requires AllPositive(items)
    ensures Positives(items) == items
  {
    if items != [] {
      PositivesAllPositive(items[1..]);
    }
  }

  /** On a cart whose quantities are positive, `updateQuantity(id, q)` with `q <= 0` is `removeItem(id)`. */
  lemma {:induction false} UpdateNonPositiveRemoves(items: seq<CartItem>, id: int, quantity: int)
    requires AllPositive(items)
    requires quantity <= 0
    ensures Updated(items, id, quantity) == Removed(items, id)
  {
    var m := WithQuantity(items, id, 0);
    if items != [] {
      var t := items[1..];
      assert WithQuantity(items, id, 0)[1..] == WithQuantity(t, id, 0);
      UpdateNonPositiveRemoves(t, id, quantity);
      assert m[0] == if items[0].id == id then items[0].(quantity := 0) else items[0];
    }
  }

  /** On a cart with positive quantities and distinct ids, `updateQuantity(id, q)` with `q > 0` sets that one line's quantity. */
  lemma UpdatePositiveSets(items: seq<CartItem>, id: int, quantity: int)
    requires AllPositive(items) && DistinctIds(items)
    requires quantity > 0
    ensures forall k :: 0 <= k < |items| && items[k].id == id ==>
      Updated(items, id, quantity) == items[k := items[k].(quantity := quantity)]
    ensures !HasId(items, id) ==> Updated(items, id, quantity) == items
  {
    var m := WithQuantity(items, id, quantity);
    assert AllPositive(m);
    PositivesAllPositive(m);
    forall k | 0 <= k < |items| && items[k].id == id
      ensures m == items[k := items[k].(quantity := quantity)]
    {
      var e := items[k := items[k].(quantity := quantity)];
      forall i | 0 <= i < |items| ensures m[i] == e[i] {
        if i != k { assert items[i].id != id; }
      }
    }
    if !HasId(items, id) {
      assert m == items;
    }
  }

  /**
   * A catalog price in pounds keeps its "From: £" head through the "From: $"
   * replacement, whatever follows it, so its line price is NaN.
   */
  lemma PoundPriceIsNaN(item: CartItem, t: string)
    requires item.price == "From: £" + t
    ensures LinePrice(item) == NaN
  {
    var s := item.price;
    var pat := "From: $";
    var r := ReplaceFirst(s, pat, "");
    NoDollarPatternInHead(t);
    match IndexOfFrom(s, pat, 0)
    case None =>
      assert r == s;
    case Some(i) =>
      assert i >= 7;
      assert r == s[..i] + "" + s[i + |pat|..];
      assert r[0] == s[0];
    ParseFloatOfOtherStart(r);
  }

  /** "From: $" cannot start inside the seven characters "From: £". */
  lemma NoDollarPatternInHead(t: string)
    ensures forall j :: 0 <= j < 7 ==> !OccursAt("From: £" + t, "From: $", j)
  {
    var s := "From: £" + t;
    var pat := "From: $";
    forall j | 0 <= j < 7 ensures !OccursAt(s, pat, j) {
      if j + |pat| <= |s| {
        var w := s[j..j + |pat|];
        assert w[0] == s[j] && w[6] == s[j + 6];
        assert s[j] != 'F' || s[j + 6] != '$';
      }
    }
  }

  /** A cart holding one catalog price in pounds has a NaN total. */
  lemma PoundLineMakesTotalNaN(items: seq<CartItem>, k: int, t: string)
    requires 0 <= k < |items| && items[k].price == "From: £" + t
    ensures TotalPrice(items) == NaN
  {
    PoundPriceIsNaN(items[k], t);
    assert !LineParses(items[k]);
  }

  /** `filter` distributes over concatenation: the kept lines stay in their order. */
  lemma {:induction false} PositivesAppend(a: seq<CartItem>, b: seq<CartItem>)
    ensures Positives(a + b) == Positives(a) + Positives(b)
  {
    if a == [] {
      assert a + b == b;
    } else {
      PositivesAppend(a[1..], b);
      HeadOfAppend(a, b);
      var head := if a[0].quantity > 0 then [a[0]] else [];
      assert Positives(a + b) == head + Positives(a[1..] + b);
      assert Positives(a) == head + Positives(a[1..]);
      SeqAssoc(head, Positives(a[1..]), Positives(b));
    }
  }

  /**
   * On any cart with distinct ids, `updateQuantity(id, q)` sets the line with
   * that id to `max(0, q)` and then drops the non-positive lines; with no such
   * line it only drops them.
   */
  lemma UpdateSetsThenFilters(items: seq<CartItem>, id: int, quantity: int)
    requires DistinctIds(items)
    ensures var q := if quantity > 0 then quantity else 0;
      forall k :: 0 <= k < |items| && items[k].id == id ==>
        Updated(items, id, quantity) == Positives(items[k := items[k].(quantity := q)])
    ensures !HasId(items, id) ==> Updated(items, id, quantity) == Positives(items)
  {
    var q := if quantity > 0 then quantity else 0;
    var m := WithQuantity(items, id, q);
    forall k | 0 <= k < |items| && items[k].id == id
      ensures m == items[k := items[k].(quantity := q)]
    {
      var e := items[k := items[k].(quantity := q)];
      forall i | 0 <= i < |items| ensures m[i] == e[i] {
        if i != k { assert items[i].id != id; }
      }
    }
    if !HasId(items, id) {
      assert m == items;
    }
  }

  /** A price written "From: $<units>.<two decimals>" contributes exactly that amount per unit. */
  lemma DollarPriceParses(item: CartItem, c: nat)
    requires item.price == "From: $" + CentsText(c)
    ensures LinePrice(item) == Times(Finite(Cents(c)), item.quantity)
  {
    var t := CentsText(c);
    StripDollar(t);
    CentsTextParsesAsFloat(c);
    assert ReplaceFirst(item.price, "From: $", "") == t;

  }

  lemma StripDollar(t: string)
    ensures ReplaceFirst("From: $" + t, "From: $", "") == t
  {
    var pat := "From: $";
    var s := pat + t;
    assert s[0..|pat|] == pat;
    assert IndexOfFrom(s, pat, 0) == Some(0);
    assert s[|pat|..] == t;
  }

  /** The store object: the list of lines and the pop-up flag, replaced wholesale by each mutator. */
  class CartStore {
    var items: seq<CartItem>
    var isOpen: bool

    /** Ids are unique across every state the store can reach. */
    ghost predicate Valid()
      reads this
    {
      DistinctIds(items)
    }

    constructor ()
      ensures Valid()
      ensures items == [] && !isOpen
    {
      items := [];
      isOpen := false;
    }

    method AddItem(item: Product, quantity: int := 1)
      requires Valid()
      modifies this
      ensures Valid()
      ensures items == Added(old(items), item, quantity) && isOpen == old(isOpen)
      ensures TotalItems(items) == TotalItems(old(items)) + quantity
      ensures AllPositive(old(items)) && quantity > 0 ==> AllPositive(items)
    {
      TotalItemsAfterAdd(items, item, quantity);
      items := Added(items, item, quantity);
    }

    method RemoveItem(id: int)
      requires Valid()
      modifies this
      ensures Valid()
      ensures items == Removed(old(items), id) && isOpen == old(isOpen)
      ensures AllPositive(old(items)) ==> AllPositive(items)
    {
      RemovedDistinct(items, id);
      items := Removed(items, id);
    }

    method UpdateQuantity(id: int, quantity: int)
      requires Valid()
      modifies this
      ensures Valid() && AllPositive(items)
      ensures items == Updated(old(items), id, quantity) && isOpen == old(isOpen)
    {
      items := Updated(items, id, quantity);
    }

    method ClearCart()
      modifies this
      ensures Valid()
      ensures items == [] && isOpen == old(isOpen)
    {
      items := [];
    }

    method OpenCart()
      requires Valid()
      modifies this
      ensures Valid()
      ensures isOpen && items == old(items)
    {
      isOpen := true;
    }

    method CloseCart()
      requires Valid()
      modifies this
      ensures Valid()
      ensures !isOpen && items == old(items)
    {
      isOpen := false;
    }

    function GetTotalItems(): (n: int)
      reads this
      ensures (forall i :: 0 <= i < |items| ==> items[i].quantity >= 0) ==> n >= 0
    {
      TotalItems(items)
    }

    function GetTotalPrice(): (r: Num)
      reads this
      ensures r.Finite? <==> EveryLine(items, LineParses)
    {
      TotalPrice(items)
    }
  }
}
