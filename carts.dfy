/** CartService: per-user cart lines, merged on repeated adds, checked against live stock. */
module Carts {
  import opened Model
  import Inventory

  predicate IsLine(line: CartItem, userId: string, productId: string) {
    line.userId == userId && line.productId == productId
  }

  /** At most one line per (user, product). */
  ghost predicate UniquePairs(lines: seq<CartItem>) {
    forall i, j :: 0 <= i < j < |lines| && lines[i].userId == lines[j].userId ==> lines[i].productId != lines[j].productId
  }

  /** The cart repository's invariant: positive quantities, distinct line ids, one line per pair. */
  ghost predicate WellFormedCart(lines: seq<CartItem>) {
    && (forall i :: 0 <= i < |lines| ==> lines[i].quantity >= 1)
    && (forall i, j :: 0 <= i < j < |lines| ==> lines[i].id != lines[j].id)
    && UniquePairs(lines)
  }

  function LineIds(lines: seq<CartItem>): set<string> {
    set x | x in lines :: x.id
  }

  /** `findByUserId`: the user's lines, in stored order. */
  function UserLines(lines: seq<CartItem>, userId: string): (r: seq<CartItem>)
    ensures forall x :: x in r <==> x in lines && x.userId == userId
    ensures |r| <= |lines|
    decreases |lines|
  {
    if lines == [] then []
    else
      var init := UserLines(lines[..|lines| - 1], userId);
      if lines[|lines| - 1].userId == userId then init + [lines[|lines| - 1]] else init
  }

  /** Appending one element to the longer sequence keeps a subsequence a subsequence, and appending it to both
      keeps it too. */
  lemma {:induction false} SubsequenceSnoc(a: seq<CartItem>, b: seq<CartItem>, x: CartItem)
    requires Inventory.IsSubsequence(a, b)
    ensures Inventory.IsSubsequence(a, b + [x])
    ensures Inventory.IsSubsequence(a + [x], b + [x])
    decreases |b|
  {
    if b == [] {
      assert a == [];
      assert ([x] + [x])[1..] == [x];
      assert Inventory.IsSubsequence([x][1..], [x][1..]);
    } else {
      var bx := b + [x];
      assert bx[0] == b[0] && bx[1..] == b[1..] + [x];
      if a == [] {
        assert Inventory.IsSubsequence([], b[1..]);
        SubsequenceSnoc([], b[1..], x);
        assert [] + [x] == [x];
        if x != b[0] {
          assert Inventory.IsSubsequence([x], b[1..] + [x]);
        }
      } else {
        var ax := a + [x];
        assert ax[0] == a[0] && ax[1..] == a[1..] + [x];
        if a[0] == b[0] {
          SubsequenceSnoc(a[1..], b[1..], x);
        } else {
          SubsequenceSnoc(a, b[1..], x);
        }
      }
    }
  }

  /** `findByUserId` keeps the user's lines in stored order: the result is a subsequence of the stored lines. */
  lemma {:induction false} UserLinesInOrder(lines: seq<CartItem>, userId: string)
    ensures Inventory.IsSubsequence(UserLines(lines, userId), lines)
    decreases |lines|
  {
    if lines != [] {
      var init := lines[..|lines| - 1];
      var last := lines[|lines| - 1];
      UserLinesInOrder(init, userId);
      SubsequenceSnoc(UserLines(init, userId), init, last);
      assert init + [last] == lines;
    }
  }

  /** `deleteByUserId`: every other user's lines, in stored order. */
  function WithoutUser(lines: seq<CartItem>, userId: string): (r: seq<CartItem>)
    ensures forall x :: x in r <==> x in lines && x.userId != userId
    decreases |lines|
  {
    if lines == [] then []
    else
      var init := WithoutUser(lines[..|lines| - 1], userId);
      if lines[|lines| - 1].userId != userId then init + [lines[|lines| - 1]] else init
  }

  /** `findByUserIdAndProductId`: the position of the line for the pair, if there is one. */
  function FindLine(lines: seq<CartItem>, userId: string, productId: string): (r: Option<nat>)
    ensures r.Some? ==> r.value < |lines| && IsLine(lines[r.value], userId, productId)
    ensures r.None? ==> forall i :: 0 <= i < |lines| ==> !IsLine(lines[i], userId, productId)
    decreases |lines|
  {
    if lines == [] then None
    else if IsLine(lines[0], userId, productId) then Some(0)
    else match FindLine(lines[1..], userId, productId)
      case None => None
      case Some(k) => Some(k + 1)
  }

  /** The total quantity the cart holds for the pair. */
  function Quantity(lines: seq<CartItem>, userId: string, productId: string): int
    decreases |lines|
  {
    if lines == [] then 0
    else
      var last := lines[|lines| - 1];
      Quantity(lines[..|lines| - 1], userId, productId) + (if IsLine(last, userId, productId) then last.quantity else 0)
  }

  /** How many lines the cart holds for the pair. */
  function LineCount(lines: seq<CartItem>, userId: string, productId: string): nat
    decreases |lines|
  {
    if lines == [] then 0
    else
      var last := lines[|lines| - 1];
      LineCount(lines[..|lines| - 1], userId, productId) + (if IsLine(last, userId, productId) then 1 else 0)
  }

  /** The line `addToCart` saves: the existing one with the quantity increased, or a new one. */
  function MergedLine(lines: seq<CartItem>, newId: string, userId: string, productId: string, quantity: int): CartItem {
    match FindLine(lines, userId, productId)
    case Some(k) => lines[k].(quantity := lines[k].quantity + quantity)
    case None => CartItem(newId, userId, productId, quantity)
  }

  /** The cart after a successful `addToCart`: the merged line replaces the existing one or is appended. */
  function Merge(lines: seq<CartItem>, newId: string, userId: string, productId: string, quantity: int): seq<CartItem> {
    match FindLine(lines, userId, productId)
    case Some(k) => lines[k := MergedLine(lines, newId, userId, productId, quantity)]
    case None => lines + [MergedLine(lines, newId, userId, productId, quantity)]
  }

  lemma {:induction false} QuantityAppend(lines: seq<CartItem>, x: CartItem, userId: string, productId: string)
    ensures Quantity(lines + [x], userId, productId) == Quantity(lines, userId, productId) + (if IsLine(x, userId, productId) then x.quantity else 0)
    ensures LineCount(lines + [x], userId, productId) == LineCount(lines, userId, productId) + (if IsLine(x, userId, productId) then 1 else 0)
  {
    assert (lines + [x])[..|lines|] == lines;
  }

  lemma {:induction false} QuantityUpdate(lines: seq<CartItem>, k: nat, x: CartItem, userId: string, productId: string)
    requires k < |lines|
    ensures Quantity(lines[k := x], userId, productId)
         == Quantity(lines, userId, productId)
            - (if IsLine(lines[k], userId, productId) then lines[k].quantity else 0)
            + (if IsLine(x, userId, productId) then x.quantity else 0)
    ensures LineCount(lines[k := x], userId, productId)
         == LineCount(lines, userId, productId)
            - (if IsLine(lines[k], userId, productId) then 1 else 0)
            + (if IsLine(x, userId, productId) then 1 else 0)
    decreases |lines|
  {
    var n := |lines|;
    var updated := lines[k := x];
    if k == n - 1 {
      assert updated[..n - 1] == lines[..n - 1];
    } else {
      assert updated[..n - 1] == lines[..n - 1][k := x];
      QuantityUpdate(lines[..n - 1], k, x, userId, productId);
    }
  }

  lemma {:induction false} NoLineNoQuantity(lines: seq<CartItem>, userId: string, productId: string)
    requires forall i :: 0 <= i < |lines| ==> !IsLine(lines[i], userId, productId)
    ensures Quantity(lines, userId, productId) == 0 && LineCount(lines, userId, productId) == 0
    decreases |lines|
  {
    if lines != [] {
      NoLineNoQuantity(lines[..|lines| - 1], userId, productId);
    }
  }

  /** With one line per pair, the count for a pair is one exactly when some line holds it. */
  lemma {:induction false} UniqueLineCount(lines: seq<CartItem>, userId: string, productId: string)
    requires UniquePairs(lines)
    ensures LineCount(lines, userId, productId) <= 1
    ensures LineCount(lines, userId, productId) == 1 <==> exists i :: 0 <= i < |lines| && IsLine(lines[i], userId, productId)
    decreases |lines|
  {
    if lines != [] {
      var n := |lines|;
      var init := lines[..n - 1];
      UniqueLineCount(init, userId, productId);
      if IsLine(lines[n - 1], userId, productId) {
        forall i | 0 <= i < |init|
          ensures !IsLine(init[i], userId, productId)
        {
          assert init[i] == lines[i];
        }
        NoLineNoQuantity(init, userId, productId);
      } else if LineCount(init, userId, productId) == 1 {
        var i :| 0 <= i < |init| && IsLine(init[i], userId, productId);
        assert lines[i] == init[i];
      } else {
        forall i | 0 <= i < n
          ensures !IsLine(lines[i], userId, productId)
        {
          if i < n - 1 {
            assert init[i] == lines[i];
          }
        }
      }
    }
  }

  /** A successful add keeps the cart well formed, so every line keeps a positive quantity. */
  lemma MergeWellFormed(lines: seq<CartItem>, newId: string, userId: string, productId: string, quantity: int)
    requires WellFormedCart(lines)
    requires quantity >= 1
    requires FindLine(lines, userId, productId).None? ==> newId !in LineIds(lines)
    ensures WellFormedCart(Merge(lines, newId, userId, productId, quantity))
  {
    var merged := Merge(lines, newId, userId, productId, quantity);
    match FindLine(lines, userId, productId)
    case Some(k) =>
      assert forall i :: 0 <= i < |lines| && i != k ==> merged[i] == lines[i];
    case None =>
      forall i | 0 <= i < |lines|
        ensures merged[i].id != newId
      {
        assert lines[i] in lines;
      }
  }

  /** A successful add grows the pair's quantity by the request and leaves exactly one line for the pair. */
  lemma MergeQuantity(lines: seq<CartItem>, newId: string, userId: string, productId: string, quantity: int)
    requires UniquePairs(lines)
    ensures UniquePairs(Merge(lines, newId, userId, productId, quantity))
    ensures Quantity(Merge(lines, newId, userId, productId, quantity), userId, productId)
         == Quantity(lines, userId, productId) + quantity
    ensures LineCount(Merge(lines, newId, userId, productId, quantity), userId, productId) == 1
  {
    var merged := Merge(lines, newId, userId, productId, quantity);
    var x := MergedLine(lines, newId, userId, productId, quantity);
    match FindLine(lines, userId, productId)
    case Some(k) =>
      assert forall i :: 0 <= i < |lines| && i != k ==> merged[i] == lines[i];
      QuantityUpdate(lines, k, x, userId, productId);
      UniqueLineCount(lines, userId, productId);
    case None =>
      QuantityAppend(lines, x, userId, productId);
      NoLineNoQuantity(lines, userId, productId);
  }

  /** A successful add leaves the quantity and line count of every other pair alone. */
  lemma MergeLeavesOthers(lines: seq<CartItem>, newId: string, userId: string, productId: string, quantity: int,
                          u: string, p: string)
    requires (u, p) != (userId, productId)
    ensures Quantity(Merge(lines, newId, userId, productId, quantity), u, p) == Quantity(lines, u, p)
    ensures LineCount(Merge(lines, newId, userId, productId, quantity), u, p) == LineCount(lines, u, p)
  {
    var x := MergedLine(lines, newId, userId, productId, quantity);
    match FindLine(lines, userId, productId)
    case Some(k) =>
      QuantityUpdate(lines, k, x, u, p);
    case None =>
      QuantityAppend(lines, x, u, p);
  }

  function Sum(qs: seq<int>): int
    decreases |qs|
  {
    if qs == [] then 0 else Sum(qs[..|qs| - 1]) + qs[|qs| - 1]
  }

  /** The cart after the adds `quantities` for one pair, each drawing its fresh line id from `ids`. */
  function MergeAll(lines: seq<CartItem>, ids: seq<string>, userId: string, productId: string, quantities: seq<int>): seq<CartItem>
    requires |ids| == |quantities|
    decreases |quantities|
  {
    if quantities == [] then lines
    else
      var n := |quantities|;
      Merge(MergeAll(lines, ids[..n - 1], userId, productId, quantities[..n - 1]), ids[n - 1], userId, productId, quantities[n - 1])
  }

  /** Repeated adds for the same (user, product) leave one line whose quantity is the sum of the requests. */
  lemma {:induction false} RepeatedAdds(lines: seq<CartItem>, ids: seq<string>, userId: string, productId: string, quantities: seq<int>)
    requires UniquePairs(lines)
    requires |ids| == |quantities|
    ensures UniquePairs(MergeAll(lines, ids, userId, productId, quantities))
    ensures Quantity(MergeAll(lines, ids, userId, productId, quantities), userId, productId)
         == Quantity(lines, userId, productId) + Sum(quantities)
    ensures quantities != [] ==> LineCount(MergeAll(lines, ids, userId, productId, quantities), userId, productId) == 1
    decreases |quantities|
  {
    if quantities != [] {
      var n := |quantities|;
      var prev := MergeAll(lines, ids[..n - 1], userId, productId, quantities[..n - 1]);
      RepeatedAdds(lines, ids[..n - 1], userId, productId, quantities[..n - 1]);
      MergeQuantity(prev, ids[n - 1], userId, productId, quantities[n - 1]);
      assert MergeAll(lines, ids, userId, productId, quantities) == Merge(prev, ids[n - 1], userId, productId, quantities[n - 1]);
    }
  }

  /** Clearing a cart empties that user's cart, leaves every other user's cart as it was, keeps the
      cart well formed, and a second clear changes nothing. */
  lemma ClearCartEffect(lines: seq<CartItem>, userId: string, other: string)
    requires other != userId
    ensures UserLines(WithoutUser(lines, userId), userId) == []
    ensures UserLines(WithoutUser(lines, userId), other) == UserLines(lines, other)
    ensures WithoutUser(WithoutUser(lines, userId), userId) == WithoutUser(lines, userId)
    ensures WellFormedCart(lines) ==> WellFormedCart(WithoutUser(lines, userId))
  {
    ClearedEmpty(lines, userId);
    ClearKeepsOthers(lines, userId, other);
    ClearAgain(lines, userId);
    if WellFormedCart(lines) {
      SubsequenceWellFormed(lines, userId);
    }
  }

  lemma {:induction false} ClearKeepsOthers(lines: seq<CartItem>, userId: string, other: string)
    requires other != userId
    ensures UserLines(WithoutUser(lines, userId), other) == UserLines(lines, other)
    decreases |lines|
  {
    if lines != [] {
      var n := |lines|;
      var init, last := lines[..n - 1], lines[n - 1];
      var rest := WithoutUser(init, userId);
      ClearKeepsOthers(init, userId, other);
      var tail := if last.userId == other then [last] else [];
      assert UserLines(lines, other) == UserLines(init, other) + tail;
      if last.userId != userId {
        var cleared := rest + [last];
        assert WithoutUser(lines, userId) == cleared;
        assert cleared[..|rest|] == rest && cleared[|rest|] == last;
        assert UserLines(cleared, other) == UserLines(rest, other) + tail;
      } else {
        assert WithoutUser(lines, userId) == rest;
      }
    }
  }

  lemma {:induction false} ClearedEmpty(lines: seq<CartItem>, userId: string)
    ensures UserLines(WithoutUser(lines, userId), userId) == []
    decreases |lines|
  {
    if lines != [] {
      var n := |lines|;
      var rest := WithoutUser(lines[..n - 1], userId);
      ClearedEmpty(lines[..n - 1], userId);
      if lines[n - 1].userId != userId {
        var cleared := rest + [lines[n - 1]];
        assert cleared[..|rest|] == rest && cleared[|rest|] == lines[n - 1];
      }
    }
  }

  lemma {:induction false} ClearAgain(lines: seq<CartItem>, userId: string)
    ensures WithoutUser(WithoutUser(lines, userId), userId) == WithoutUser(lines, userId)
    decreases |lines|
  {
    if lines != [] {
      var n := |lines|;
      var rest := WithoutUser(lines[..n - 1], userId);
      ClearAgain(lines[..n - 1], userId);
      if lines[n - 1].userId != userId {
        assert (rest + [lines[n - 1]])[..|rest|] == rest;
      }
    }
  }

  lemma {:induction false} SubsequenceWellFormed(lines: seq<CartItem>, userId: string)
    requires WellFormedCart(lines)
    ensures WellFormedCart(WithoutUser(lines, userId))
    decreases |lines|
  {
    if lines != [] {
      var n := |lines|;
      var init := lines[..n - 1];
      var last := lines[n - 1];
      assert WellFormedCart(init);
      SubsequenceWellFormed(init, userId);
      var rest := WithoutUser(init, userId);
      if last.userId != userId {
        assert last.quantity >= 1;
        forall i | 0 <= i < |rest|
          ensures rest[i].id != last.id
          ensures rest[i].userId == last.userId ==> rest[i].productId != last.productId
        {
          assert rest[i] in init;
          var a :| 0 <= a < |init| && init[a] == rest[i];
          assert lines[a] == rest[i];
        }
        AppendWellFormed(rest, last);
        assert WithoutUser(lines, userId) == rest + [last];
      } else {
        assert WithoutUser(lines, userId) == rest;
      }
    }
  }

  /** A line whose id and pair are new may be appended to a well-formed cart. */
  lemma AppendWellFormed(lines: seq<CartItem>, x: CartItem)
    requires WellFormedCart(lines) && x.quantity >= 1
    requires forall i :: 0 <= i < |lines| ==> lines[i].id != x.id
    requires forall i :: 0 <= i < |lines| && lines[i].userId == x.userId ==> lines[i].productId != x.productId
    ensures WellFormedCart(lines + [x])
  {
    var all := lines + [x];
    assert forall i :: 0 <= i < |lines| ==> all[i] == lines[i];
  }

  /** The lines of one user in a well-formed cart name distinct products and have positive quantities. */
  lemma {:induction false} UserLinesDistinctProducts(lines: seq<CartItem>, userId: string)
    requires WellFormedCart(lines)
    ensures forall i, j :: 0 <= i < j < |UserLines(lines, userId)| ==>
              UserLines(lines, userId)[i].productId != UserLines(lines, userId)[j].productId
    ensures forall i :: 0 <= i < |UserLines(lines, userId)| ==> UserLines(lines, userId)[i].quantity >= 1
    decreases |lines|
  {
    if lines != [] {
      var n := |lines|;
      var init := lines[..n - 1];
      var last := lines[n - 1];
      assert WellFormedCart(init);
      UserLinesDistinctProducts(init, userId);
      var mine := UserLines(init, userId);
      forall i | 0 <= i < |mine|
        ensures last.userId == userId ==> mine[i].productId != last.productId
      {
        assert mine[i] in init;
        var a :| 0 <= a < |init| && init[a] == mine[i];
        assert lines[a] == mine[i];
      }
    }
  }

  datatype ProductSummary = ProductSummary(id: string, name: string, price: int)

  /** One entry of `getCartWithProducts`; `product` is omitted when the product no longer exists. */
  datatype CartEntry = CartEntry(id: string, productId: string, quantity: int, product: Option<ProductSummary>)

  class CartService {
    var lines: seq<CartItem>
    const inventory: Inventory.ProductService

    ghost predicate Valid()
      reads this
    {
      WellFormedCart(lines)
    }

    constructor (inventory: Inventory.ProductService)
      ensures Valid() && lines == [] && this.inventory == inventory
    {
      lines := [];
      this.inventory := inventory;
    }

    /** `addToCart`: rejects an unknown product or a request above the live stock (the increment alone is
        compared, not the merged total); otherwise merges into the pair's line or appends a new one. */
    method AddToCart(userId: string, productId: string, quantity: int) returns (r: Result<CartItem>)
      requires Valid()
      requires quantity > 0
      modifies this
      ensures Valid()
      ensures inventory.products == old(inventory.products)
      ensures productId !in inventory.products ==> r == Err(ProductNotFound(productId)) && lines == old(lines)
      ensures productId in inventory.products && inventory.products[productId].stock < quantity ==>
                r == Err(NotEnoughStock(inventory.products[productId].stock)) && lines == old(lines)
      ensures productId in inventory.products && inventory.products[productId].stock >= quantity ==>
                && r.Ok?
                && (FindLine(old(lines), userId, productId).None? ==> r.value.id !in LineIds(old(lines)))
                && r.value == MergedLine(old(lines), r.value.id, userId, productId, quantity)
                && lines == Merge(old(lines), r.value.id, userId, productId, quantity)
                && Quantity(lines, userId, productId) == Quantity(old(lines), userId, productId) + quantity
                && LineCount(lines, userId, productId) == 1
    {
      var product := inventory.GetProductById(productId);
      if product.None? {
        return Err(ProductNotFound(productId));
      }
      if product.value.stock < quantity {
        return Err(NotEnoughStock(product.value.stock));
      }
      var existing := FindLine(lines, userId, productId);
      var item: CartItem;
      if existing.Some? {
        item := lines[existing.value].(quantity := lines[existing.value].quantity + quantity);
        lines := lines[existing.value := item];
      } else {
        var id := FreshId(LineIds(lines));
        item := CartItem(id, userId, productId, quantity);
        lines := lines + [item];
      }
      r := Ok(item);
      MergeWellFormed(old(lines), item.id, userId, productId, quantity);
      MergeQuantity(old(lines), item.id, userId, productId, quantity);
    }

    /** `getUserCart`: the user's lines, in stored order. */
    function GetUserCart(userId: string): (r: seq<CartItem>)
      reads this
      ensures forall x :: x in r <==> x in lines && x.userId == userId
      ensures Inventory.IsSubsequence(r, lines)
      ensures Valid() ==> forall i, j :: 0 <= i < j < |r| ==> r[i].productId != r[j].productId
    {
      assert Valid() ==> forall i, j :: 0 <= i < j < |UserLines(lines, userId)| ==>
                           UserLines(lines, userId)[i].productId != UserLines(lines, userId)[j].productId by {
        if Valid() {
          UserLinesDistinctProducts(lines, userId);
        }
      }
      UserLinesInOrder(lines, userId);
      UserLines(lines, userId)
    }

    /** `clearCart`: deletes the user's lines and only those. */
    method ClearCart(userId: string)
      requires Valid()
      modifies this
      ensures Valid()
      ensures lines == WithoutUser(old(lines), userId)
    {
      SubsequenceWellFormed(lines, userId);
      lines := WithoutUser(lines, userId);
    }

    /** `getCartWithProducts`: one entry per line of the user's cart, in order, with the product's id,
        name and price exactly when the product exists. */
    function GetCartWithProducts(userId: string): (r: seq<CartEntry>)
      reads this, inventory
      ensures |r| == |UserLines(lines, userId)|
      ensures forall i :: 0 <= i < |r| ==>
                var line := UserLines(lines, userId)[i];
                && r[i].id == line.id && r[i].productId == line.productId && r[i].quantity == line.quantity
                && (r[i].product.Some? <==> line.productId in inventory.products)
                && (r[i].product.Some? ==>
                     var p := inventory.products[line.productId];
                     r[i].product.value == ProductSummary(p.id, p.name, p.price))
    {
      var mine, products := UserLines(lines, userId), inventory.products;
      seq(|mine|, i requires 0 <= i < |mine| =>
        var line := mine[i];
        CartEntry(line.id, line.productId, line.quantity,
                  if line.productId in products
                  then Some(ProductSummary(products[line.productId].id, products[line.productId].name, products[line.productId].price))
                  else None))
    }
  }

  /** Java `int` addition, which wraps modulo 2^32. */
  function Int32Add(a: int, b: int): int {
    (a + b + 0x8000_0000) % 0x1_0000_0000 - 0x8000_0000
  }

  /** The merged quantity as `cartItem.getQuantity() + request.getQuantity()` computes it on `Integer`. */
  function MergedQuantityAsWritten(current: int, requested: int): int {
    Int32Add(current, requested)
  }

  /** Two adds of 2,000,000,000 against a stock of 2,000,000,000 each pass the stock check, yet the
      merged quantity wraps to a negative number. */
  lemma QuantityOverflowWitness()
    ensures var stock, q := 2_000_000_000, 2_000_000_000;
            !(stock < q) && MergedQuantityAsWritten(q, q) == -294_967_296 && MergedQuantityAsWritten(q, q) < 1
  {
  }
}
