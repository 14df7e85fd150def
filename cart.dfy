/** The cart page: a list of cart lines held in one state field, the
    handlers that replace it, and the subtotal folded over it. Prices are
    integer cents. */
module CartPage {

  /** One cart line: `{id, barcode, name, price, image_url, quantity}`. */
  datatype Line = Line(
    id: string,
    barcode: string,
    name: string,
    price: nat,        // cents
    imageUrl: string,
    quantity: int)

  /** The three lines the page starts with. */
  const InitialCartItems: seq<Line> := [
    Line("1", "7891234567890", "Organic Banana Bundle", 499,
         "https://images.unsplash.com/photo-1528825871115-3581a5387919?q=80&w=800&auto=format&fit=crop", 1),
    Line("2", "7891234567891", "Fresh Milk 1L", 249,
         "https://images.unsplash.com/photo-1563636619-e9143da7973b?q=80&w=800&auto=format&fit=crop", 2),
    Line("3", "7891234567893", "Free Range Eggs (12pk)", 599,
         "https://images.unsplash.com/photo-1506976785307-8732e854ad03?q=80&w=800&auto=format&fit=crop", 1)
  ]

  /** Every line has quantity at least 1. */
  ghost predicate QuantitiesPositive(lines: seq<Line>) {
    forall i :: 0 <= i < |lines| ==> lines[i].quantity >= 1
  }

  /** Some line carries `id`. */
  ghost predicate HasId(lines: seq<Line>, id: string) {
    exists i :: 0 <= i < |lines| && lines[i].id == id
  }

  // ---------------------------------------------------------------------
  // updateQuantity: `cartItems.map(item => item.id === id ? {...item, quantity} : item)`

  /** The list after every line whose `id` matches has its quantity rewritten. */
  function SetQuantity(lines: seq<Line>, id: string, quantity: int): (r: seq<Line>)
    ensures |r| == |lines|
    ensures forall i :: 0 <= i < |lines| && lines[i].id == id ==>
      r[i] == lines[i].(quantity := quantity)
    ensures forall i :: 0 <= i < |lines| && lines[i].id != id ==> r[i] == lines[i]
  {
    if lines == [] then []
    else
      var head := if lines[0].id == id then lines[0].(quantity := quantity) else lines[0];
      [head] + SetQuantity(lines[1..], id, quantity)
  }

  /** Rewriting quantities to a value of at least 1 keeps all quantities at least 1. */
  lemma SetQuantityKeepsPositive(lines: seq<Line>, id: string, quantity: int)
    requires QuantitiesPositive(lines) && quantity >= 1
    ensures QuantitiesPositive(SetQuantity(lines, id, quantity))
  {
  }

  /** An id that no line carries leaves the list as it was. */
  lemma SetQuantityAbsentId(lines: seq<Line>, id: string, quantity: int)
    requires !HasId(lines, id)
    ensures SetQuantity(lines, id, quantity) == lines
  {
  }

  // ---------------------------------------------------------------------
  // removeFromCart: `cartItems.filter(item => item.id !== id)`

  /** The lines whose `id` differs, in their original order. */
  function RemoveId(lines: seq<Line>, id: string): (r: seq<Line>)
    ensures |r| <= |lines|
    ensures forall l :: l in r <==> l in lines && l.id != id
  {
    if lines == [] then []
    else if lines[0].id == id then RemoveId(lines[1..], id)
    else [lines[0]] + RemoveId(lines[1..], id)
  }

  /** Removal works line by line: filtering a concatenation is the
      concatenation of the filtered parts, so the relative order of the lines
      that stay is the original one. */
  lemma {:induction false} RemoveIdAppend(a: seq<Line>, b: seq<Line>, id: string)
    ensures RemoveId(a + b, id) == RemoveId(a, id) + RemoveId(b, id)
  {
    if a == [] {
      assert a + b == b;
    } else {
      assert (a + b)[1..] == a[1..] + b;
      RemoveIdAppend(a[1..], b, id);
    }
  }

  /** Removing an id that no line carries leaves the list as it was. */
  lemma {:induction false} RemoveIdAbsent(lines: seq<Line>, id: string)
    requires !HasId(lines, id)
    ensures RemoveId(lines, id) == lines
  {
    if lines != [] {
      assert !HasId(lines[1..], id) by {
        forall i | 0 <= i < |lines[1..]| ensures lines[1..][i].id != id {
          assert lines[1..][i] == lines[i + 1];
        }
      }
      RemoveIdAbsent(lines[1..], id);
    }
  }

  /** After removal no line carries the id, and quantities stay positive. */
  lemma RemoveIdNoneLeft(lines: seq<Line>, id: string)
    ensures !HasId(RemoveId(lines, id), id)
    ensures QuantitiesPositive(lines) ==> QuantitiesPositive(RemoveId(lines, id))
  {
    var r := RemoveId(lines, id);
    forall i | 0 <= i < |r| ensures r[i].id != id && r[i] in lines {
      assert r[i] in r;
    }
  }

  // ---------------------------------------------------------------------
  // calculateSubtotal: `cartItems.reduce((total, item) => total + item.price * item.quantity, 0)`

  function LineTotal(line: Line): int {
    line.price * line.quantity
  }

  /** The `reduce` callback applied from the left, starting from `total`. */
  function Reduce(total: int, lines: seq<Line>): int
    decreases lines
  {
    if lines == [] then total else Reduce(total + LineTotal(lines[0]), lines[1..])
  }

  /** `calculateSubtotal`, in cents. */
  function Subtotal(lines: seq<Line>): int {
    Reduce(0, lines)
  }

  /** Reference definition: the sum of price × quantity over the lines. */
  function Sum(lines: seq<Line>): int {
    if lines == [] then 0 else LineTotal(lines[0]) + Sum(lines[1..])
  }

  /** Folding from the left adds the sum of the lines to the start value. */
  lemma {:induction false} ReduceIsSum(total: int, lines: seq<Line>)
    ensures Reduce(total, lines) == total + Sum(lines)
    decreases lines
  {
    if lines != [] {
      ReduceIsSum(total + LineTotal(lines[0]), lines[1..]);
    }
  }

  lemma {:induction false} SumAppend(a: seq<Line>, b: seq<Line>)
    ensures Sum(a + b) == Sum(a) + Sum(b)
  {
    if a == [] {
      assert a + b == b;
    } else {
      assert (a + b)[1..] == a[1..] + b;
      SumAppend(a[1..], b);
    }
  }

  /** The subtotal is the sum of price × quantity: zero for no lines, and
      additive over concatenation. */
  lemma SubtotalIsSum(a: seq<Line>, b: seq<Line>)
    ensures Subtotal(a) == Sum(a)
    ensures Subtotal([]) == 0
    ensures Subtotal(a + b) == Subtotal(a) + Subtotal(b)
  {
    ReduceIsSum(0, a);
    ReduceIsSum(0, b);
    ReduceIsSum(0, a + b);
    SumAppend(a, b);
  }

  /** With every quantity at least 1 (prices are never negative), the
      subtotal is never negative. */
  lemma {:induction false} SubtotalNonNegative(lines: seq<Line>)
    requires QuantitiesPositive(lines)
    ensures Subtotal(lines) >= 0
  {
    ReduceIsSum(0, lines);
    SumNonNegative(lines);
  }

  lemma {:induction false} SumNonNegative(lines: seq<Line>)
    requires QuantitiesPositive(lines)
    ensures Sum(lines) >= 0
  {
    if lines != [] {
      assert QuantitiesPositive(lines[1..]) by {
        forall i | 0 <= i < |lines[1..]| ensures lines[1..][i].quantity >= 1 {
          assert lines[1..][i] == lines[i + 1];
        }
      }
      SumNonNegative(lines[1..]);
    }
  }

  /** The starting cart totals 4.99 × 1 + 2.49 × 2 + 5.99 × 1 = 15.96. */
  lemma InitialSubtotal()
    ensures Subtotal(InitialCartItems) == 1596
  {
    var s := InitialCartItems;
    assert Reduce(0, s) == Reduce(499, s[1..]) == Reduce(997, s[2..]) == Reduce(1596, s[3..]);
    assert s[3..] == [];
  }

  // ---------------------------------------------------------------------

  /** The `Cart` component's `cartItems` state and the handlers that replace it. */
  class Cart {
    var cartItems: seq<Line>

    /** The page keeps every quantity at least 1. */
    ghost predicate Valid()
      reads this
    {
      QuantitiesPositive(cartItems)
    }

    constructor ()
      ensures cartItems == InitialCartItems
      ensures Valid()
    {
      cartItems := InitialCartItems;
    }

    /** `calculateSubtotal` as the page calls it, over its current lines:
        the sum of price × quantity, never negative while the page keeps
        its quantities at least 1. */
    function CalculateSubtotal(): (total: int)
      reads this
      ensures total == Sum(cartItems)
      ensures Valid() ==> total >= 0
    {
      ReduceIsSum(0, cartItems);
      assert Valid() ==> Subtotal(cartItems) >= 0 by {
        if Valid() { SubtotalNonNegative(cartItems); }
      }
      Subtotal(cartItems)
    }

    /** `updateQuantity(id, newQuantity)`. */
    method UpdateQuantity(id: string, newQuantity: int)
      modifies this
      ensures newQuantity < 1 ==> cartItems == old(cartItems)
      ensures newQuantity >= 1 ==> cartItems == SetQuantity(old(cartItems), id, newQuantity)
      ensures old(Valid()) ==> Valid()
    {
      if newQuantity < 1 {
        return;
      }
      cartItems := SetQuantity(cartItems, id, newQuantity);
    }

    /** `removeFromCart(id)`; the notification is not modelled. */
    method RemoveFromCart(id: string)
      modifies this
      ensures cartItems == RemoveId(old(cartItems), id)
      ensures !HasId(cartItems, id)
      ensures !HasId(old(cartItems), id) ==> cartItems == old(cartItems)
      ensures old(Valid()) ==> Valid()
    {
      RemoveIdNoneLeft(cartItems, id);
      if !HasId(cartItems, id) {
        RemoveIdAbsent(cartItems, id);
      }
      cartItems := RemoveId(cartItems, id);
    }

    /** `handleCheckout`: the order is placed and the cart emptied. */
    method HandleCheckout()
      modifies this
      ensures cartItems == [] && Subtotal(cartItems) == 0
      ensures Valid()
    {
      cartItems := [];
    }
  }
}
