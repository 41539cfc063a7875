/** The landing page, `app/page.tsx`: a fixed menu, a category selector and a
    cart keyed by item name whose lines are the item spread with a quantity and
    notes. Every operation builds a new list. */
module HomePage {
  import opened Wrappers
  import opened Constants
  import opened Types
  import opened Catalog
  import Seqs

  /** `{ ...item, cantidad, observaciones }`. */
  datatype HomeLine = HomeLine(item: Item, cantidad: int, observaciones: string)

  /** The page's built-in menu, prices in cents. */
  const MENU_ITEMS: seq<Item> := [
    Item(None, "Ensalada César", ENTRADA,
      "Lechuga fresca, crutones crujientes, queso parmesano y aderezo césar casero", 1299, true),
    Item(None, "Pasta Carbonara", PLATO_PRINCIPAL,
      "Pasta fresca con salsa carbonara cremosa, panceta y queso parmesano", 1899, true),
    Item(None, "Pizza Margherita", PLATO_PRINCIPAL,
      "Pizza artesanal con tomate san marzano, mozzarella fresca y albahaca", 1699, true),
    Item(None, "Hamburguesa Premium", PLATO_PRINCIPAL,
      "Carne angus, queso cheddar, bacon, lechuga, tomate y papas fritas", 1599, true),
    Item(None, "Tiramisú", POSTRES,
      "Postre italiano tradicional con café, mascarpone y cacao", 899, true),
    Item(None, "Cheesecake de Fresa", POSTRES,
      "Tarta de queso cremosa con coulis de fresas frescas", 999, true),
    Item(None, "Limonada Natural", BEBIDAS,
      "Limonada fresca con hierbabuena y hielo", 499, true),
    Item(None, "Smoothie Tropical", BEBIDAS,
      "Batido de mango, piña y maracuyá con yogurt", 699, true)
  ]

  ghost predicate UniqueNames(cart: seq<HomeLine>)
  {
    forall i, j :: 0 <= i < j < |cart| ==> cart[i].item.nombre != cart[j].item.nombre
  }

  ghost predicate AllPositive(cart: seq<HomeLine>)
  {
    forall k :: 0 <= k < |cart| ==> cart[k].cantidad >= 1
  }

  predicate HasLine(cart: seq<HomeLine>, nombre: string)
  {
    exists k :: 0 <= k < |cart| && cart[k].item.nombre == nombre
  }

  /** `filteredItems` for the selected category. */
  function FilteredItems(f: CategoryFilter): (r: seq<Item>)
    ensures f == TODOS ==> r == MENU_ITEMS
    ensures f.Only? ==> forall x :: x in r <==> x in MENU_ITEMS && x.categoria == f.categoria
  {
    FilterByCategory(MENU_ITEMS, f)
  }

  /** `addToCart(item)`: a line with that name gets one more unit; otherwise a line
      of one unit with empty notes is appended. */
  function AddToCart(cart: seq<HomeLine>, item: Item): (r: seq<HomeLine>)
    ensures HasLine(cart, item.nombre) ==> |r| == |cart| && forall k :: 0 <= k < |cart| ==>
      r[k] == if cart[k].item.nombre == item.nombre then cart[k].(cantidad := cart[k].cantidad + 1) else cart[k]
    ensures !HasLine(cart, item.nombre) ==> r == cart + [HomeLine(item, 1, "")]
  {
    if HasLine(cart, item.nombre) then
      seq(|cart|, k requires 0 <= k < |cart| =>
        if cart[k].item.nombre == item.nombre then cart[k].(cantidad := cart[k].cantidad + 1) else cart[k])
    else
      cart + [HomeLine(item, 1, "")]
  }

  function Max(a: int, b: int): int
  {
    if a >= b then a else b
  }

  /** The `map` step of `updateQuantity`: lines with that name get max(1, cantidad + delta). */
  function Clamped(cart: seq<HomeLine>, nombre: string, delta: int): (r: seq<HomeLine>)
    ensures |r| == |cart|
    ensures forall k :: 0 <= k < |cart| && cart[k].item.nombre != nombre ==> r[k] == cart[k]
    ensures forall k :: 0 <= k < |cart| && cart[k].item.nombre == nombre ==>
      r[k] == cart[k].(cantidad := Max(1, cart[k].cantidad + delta)) && r[k].cantidad >= 1
  {
    seq(|cart|, k requires 0 <= k < |cart| =>
      if cart[k].item.nombre == nombre then cart[k].(cantidad := Max(1, cart[k].cantidad + delta)) else cart[k])
  }

  /** `updateQuantity(nombre, delta)`: the clamped map followed by `filter(l => l.cantidad > 0)`.
      No line of the result is empty, and on a cart of positive quantities the
      filter removes nothing. */
  function UpdateQuantity(cart: seq<HomeLine>, nombre: string, delta: int): (r: seq<HomeLine>)
    ensures forall k :: 0 <= k < |r| ==> r[k].cantidad >= 1
    ensures forall k :: 0 <= k < |r| ==> r[k] in Clamped(cart, nombre, delta)
    ensures AllPositive(cart) ==> r == Clamped(cart, nombre, delta)
  {
    Seqs.Filter(Clamped(cart, nombre, delta), (l: HomeLine) => l.cantidad > 0)
  }

  /** `removeFromCart(nombre)`. */
  function RemoveFromCart(cart: seq<HomeLine>, nombre: string): (r: seq<HomeLine>)
    ensures forall k :: 0 <= k < |r| ==> r[k].item.nombre != nombre && r[k] in cart
    ensures forall k :: 0 <= k < |cart| && cart[k].item.nombre != nombre ==> cart[k] in r
  {
    Seqs.Filter(cart, (l: HomeLine) => l.item.nombre != nombre)
  }

  /** The notes input's change handler: lines with that name get the new text. */
  function SetNotes(cart: seq<HomeLine>, nombre: string, text: string): (r: seq<HomeLine>)
    ensures |r| == |cart|
    ensures forall k :: 0 <= k < |cart| ==>
      r[k] == if cart[k].item.nombre == nombre then cart[k].(observaciones := text) else cart[k]
  {
    seq(|cart|, k requires 0 <= k < |cart| =>
      if cart[k].item.nombre == nombre then cart[k].(observaciones := text) else cart[k])
  }

  /** What one line adds to `cartTotal`: its price times its quantity. */
  function Amount(l: HomeLine): int
  {
    l.item.precio * l.cantidad
  }

  /** `cartTotal`: the sum of price x quantity over the lines; 0 for an empty cart,
      and when no line's amount is negative, a total no single line exceeds. */
  function CartTotal(cart: seq<HomeLine>): (t: int)
    ensures cart == [] ==> t == 0
    ensures (forall k :: 0 <= k < |cart| ==> Amount(cart[k]) >= 0) ==>
      t >= 0 && forall k :: 0 <= k < |cart| ==> Amount(cart[k]) <= t
  {
    if cart == [] then
      0
    else
      var rest := cart[1..];
      assert forall k :: 0 <= k < |rest| ==> rest[k] == cart[k + 1];
      Amount(cart[0]) + CartTotal(rest)
  }

  /** `total`: the cart total plus the 5.00 delivery fee. */
  function Total(cart: seq<HomeLine>): (t: int)
    ensures t - DELIVERY_FEE == CartTotal(cart)
  {
    CartTotal(cart) + DELIVERY_FEE
  }

  /** On a cart whose lines all hold a unit or more, `updateQuantity` keeps every
      line: the clamp keeps the touched lines at one or more, so the trailing filter
      removes nothing, and the positivity invariant survives. */
  lemma UpdateQuantityRemovesNothing(cart: seq<HomeLine>, nombre: string, delta: int)
    requires AllPositive(cart)
    ensures UpdateQuantity(cart, nombre, delta) == Clamped(cart, nombre, delta)
    ensures |UpdateQuantity(cart, nombre, delta)| == |cart|
    ensures AllPositive(UpdateQuantity(cart, nombre, delta))
  {
    var c := Clamped(cart, nombre, delta);
    assert forall k :: 0 <= k < |c| ==> c[k].cantidad > 0;
  }

  /** Adding keeps one line per name and at least one unit per line. */
  lemma AddKeepsInvariants(cart: seq<HomeLine>, item: Item)
    requires UniqueNames(cart) && AllPositive(cart)
    ensures UniqueNames(AddToCart(cart, item)) && AllPositive(AddToCart(cart, item))
  {
    var a := AddToCart(cart, item);
    if !HasLine(cart, item.nombre) {
      forall i, j | 0 <= i < j < |a| ensures a[i].item.nombre != a[j].item.nombre {
        if j == |cart| { assert a[i] == cart[i]; }
      }
    }
  }

  /** Changing a quantity keeps one line per name and at least one unit per line. */
  lemma UpdateKeepsInvariants(cart: seq<HomeLine>, nombre: string, delta: int)
    requires UniqueNames(cart) && AllPositive(cart)
    ensures UniqueNames(UpdateQuantity(cart, nombre, delta)) && AllPositive(UpdateQuantity(cart, nombre, delta))
  {
    UpdateQuantityRemovesNothing(cart, nombre, delta);
    var c := Clamped(cart, nombre, delta);
    forall i, j | 0 <= i < j < |c| ensures c[i].item.nombre != c[j].item.nombre {
      assert c[i].item == cart[i].item && c[j].item == cart[j].item;
    }
  }

  /** Removing keeps one line per name and at least one unit per line. */
  lemma RemoveKeepsInvariants(cart: seq<HomeLine>, nombre: string)
    requires UniqueNames(cart) && AllPositive(cart)
    ensures UniqueNames(RemoveFromCart(cart, nombre)) && AllPositive(RemoveFromCart(cart, nombre))
  {
    FilterKeepsUnique(cart, (l: HomeLine) => l.item.nombre != nombre);
    var r := RemoveFromCart(cart, nombre);
    forall k | 0 <= k < |r| ensures r[k].cantidad >= 1 {
      assert r[k] in cart;
    }
  }

  /** Editing notes keeps one line per name and at least one unit per line. */
  lemma NotesKeepInvariants(cart: seq<HomeLine>, nombre: string, text: string)
    requires UniqueNames(cart) && AllPositive(cart)
    ensures UniqueNames(SetNotes(cart, nombre, text)) && AllPositive(SetNotes(cart, nombre, text))
  {
    var n := SetNotes(cart, nombre, text);
    forall i, j | 0 <= i < j < |n| ensures n[i].item.nombre != n[j].item.nombre {
      assert n[i].item == cart[i].item && n[j].item == cart[j].item;
    }
  }

  /** A filtered cart keeps one line per name. */
  lemma {:induction false} FilterKeepsUnique(cart: seq<HomeLine>, p: HomeLine -> bool)
    requires UniqueNames(cart)
    ensures UniqueNames(Seqs.Filter(cart, p))
  {
    if cart != [] {
      var rest := cart[1..];
      assert UniqueNames(rest) by {
        forall i, j | 0 <= i < j < |rest| ensures rest[i].item.nombre != rest[j].item.nombre {
          assert rest[i] == cart[i + 1] && rest[j] == cart[j + 1];
        }
      }
      FilterKeepsUnique(rest, p);
      var fr := Seqs.Filter(rest, p);
      if p(cart[0]) {
        forall m | 0 <= m < |rest| ensures rest[m].item.nombre != cart[0].item.nombre {
          assert rest[m] == cart[m + 1];
        }
        PrependKeepsUnique(cart[0], rest, fr);
      }
    }
  }

  /** A line whose name no line of `rest` has, put in front of lines taken from
      `rest` with unique names, keeps the names unique. */
  lemma PrependKeepsUnique(h: HomeLine, rest: seq<HomeLine>, fr: seq<HomeLine>)
    requires UniqueNames(fr)
    requires forall k :: 0 <= k < |fr| ==> fr[k] in rest
    requires forall m :: 0 <= m < |rest| ==> rest[m].item.nombre != h.item.nombre
    ensures UniqueNames([h] + fr)
  {
    var r := [h] + fr;
    forall i, j | 0 <= i < j < |r| ensures r[i].item.nombre != r[j].item.nombre {
      if i == 0 {
        assert r[j] == fr[j - 1] && fr[j - 1] in rest;
      } else {
        assert r[i] == fr[i - 1] && r[j] == fr[j - 1];
      }
    }
  }

  /** With one line per name, removing a name present at k deletes exactly that
      line and keeps the others in order. */
  lemma RemoveDeletesTheLine(cart: seq<HomeLine>, k: nat)
    requires UniqueNames(cart) && k < |cart|
    ensures RemoveFromCart(cart, cart[k].item.nombre) == cart[..k] + cart[k + 1..]
  {
    var nombre := cart[k].item.nombre;
    forall j | 0 <= j < |cart| && j != k ensures cart[j].item.nombre != nombre {
      if j < k { assert cart[j].item.nombre != cart[k].item.nombre; }
      else { assert cart[k].item.nombre != cart[j].item.nombre; }
    }
    Seqs.FilterDeletesOne(cart, (l: HomeLine) => l.item.nombre != nombre, k);
  }

  lemma {:induction false} CartTotalAppend(a: seq<HomeLine>, b: seq<HomeLine>)
    ensures CartTotal(a + b) == CartTotal(a) + CartTotal(b)
  {
    if a == [] {
      assert a + b == b;
    } else {
      assert (a + b)[1..] == a[1..] + b;
      CartTotalAppend(a[1..], b);
    }
  }

  /** Adding a new name raises the total by that item's price; adding a present
      name raises it by the price stored on that line. */
  lemma {:induction false} AddToCartTotal(cart: seq<HomeLine>, item: Item)
    requires UniqueNames(cart)
    ensures !HasLine(cart, item.nombre) ==> CartTotal(AddToCart(cart, item)) == CartTotal(cart) + item.precio
    ensures forall k :: 0 <= k < |cart| && cart[k].item.nombre == item.nombre ==>
      CartTotal(AddToCart(cart, item)) == CartTotal(cart) + cart[k].item.precio
  {
    if !HasLine(cart, item.nombre) {
      CartTotalAppend(cart, [HomeLine(item, 1, "")]);
    } else {
      forall k | 0 <= k < |cart| && cart[k].item.nombre == item.nombre
        ensures CartTotal(AddToCart(cart, item)) == CartTotal(cart) + cart[k].item.precio
      {
        BumpTotal(cart, item.nombre, k);
      }
    }
  }

  /** Bumping the only line named `nombre`, at k, adds that line's price to the total. */
  lemma {:induction false} BumpTotal(cart: seq<HomeLine>, nombre: string, k: nat)
    requires UniqueNames(cart) && k < |cart| && cart[k].item.nombre == nombre
    ensures var r := seq(|cart|, j requires 0 <= j < |cart| =>
              if cart[j].item.nombre == nombre then cart[j].(cantidad := cart[j].cantidad + 1) else cart[j]);
            CartTotal(r) == CartTotal(cart) + cart[k].item.precio
  {
    var r := seq(|cart|, j requires 0 <= j < |cart| =>
      if cart[j].item.nombre == nombre then cart[j].(cantidad := cart[j].cantidad + 1) else cart[j]);
    var tail := cart[1..];
    var rtail := seq(|tail|, j requires 0 <= j < |tail| =>
      if tail[j].item.nombre == nombre then tail[j].(cantidad := tail[j].cantidad + 1) else tail[j]);
    assert r[1..] == rtail;
    if k == 0 {
      assert Amount(r[0]) == cart[0].item.precio * (cart[0].cantidad + 1) == Amount(cart[0]) + cart[0].item.precio;
      assert rtail == tail by {
        forall j | 0 <= j < |tail| ensures rtail[j] == tail[j] {
          assert tail[j] == cart[j + 1];
        }
      }
    } else {
      assert UniqueNames(tail) by {
        forall i, j | 0 <= i < j < |tail| ensures tail[i].item.nombre != tail[j].item.nombre {
          assert tail[i] == cart[i + 1] && tail[j] == cart[j + 1];
        }
      }
      assert r[0] == cart[0];
      BumpTotal(tail, nombre, k - 1);
    }
  }
}
