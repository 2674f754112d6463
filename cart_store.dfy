/**
 * The shopping cart (src/stores/cartStore.js): a list of line items keyed by
 * their `_id`, mirrored into the browser's key-value storage under a key
 * derived from the stored username.
 *
 * The list transforms (`find`, `map`, `filter`, spread) are pure functions
 * here; the store itself is a class whose `items` field is the store cell
 * and whose `storage` field holds the cart entries of the key-value storage.
 * The value of the `username` storage entry at the time of a call is the
 * parameter `user` of each operation. A stored cart is kept as the list it
 * encodes: `JSON.parse(JSON.stringify(items))` is taken to give `items` back.
 */
module CartStore {
  import opened Common

  /** A line item: its `_id`, its `quantity` and every other field, unchanged by the cart. */
  datatype Item = Item(id: string, quantity: int, details: map<string, string>)

  const CartPrefix := "cart_"
  const GuestKey := "cart_guest"

  /** `getCartKey`: `cart_<username>` for a stored non-empty username, `cart_guest` otherwise. */
  function CartKey(user: Option<string>): (key: string)
    ensures |key| > |CartPrefix| && key[..|CartPrefix|] == CartPrefix
  {
    if user.Some? && user.value != "" then CartPrefix + user.value else GuestKey
  }

  /** The cart stored under `key`, or the empty cart when the key holds nothing (`getStoredCart`). */
  function StoredCart(storage: map<string, seq<Item>>, key: string): seq<Item> {
    if key in storage then storage[key] else []
  }

  predicate HasId(items: seq<Item>, id: string) {
    exists k :: 0 <= k < |items| && items[k].id == id
  }

  /** No two line items share an `_id`. */
  predicate UniqueIds(items: seq<Item>) {
    forall i, j :: 0 <= i < j < |items| ==> items[i].id != items[j].id
  }

  /** `items.map(i => i._id === id ? { ...i, quantity: i.quantity + 1 } : i)`. */
  function Incremented(items: seq<Item>, id: string): (r: seq<Item>)
    ensures |r| == |items|
  {
    seq(|items|, k requires 0 <= k < |items| =>
      if items[k].id == id then items[k].(quantity := items[k].quantity + 1) else items[k])
  }

  /** The list `addItem` computes: bump an existing entry, or append the item with quantity 1. */
  function WithItemAdded(items: seq<Item>, item: Item): seq<Item> {
    if HasId(items, item.id) then Incremented(items, item.id)
    else items + [item.(quantity := 1)]
  }

  /** The list `removeItem` computes: `items.filter(i => i._id !== id)`. */
  function WithoutId(items: seq<Item>, id: string): (r: seq<Item>)
    ensures |r| <= |items|
    ensures !HasId(r, id)
    ensures !HasId(items, id) ==> r == items
  {
    if items == [] then []
    else
      var rest := WithoutId(items[1..], id);
      if items[0].id == id then rest else [items[0]] + rest
  }

  /** The list `updateQuantity` computes: `items.map(i => i._id === id ? { ...i, quantity } : i)`. */
  function WithQuantity(items: seq<Item>, id: string, quantity: int): (r: seq<Item>)
    ensures |r| == |items|
  {
    seq(|items|, k requires 0 <= k < |items| =>
      if items[k].id == id then items[k].(quantity := quantity) else items[k])
  }

  /** Distinct non-empty usernames get distinct cart keys. */
  lemma CartKeyInjective(u1: string, u2: string)
    requires u1 != "" && u2 != ""
    ensures CartKey(Some(u1)) == CartKey(Some(u2)) <==> u1 == u2
  {
    if CartKey(Some(u1)) == CartKey(Some(u2)) {
      assert u1 == CartKey(Some(u1))[|CartPrefix|..];
    }
  }

  /** Without a non-empty username the guest cart is used, and it is also the cart of the user named `guest`. */
  lemma GuestCartKey(user: Option<string>)
    ensures (user.None? || user == Some("")) ==> CartKey(user) == GuestKey
    ensures CartKey(Some("guest")) == GuestKey
  {
  }

  /** `addItem` with a new `_id` appends exactly the item with quantity 1 and keeps every earlier entry. */
  lemma AddNewItem(items: seq<Item>, item: Item)
    requires !HasId(items, item.id)
    ensures var r := WithItemAdded(items, item);
      |r| == |items| + 1 && r[..|items|] == items &&
      r[|items|] == Item(item.id, 1, item.details)
  {
    var r := WithItemAdded(items, item);
    assert r[..|items|] == items;
  }

  /** `addItem` with a present `_id` adds 1 to the quantity of that entry alone, in place, ignoring the passed item's other fields. */
  lemma AddExistingItem(items: seq<Item>, item: Item)
    requires HasId(items, item.id)
    ensures var r := WithItemAdded(items, item);
      |r| == |items| &&
      forall k :: 0 <= k < |items| ==>
        if items[k].id == item.id
        then r[k] == Item(items[k].id, items[k].quantity + 1, items[k].details)
        else r[k] == items[k]
  {
  }

  /** `addItem` keeps `_id`s unique. */
  lemma AddKeepsIdsUnique(items: seq<Item>, item: Item)
    requires UniqueIds(items)
    ensures UniqueIds(WithItemAdded(items, item))
  {
    var r := WithItemAdded(items, item);
    if !HasId(items, item.id) {
      forall i, j | 0 <= i < j < |r| ensures r[i].id != r[j].id {
        if j == |items| {
          assert r[i] == items[i];
        }
      }
    }
  }

  /** After `addItem` the cart holds exactly the earlier `_id`s and the added one. */
  lemma AddedIds(items: seq<Item>, item: Item)
    ensures forall id :: HasId(WithItemAdded(items, item), id) <==> HasId(items, id) || id == item.id
  {
    var r := WithItemAdded(items, item);
    forall id ensures HasId(r, id) <==> HasId(items, id) || id == item.id {
      if HasId(items, id) {
        var k :| 0 <= k < |items| && items[k].id == id;
        assert r[k].id == id;
      }
      if id == item.id && !HasId(items, id) {
        assert r[|items|].id == id;
      }
      if HasId(r, id) {
        var k :| 0 <= k < |r| && r[k].id == id;
        if k < |items| { assert items[k].id == id; }
      }
    }
  }

  /** `removeItem` keeps exactly the entries whose `_id` differs. */
  lemma {:induction false} WithoutIdMembers(items: seq<Item>, id: string)
    ensures forall x :: x in WithoutId(items, id) <==> x in items && x.id != id
    decreases |items|
  {
    if items != [] {
      WithoutIdMembers(items[1..], id);
      assert items == [items[0]] + items[1..];
    }
  }

  /** `filter` distributes over concatenation: the kept entries stay in their relative order. */
  lemma {:induction false} WithoutIdAppend(a: seq<Item>, b: seq<Item>, id: string)
    ensures WithoutId(a + b, id) == WithoutId(a, id) + WithoutId(b, id)
    decreases |a|
  {
    if a == [] {
      assert WithoutId(a + b, id) == WithoutId(a, id) + WithoutId(b, id) by {
        assert a + b == b;
        assert WithoutId(a, id) == [];
      }
    } else {
      var head := if a[0].id == id then [] else [a[0]];
      var ra, rb := WithoutId(a[1..], id), WithoutId(b, id);
      assert WithoutId(a + b, id) == head + (ra + rb) by {
        assert a + b == [a[0]] + (a[1..] + b);
        WithoutIdCons(a[0], a[1..] + b, id);
        WithoutIdAppend(a[1..], b, id);
      }
      assert WithoutId(a, id) == head + ra by {
        assert a == [a[0]] + a[1..];
        WithoutIdCons(a[0], a[1..], id);
      }
      assert head + (ra + rb) == (head + ra) + rb by {
        assert |head| <= 1;
      }
    }
  }

  /** One step of `filter`: the head is kept exactly when its `_id` differs. */
  lemma WithoutIdCons(x: Item, t: seq<Item>, id: string)
    ensures WithoutId([x] + t, id) == (if x.id == id then [] else [x]) + WithoutId(t, id)
  {
    assert ([x] + t)[0] == x && ([x] + t)[1..] == t;
  }

  /** A single entry is kept exactly when its `_id` differs. */
  lemma WithoutIdSingle(x: Item, id: string)
    ensures WithoutId([x], id) == if x.id == id then [] else [x]
  {
    assert [x][1..] == [];
  }

  /** `removeItem` keeps `_id`s unique. */
  lemma {:induction false} RemoveKeepsIdsUnique(items: seq<Item>, id: string)
    requires UniqueIds(items)
    ensures UniqueIds(WithoutId(items, id))
    decreases |items|
  {
    if items != [] {
      var tail := items[1..];
      assert UniqueIds(tail) by {
        forall i, j | 0 <= i < j < |tail| ensures tail[i].id != tail[j].id {
          assert tail[i] == items[i + 1] && tail[j] == items[j + 1];
        }
      }
      RemoveKeepsIdsUnique(tail, id);
      var rest := WithoutId(tail, id);
      if items[0].id != id {
        var r := [items[0]] + rest;
        forall i, j | 0 <= i < j < |r| ensures r[i].id != r[j].id {
          if i == 0 {
            assert r[j] in rest;
            WithoutIdMembers(tail, id);
            assert r[j] in tail;
            var k :| 0 <= k < |tail| && tail[k] == r[j];
            assert items[k + 1] == r[j];
          } else {
            assert r[i] == rest[i - 1] && r[j] == rest[j - 1];
          }
        }
      }
    }
  }

  /** `updateQuantity` sets the quantity of the matching entries only, whatever the value, keeping order and everything else. */
  lemma UpdateQuantityEffect(items: seq<Item>, id: string, quantity: int)
    ensures var r := WithQuantity(items, id, quantity);
      |r| == |items| &&
      (forall k :: 0 <= k < |items| ==> r[k].id == items[k].id && r[k].details == items[k].details) &&
      (forall k :: 0 <= k < |items| ==> r[k].quantity == if items[k].id == id then quantity else items[k].quantity)
    ensures !HasId(items, id) ==> WithQuantity(items, id, quantity) == items
  {
  }

  /** `updateQuantity` keeps `_id`s unique. */
  lemma UpdateKeepsIdsUnique(items: seq<Item>, id: string, quantity: int)
    requires UniqueIds(items)
    ensures UniqueIds(WithQuantity(items, id, quantity))
  {
  }

  /** After `clearCart` the key holds nothing, so reloading for the same user gives the empty cart. */
  lemma ClearedCartReloadsEmpty(storage: map<string, seq<Item>>, user: Option<string>)
    ensures StoredCart(storage - {CartKey(user)}, CartKey(user)) == []
  {
  }

  /** The cart store: the store cell and the cart entries of the key-value storage. */
  class Cart {
    var items: seq<Item>
    var storage: map<string, seq<Item>>

    /** The storage under the current user's key holds exactly the cart (nothing stored reads as the empty cart). */
    ghost predicate Persisted(user: Option<string>)
      reads this
    {
      StoredCart(storage, CartKey(user)) == items
    }

    /** `createCart`: the store starts with the cart stored for the current user. */
    constructor (storage: map<string, seq<Item>>, user: Option<string>)
      ensures this.storage == storage
      ensures items == StoredCart(storage, CartKey(user))
      ensures Persisted(user)
    {
      this.storage := storage;
      items := StoredCart(storage, CartKey(user));
    }

    /** `addItem`. */
    method AddItem(item: Item, user: Option<string>)
      modifies this
      ensures items == WithItemAdded(old(items), item)
      ensures storage == old(storage)[CartKey(user) := items]
      ensures Persisted(user)
      ensures UniqueIds(old(items)) ==> UniqueIds(items)
    {
      var updated: seq<Item>;
      if HasId(items, item.id) {
        updated := Incremented(items, item.id);
      } else {
        updated := items + [item.(quantity := 1)];
      }
      if UniqueIds(items) {
        AddKeepsIdsUnique(items, item);
      }
      storage := storage[CartKey(user) := updated];
      items := updated;
    }

    /** `removeItem`. */
    method RemoveItem(id: string, user: Option<string>)
      modifies this
      ensures items == WithoutId(old(items), id)
      ensures storage == old(storage)[CartKey(user) := items]
      ensures Persisted(user)
      ensures UniqueIds(old(items)) ==> UniqueIds(items)
    {
      var updated := WithoutId(items, id);
      if UniqueIds(items) {
        RemoveKeepsIdsUnique(items, id);
      }
      storage := storage[CartKey(user) := updated];
      items := updated;
    }

    /** `updateQuantity`. */
    method UpdateQuantity(id: string, quantity: int, user: Option<string>)
      modifies this
      ensures items == WithQuantity(old(items), id, quantity)
      ensures storage == old(storage)[CartKey(user) := items]
      ensures Persisted(user)
      ensures UniqueIds(old(items)) ==> UniqueIds(items)
    {
      var updated := WithQuantity(items, id, quantity);
      storage := storage[CartKey(user) := updated];
      items := updated;
    }

    /** `clearCart`: the key is deleted and the cart emptied. */
    method ClearCart(user: Option<string>)
      modifies this
      ensures items == []
      ensures storage == old(storage) - {CartKey(user)}
      ensures CartKey(user) !in storage
      ensures Persisted(user)
    {
      storage := storage - {CartKey(user)};
      items := [];
    }

    /** `updateUser`: reload the cart stored for the (possibly new) current user. */
    method UpdateUser(user: Option<string>)
      modifies this
      ensures items == StoredCart(storage, CartKey(user))
      ensures storage == old(storage)
      ensures Persisted(user)
    {
      items := StoredCart(storage, CartKey(user));
    }
  }
}
