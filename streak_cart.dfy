/** The shared streak-reward cart (`StreakCartProvider`): a list of items keyed by submission
    id, loaded from and mirrored into localStorage under "streakCart". The list operations
    are pure functions on the item list; the provider class holds the list and the storage. */
module StreakCartContext {
  import opened Common
  import opened Foreign
  import opened Entities
  import BrowserStorage

  const CartStorageKey := "streakCart"

  datatype CartItem = CartItem(
    submissionId: string,
    amount: string,
    metadata: Option<string>,
    user: Option<string>,
    submittedAt: Option<string>)

  function ItemId(item: CartItem): string { item.submissionId }

  /** `cart.some(item => item.submissionId === id)`. */
  predicate InCart(cart: seq<CartItem>, id: string) {
    exists i :: 0 <= i < |cart| && cart[i].submissionId == id
  }

  /** Every submission appears at most once. */
  ghost predicate DistinctIds(cart: seq<CartItem>) {
    DistinctKeys(cart, ItemId)
  }

  /** The item `addToCart` builds from a submission and the amount it starts with. */
  function NewItem(streak: StreakSubmission, amount: string): (item: CartItem)
    ensures item.submissionId == streak.submissionId && item.amount == amount
    ensures item.metadata == streak.metadata && item.user == Some(streak.user)
    ensures item.submittedAt == Some(streak.submittedAt)
  {
    CartItem(streak.submissionId, amount, streak.metadata, Some(streak.user), Some(streak.submittedAt))
  }

  /** The amount a new shared-cart item starts with: the reward converted from wei to whole
      tokens (`formatEther(BigInt(rewardAmount))`, None when `BigInt` throws), or "0" when
      there is no reward amount. */
  function InitialAmount(rewardAmount: Option<string>, weiToTokens: string -> Option<string>): (r: Option<string>)
    ensures !Truthy(rewardAmount) ==> r == Some("0")
    ensures Truthy(rewardAmount) ==> r == weiToTokens(rewardAmount.value)
  {
    if Truthy(rewardAmount) then weiToTokens(rewardAmount.value) else Some("0")
  }

  /** The list after adding `item`: unchanged when its id is already present, otherwise
      the item is appended at the end. */
  function Added(cart: seq<CartItem>, item: CartItem): (r: seq<CartItem>)
    ensures InCart(cart, item.submissionId) ==> r == cart
    ensures !InCart(cart, item.submissionId) ==> r == cart + [item]
  {
    if InCart(cart, item.submissionId) then cart else cart + [item]
  }

  function NotId(id: string): CartItem -> bool {
    (item: CartItem) => item.submissionId != id
  }

  /** The list after `removeFromCart(id)`. */
  function Removed(cart: seq<CartItem>, id: string): (r: seq<CartItem>)
    ensures !InCart(r, id)
    ensures forall x :: x in r <==> x in cart && x.submissionId != id
    ensures |r| <= |cart|
  {
    var r := Filter(cart, NotId(id));
    assert forall i :: 0 <= i < |r| ==> r[i] in r;
    r
  }

  /** The list after `updateCartItemAmount(id, amount)`. */
  function AmountUpdated(cart: seq<CartItem>, id: string, amount: string): (r: seq<CartItem>)
    ensures |r| == |cart|
    ensures forall i :: 0 <= i < |r| ==>
              r[i] == if cart[i].submissionId == id then cart[i].(amount := amount) else cart[i]
  {
    MapSeq(cart, (item: CartItem) => if item.submissionId == id then item.(amount := amount) else item)
  }

  /** The list the provider starts with: `stored ? JSON.parse(stored) : []`, and [] when
      parsing throws. */
  function LoadCart(stored: Option<string>, decode: string -> Option<seq<CartItem>>): (r: seq<CartItem>)
    ensures !Truthy(stored) ==> r == []
    ensures Truthy(stored) && decode(stored.value).Some? ==> r == decode(stored.value).value
    ensures Truthy(stored) && decode(stored.value).None? ==> r == []
  {
    if Truthy(stored) then decode(stored.value).GetOr([]) else []
  }

  // ---------------------------------------------------------------------------------------------
  // Properties of the list operations

  /** Adding keeps the ids distinct. */
  lemma AddedKeepsDistinct(cart: seq<CartItem>, item: CartItem)
    requires DistinctIds(cart)
    ensures DistinctIds(Added(cart, item))
  {
    if !InCart(cart, item.submissionId) {
      var r := cart + [item];
      forall i, j | 0 <= i < j < |r| ensures ItemId(r[i]) != ItemId(r[j]) {
        if j == |cart| {
          assert r[i] == cart[i];
        } else {
          assert r[i] == cart[i] && r[j] == cart[j];
        }
      }
    }
  }

  /** Adding changes no existing item and keeps their order; a fresh id ends up last. */
  lemma AddedExtends(cart: seq<CartItem>, item: CartItem)
    ensures var r := Added(cart, item);
            cart <= r && |r| <= |cart| + 1 && InCart(r, item.submissionId)
  {
    if !InCart(cart, item.submissionId) {
      assert (cart + [item])[|cart|] == item;
    }
  }

  /** Removing keeps the ids distinct. */
  lemma RemovedKeepsDistinct(cart: seq<CartItem>, id: string)
    requires DistinctIds(cart)
    ensures DistinctIds(Removed(cart, id))
  {
    FilterKeepsDistinct(cart, NotId(id), ItemId);
  }

  /** Removing an id that is not in the cart changes nothing. */
  lemma RemovedAbsentIsNoop(cart: seq<CartItem>, id: string)
    requires !InCart(cart, id)
    ensures Removed(cart, id) == cart
  {
    FilterKeepsAll(cart, NotId(id));
  }

  /** Removal keeps the relative order of the remaining items: removing from a concatenation
      is the concatenation of the removals. */
  lemma RemovedKeepsOrder(a: seq<CartItem>, b: seq<CartItem>, id: string)
    ensures Removed(a + b, id) == Removed(a, id) + Removed(b, id)
  {
    FilterConcat(a, b, NotId(id));
  }

  /** Updating an amount keeps every id in its place, so distinct ids stay distinct. */
  lemma AmountUpdatedKeepsIds(cart: seq<CartItem>, id: string, amount: string)
    ensures var r := AmountUpdated(cart, id, amount);
            forall i :: 0 <= i < |r| ==> r[i].submissionId == cart[i].submissionId &&
                                         r[i].metadata == cart[i].metadata &&
                                         r[i].user == cart[i].user &&
                                         r[i].submittedAt == cart[i].submittedAt
    ensures DistinctIds(cart) ==> DistinctIds(AmountUpdated(cart, id, amount))
    ensures forall x :: InCart(cart, x) <==> InCart(AmountUpdated(cart, id, amount), x)
  {
    var r := AmountUpdated(cart, id, amount);
    assert forall i :: 0 <= i < |r| ==> ItemId(r[i]) == ItemId(cart[i]);
  }

  /** The cart survives a reload: once the latest list has been written, loading gives it
      back, provided the JSON encoding of the list parses to the list. */
  lemma ReloadRestoresCart(entries: map<string, string>, cart: seq<CartItem>,
                           encode: seq<CartItem> -> string, decode: string -> Option<seq<CartItem>>)
    requires RoundTrips(encode, decode, cart)
    ensures LoadCart(BrowserStorage.Lookup(entries[CartStorageKey := encode(cart)], CartStorageKey), decode) == cart
  {
  }

  // ---------------------------------------------------------------------------------------------
  // The provider

  class StreakCartProvider {
    const storage: BrowserStorage.LocalStorage
    /** `JSON.stringify` and `JSON.parse` on cart lists. */
    const encode: seq<CartItem> -> string
    const decode: string -> Option<seq<CartItem>>
    /** `formatEther(BigInt(x))`; None when `BigInt` throws. */
    const weiToTokens: string -> Option<string>
    var cart: seq<CartItem>

    /** The stored copy holds the current list. */
    ghost predicate Synced()
      reads this, storage
    {
      BrowserStorage.Lookup(storage.entries, CartStorageKey) == Some(encode(cart))
    }

    /** The effect that runs whenever the list changes (and on mount). */
    method Persist()
      modifies storage
      ensures storage.entries ==
                if storage.writable then old(storage.entries)[CartStorageKey := encode(cart)]
                else old(storage.entries)
      ensures storage.writable == old(storage.writable)
      ensures storage.writable ==> Synced()
    {
      var _ := storage.SetItem(CartStorageKey, encode(cart));
    }

    /** Mount: the list is loaded from storage and then written back by the effect. */
    constructor (storage: BrowserStorage.LocalStorage, encode: seq<CartItem> -> string,
                 decode: string -> Option<seq<CartItem>>, weiToTokens: string -> Option<string>)
      modifies storage
      ensures this.storage == storage && this.encode == encode && this.decode == decode
      ensures this.weiToTokens == weiToTokens
      ensures cart == LoadCart(BrowserStorage.Lookup(old(storage.entries), CartStorageKey), decode)
      ensures storage.writable == old(storage.writable)
      ensures storage.entries ==
                if storage.writable then old(storage.entries)[CartStorageKey := encode(cart)]
                else old(storage.entries)
    {
      this.storage := storage;
      this.encode := encode;
      this.decode := decode;
      this.weiToTokens := weiToTokens;
      cart := LoadCart(storage.GetItem(CartStorageKey), decode);
      new;
      Persist();
    }

    /** `isInCart(id)`. */
    function IsInCart(id: string): (b: bool)
      reads this
      ensures b <==> exists i :: 0 <= i < |cart| && cart[i].submissionId == id
    {
      InCart(cart, id)
    }

    /** `addToCart(streak)`. A duplicate id returns before anything is set; a reward amount
        that `BigInt` rejects throws, which also leaves everything as it was. */
    method AddToCart(streak: StreakSubmission)
      modifies this, storage
      ensures var amount := InitialAmount(streak.rewardAmount, weiToTokens);
              var changed := !InCart(old(cart), streak.submissionId) && amount.Some?;
              cart == (if changed then old(cart) + [NewItem(streak, amount.value)] else old(cart)) &&
              storage.entries ==
                (if changed && storage.writable then old(storage.entries)[CartStorageKey := encode(cart)]
                 else old(storage.entries))
      ensures storage.writable == old(storage.writable)
      ensures DistinctIds(old(cart)) ==> DistinctIds(cart)
      ensures storage.writable && old(Synced()) ==> Synced()
    {
      if InCart(cart, streak.submissionId) {
        return;
      }
      var amount := InitialAmount(streak.rewardAmount, weiToTokens);
      if amount.None? {
        return;
      }
      if DistinctIds(cart) {
        AddedKeepsDistinct(cart, NewItem(streak, amount.value));
      }
      cart := Added(cart, NewItem(streak, amount.value));
      Persist();
    }

    /** `removeFromCart(id)`. */
    method RemoveFromCart(id: string)
      modifies this, storage
      ensures cart == Removed(old(cart), id)
      ensures storage.writable == old(storage.writable)
      ensures storage.entries ==
                if storage.writable then old(storage.entries)[CartStorageKey := encode(cart)]
                else old(storage.entries)
      ensures DistinctIds(old(cart)) ==> DistinctIds(cart)
      ensures !InCart(old(cart), id) ==> cart == old(cart)
    {
      if DistinctIds(cart) {
        RemovedKeepsDistinct(cart, id);
      }
      if !InCart(cart, id) {
        RemovedAbsentIsNoop(cart, id);
      }
      cart := Removed(cart, id);
      Persist();
    }

    /** `clearCart()`. */
    method ClearCart()
      modifies this, storage
      ensures cart == []
      ensures storage.writable == old(storage.writable)
      ensures storage.entries ==
                if storage.writable then old(storage.entries)[CartStorageKey := encode([])]
                else old(storage.entries)
    {
      cart := [];
      Persist();
    }

    /** `updateCartItemAmount(id, amount)`. */
    method UpdateCartItemAmount(id: string, amount: string)
      modifies this, storage
      ensures cart == AmountUpdated(old(cart), id, amount)
      ensures storage.writable == old(storage.writable)
      ensures storage.entries ==
                if storage.writable then old(storage.entries)[CartStorageKey := encode(cart)]
                else old(storage.entries)
      ensures DistinctIds(old(cart)) ==> DistinctIds(cart)
    {
      AmountUpdatedKeepsIds(cart, id, amount);
      cart := AmountUpdated(cart, id, amount);
      Persist();
    }
  }
}
