/** The wishlist: per user, a list of product ids that the handlers treat as a set, through the
    atomic update operators `$addToSet` and `$pull`. */
module WishList {
  import opened Common

  /** The wishlist collection: the `product` array of each user's document. */
  type Lists = map<UserId, seq<ProductId>>

  predicate NoDuplicates(s: seq<ProductId>) {
    forall i, j :: 0 <= i < j < |s| ==> s[i] != s[j]
  }

  /** `$addToSet`: x joins the list at the end unless it is already there. The elements are
      exactly the old ones and x, the old list is kept as a prefix, and a list without
      duplicates stays without duplicates. */
  function AddToSet(s: seq<ProductId>, x: ProductId): (r: seq<ProductId>)
    ensures forall y :: y in r <==> y in s || y == x
    ensures |s| <= |r| <= |s| + 1 && r[..|s|] == s
    ensures NoDuplicates(s) ==> NoDuplicates(r)
  {
    if x in s then s
    else
      var r := s + [x];
      assert forall i | 0 <= i < |s| :: r[i] == s[i];
      r
  }

  /** `$pull`: every occurrence of x removed, the other elements kept in order. */
  function Pull(s: seq<ProductId>, x: ProductId): (r: seq<ProductId>)
    ensures forall y :: y in r <==> y in s && y != x
    ensures |r| <= |s|
    ensures x !in s ==> r == s
    ensures NoDuplicates(s) ==> NoDuplicates(r)
  {
    if s == [] then []
    else if s[0] == x then Pull(s[1..], x)
    else
      var rest := Pull(s[1..], x);
      assert forall y :: y in rest ==> y in s[1..];
      assert forall k | 0 <= k < |s[1..]| :: s[1..][k] == s[k + 1];
      var r := [s[0]] + rest;
      assert forall i | 0 < i < |r| :: r[i] == rest[i - 1];
      assert NoDuplicates(s) ==> s[0] !in rest;
      r
  }

  /** Pulling distributes over concatenation. */
  lemma {:induction false} PullAppend(a: seq<ProductId>, b: seq<ProductId>, x: ProductId)
    ensures Pull(a + b, x) == Pull(a, x) + Pull(b, x)
  {
    if a != [] {
      var s := a + b;
      PullAppend(a[1..], b, x);
      assert s[0] == a[0] && s[1..] == a[1..] + b;
      if a[0] != x {
        assert Pull(s, x) == [a[0]] + Pull(s[1..], x);
        assert Pull(a, x) == [a[0]] + Pull(a[1..], x);
        ConsAppend(a[0], Pull(a[1..], x), Pull(b, x));
      }
    } else {
      assert a + b == b;
    }
  }

  /** Adding x and then pulling it gives what pulling x alone gives: removal undoes addition. */
  lemma PullUndoesAddToSet(s: seq<ProductId>, x: ProductId)
    ensures Pull(AddToSet(s, x), x) == Pull(s, x)
  {
    if x !in s {
      PullAppend(s, [x], x);
    }
  }

  /** Adding an id twice leaves the list as adding it once does. */
  lemma AddToSetIdempotent(s: seq<ProductId>, x: ProductId)
    ensures AddToSet(AddToSet(s, x), x) == AddToSet(s, x)
  {
  }

  /** The collection after a handler, and the document it answers with (null when the update
      matched no document). */
  datatype Update = Update(lists: Lists, document: Option<seq<ProductId>>)

  /** `addProductToWishList`: 400 without a product id, and a cast error when the id is not an
      ObjectId (the update casts it before it runs); otherwise the user's list (created empty
      when the user has none, `upsert`) gets the id through `$addToSet`, and the new list is
      returned. Nobody else's list changes. */
  function AddProductToWishList(lists: Lists, user: UserId, productId: Option<RawId>)
    : (r: Result<Update>)
    ensures r.Fail? <==> productId.None? || productId.value.Malformed?
    ensures productId.None? ==> r == Fail(ProductIdRequired)
    ensures productId == Some(Malformed) ==> r == Fail(WishListProductCast)
    ensures r.Ok? ==> user in r.value.lists
    ensures r.Ok? ==>
              var list := r.value.lists[user];
              && r.value.document == Some(list)
              && r.value.lists.Keys == lists.Keys + {user}
              && (forall u | u in lists && u != user :: r.value.lists[u] == lists[u])
              && (forall y :: y in list <==> y == productId.value.value || (user in lists && y in lists[user]))
  {
    match productId
    case None => Fail(ProductIdRequired)
    case Some(Malformed) => Fail(WishListProductCast)
    case Some(Id(p)) =>
      var list := AddToSet(if user in lists then lists[user] else [], p);
      Ok(Update(lists[user := list], Some(list)))
  }

  /** `removeProductFromWishList`: 400 without a product id, and a cast error when the id is not
      an ObjectId; a user without a wishlist gets a success answer with a null document and
      nothing changes; otherwise every occurrence of the id leaves the user's list through
      `$pull`. */
  function RemoveProductFromWishList(lists: Lists, user: UserId, productId: Option<RawId>)
    : (r: Result<Update>)
    ensures r.Fail? <==> productId.None? || productId.value.Malformed?
    ensures productId.None? ==> r == Fail(ProductIdRequired)
    ensures productId == Some(Malformed) ==> r == Fail(WishListProductCast)
    ensures r.Ok? && user !in lists ==> r.value == Update(lists, None)
    ensures r.Ok? && user in lists ==> user in r.value.lists
    ensures r.Ok? && user in lists ==>
              var list := r.value.lists[user];
              && r.value.lists.Keys == lists.Keys && r.value.document == Some(list)
              && (forall u | u in lists && u != user :: r.value.lists[u] == lists[u])
              && (forall y :: y in list <==> y in lists[user] && y != productId.value.value)
  {
    match productId
    case None => Fail(ProductIdRequired)
    case Some(Malformed) => Fail(WishListProductCast)
    case Some(Id(p)) =>
      if user !in lists then Ok(Update(lists, None))
      else
        var list := Pull(lists[user], p);
        Ok(Update(lists[user := list], Some(list)))
  }

  /** `getWishList`: the user's list, or 404 when the user has none. */
  function GetWishList(lists: Lists, user: UserId): (r: Result<seq<ProductId>>)
    ensures r.Ok? <==> user in lists
    ensures r.Ok? ==> r.value == lists[user]
    ensures r.Fail? ==> r.reason == NoWishList
  {
    if user !in lists then Fail(NoWishList) else Ok(lists[user])
  }

  /** Adding the same product twice gives the same collection as adding it once. */
  lemma AddTwiceSameAsOnce(lists: Lists, user: UserId, p: ProductId)
    ensures AddProductToWishList(AddProductToWishList(lists, user, Some(Id(p))).value.lists, user, Some(Id(p)))
            == AddProductToWishList(lists, user, Some(Id(p)))
  {
    var once := AddProductToWishList(lists, user, Some(Id(p))).value.lists;
    AddToSetIdempotent(if user in lists then lists[user] else [], p);
    assert once[user := once[user]] == once;
  }

  /** Removing a product the user just added leaves the user's list as removing it from the
      original list would: add and remove cancel out. */
  lemma RemoveAfterAdd(lists: Lists, user: UserId, p: ProductId)
    requires user in lists
    ensures RemoveProductFromWishList(AddProductToWishList(lists, user, Some(Id(p))).value.lists, user, Some(Id(p)))
            == RemoveProductFromWishList(lists, user, Some(Id(p)))
  {
    PullUndoesAddToSet(lists[user], p);
    var added := AddProductToWishList(lists, user, Some(Id(p))).value.lists;
    assert added[user := Pull(added[user], p)] == lists[user := Pull(lists[user], p)];
  }
}
