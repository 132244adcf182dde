/** The order-history page: the orders shown for the selected status and the search box. */
module OrderHistory {
  import opened Common

  /** An order as the page lists it: its id and status text. */
  datatype Row = Row(id: string, status: string)

  /** `toLowerCase` on the ASCII letters; every other character is kept. */
  function ToLower(s: string): (r: string)
    ensures |r| == |s|
    ensures forall i | 0 <= i < |s| :: r[i] == LowerChar(s[i])
  {
    if s == [] then [] else [LowerChar(s[0])] + ToLower(s[1..])
  }

  function LowerChar(c: char): char {
    if 'A' <= c <= 'Z' then (c as int - 'A' as int + 'a' as int) as char else c
  }

  /** Lowering twice is lowering once, so a query already in lower case searches as itself. */
  lemma ToLowerIdempotent(s: string)
    ensures ToLower(ToLower(s)) == ToLower(s)
  {
    var once := ToLower(s);
    assert forall i | 0 <= i < |s| :: ToLower(once)[i] == once[i];
  }

  /** `hay.includes(needle)`: needle is a prefix of some suffix of hay. */
  function Contains(hay: string, needle: string): bool
    decreases |hay|
  {
    needle <= hay || (hay != [] && Contains(hay[1..], needle))
  }

  /** needle occurs in hay starting at position i. */
  predicate OccursAt(hay: string, needle: string, i: int) {
    0 <= i && i + |needle| <= |hay| && hay[i..i + |needle|] == needle
  }

  /** Contains holds exactly when needle occurs at some position of hay. */
  lemma {:induction false} ContainsOccurs(hay: string, needle: string)
    ensures Contains(hay, needle) <==> exists i :: OccursAt(hay, needle, i)
    decreases |hay|
  {
    OccursAtFront(hay, needle);
    if !(needle <= hay) && hay != [] {
      ContainsOccurs(hay[1..], needle);
      if exists i :: OccursAt(hay, needle, i) {
        var i :| OccursAt(hay, needle, i);
        OccursShift(hay, needle, i);
      }
      if Contains(hay[1..], needle) {
        var j :| OccursAt(hay[1..], needle, j);
        OccursShift(hay, needle, j + 1);
      }
    }
  }

  lemma OccursAtFront(hay: string, needle: string)
    ensures OccursAt(hay, needle, 0) <==> needle <= hay
  {
  }

  /** An occurrence past the first character is an occurrence in the rest of hay. */
  lemma OccursShift(hay: string, needle: string, i: int)
    requires hay != [] && i >= 1
    ensures OccursAt(hay, needle, i) <==> OccursAt(hay[1..], needle, i - 1)
  {
    if i + |needle| <= |hay| {
      assert hay[1..][i - 1..i - 1 + |needle|] == hay[i..i + |needle|];
    }
  }

  /** `selectedStatus === "all" || order.status === selectedStatus`. */
  predicate MatchesStatus(selected: string, o: Row) {
    selected == "all" || o.status == selected
  }

  /** `order.id.toLowerCase().includes(searchQuery.toLowerCase())`. */
  predicate MatchesSearch(query: string, o: Row) {
    Contains(ToLower(o.id), ToLower(query))
  }

  /** The empty query matches every order. */
  lemma EmptySearchMatches(o: Row)
    ensures MatchesSearch("", o)
  {
  }

  /** The search ignores case in both the id and the query. */
  lemma SearchIgnoresCase(query: string, o: Row)
    ensures MatchesSearch(query, o) <==> MatchesSearch(ToLower(query), o)
    ensures MatchesSearch(query, o) <==> MatchesSearch(query, o.(id := ToLower(o.id)))
  {
    ToLowerIdempotent(query);
    ToLowerIdempotent(o.id);
  }

  /** `filteredOrders`: the orders matching both the status and the search, in their order. */
  function FilterOrders(orders: seq<Row>, selected: string, query: string): (r: seq<Row>)
    ensures forall o :: o in r <==> o in orders && MatchesStatus(selected, o) && MatchesSearch(query, o)
    ensures Subsequence(r, orders)
  {
    if orders == [] then []
    else
      var rest := FilterOrders(orders[1..], selected, query);
      if MatchesStatus(selected, orders[0]) && MatchesSearch(query, orders[0]) then
        assert ([orders[0]] + rest)[1..] == rest;
        [orders[0]] + rest
      else
        SubsequenceOfTail(rest, orders);
        rest
  }

  /** The page as it opens, status "all" and an empty search, lists every order. */
  lemma {:induction false} InitialViewListsAll(orders: seq<Row>)
    ensures FilterOrders(orders, "all", "") == orders
  {
    if orders != [] {
      InitialViewListsAll(orders[1..]);
      EmptySearchMatches(orders[0]);
      assert [orders[0]] + orders[1..] == orders;
    }
  }

  /** The two conditions filter independently: the search alone, then the status alone, gives
      what both together give. */
  lemma {:induction false} FiltersCompose(orders: seq<Row>, selected: string, query: string)
    ensures FilterOrders(FilterOrders(orders, "all", query), selected, "")
            == FilterOrders(orders, selected, query)
  {
    if orders != [] {
      FiltersCompose(orders[1..], selected, query);
      EmptySearchMatches(orders[0]);
      var searched := FilterOrders(orders, "all", query);
      if MatchesSearch(query, orders[0]) {
        assert searched == [orders[0]] + FilterOrders(orders[1..], "all", query);
        assert searched[1..] == FilterOrders(orders[1..], "all", query);
      }
    }
  }
}
