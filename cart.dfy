/** The shopping cart kept by the cart provider (src/context/CartContext.tsx):
    an ordered list of lines keyed by (match id, category name), the three
    reducers that replace it, the load-with-fallback that seeds it and the
    write-back after every change, plus the ticket count the cart page and the
    navigation bar derive from it. */
module Cart {
  import opened Wrappers

  /** One side of a match. The add reducer accepts a team record (and reads
      its name) or a bare label (and uses it as is). */
  datatype TeamRef = TeamRecord(name: string) | TeamLabel(text: string)

  /** The parts of a match the cart reads. */
  datatype Match = Match(id: int, homeTeam: TeamRef, awayTeam: TeamRef)

  /** One ticket category of a match; the cart copies only its price. */
  datatype TicketCategory = TicketCategory(available: bool, price: real, availableSeats: int)

  datatype CartItem = CartItem(matchId: int, matchName: string, categoryName: string, price: real, quantity: int)

  /** What loading finds under the cart's storage key: nothing, text that
      does not parse, or a serialized list of lines. */
  datatype StoredCart = Absent | Corrupt | Serialized(items: seq<CartItem>)

  // ---------------------------------------------------------------------
  // Keys and invariants

  /** The reducers' test for "this is the line of (matchId, categoryName)". */
  predicate IsLine(item: CartItem, matchId: int, categoryName: string) {
    item.matchId == matchId && item.categoryName == categoryName
  }

  ghost predicate SameKey(a: CartItem, b: CartItem) {
    IsLine(b, a.matchId, a.categoryName)
  }

  ghost predicate HasLine(items: seq<CartItem>, matchId: int, categoryName: string) {
    exists i :: 0 <= i < |items| && IsLine(items[i], matchId, categoryName)
  }

  /** No two lines share a (match id, category name) key. */
  ghost predicate KeysUnique(items: seq<CartItem>) {
    forall i, j :: 0 <= i < j < |items| ==> !SameKey(items[i], items[j])
  }

  /** Every line holds at least one ticket. */
  ghost predicate AllPositive(items: seq<CartItem>) {
    forall i :: 0 <= i < |items| ==> items[i].quantity >= 1
  }

  ghost predicate WellFormed(items: seq<CartItem>) {
    KeysUnique(items) && AllPositive(items)
  }

  // ---------------------------------------------------------------------
  // The array operations the reducers are built from

  function TeamName(t: TeamRef): string {
    match t
    case TeamRecord(n) => n
    case TeamLabel(t) => t
  }

  /** The label a new line captures: "home vs away". */
  function MatchName(m: Match): string {
    TeamName(m.homeTeam) + " vs " + TeamName(m.awayTeam)
  }

  /** `Array.prototype.find` with the reducers' key test: the first line of
      the key, if any. */
  function FindLine(items: seq<CartItem>, matchId: int, categoryName: string): (r: Option<CartItem>)
    ensures r.Some? <==> HasLine(items, matchId, categoryName)
    ensures r.Some? ==> exists i :: 0 <= i < |items| && items[i] == r.value
                                    && IsLine(items[i], matchId, categoryName)
                                    && forall k :: 0 <= k < i ==> !IsLine(items[k], matchId, categoryName)
  {
    if items == [] then None
    else if IsLine(items[0], matchId, categoryName) then Some(items[0])
    else
      var r := FindLine(items[1..], matchId, categoryName);
      assert HasLine(items[1..], matchId, categoryName) ==> HasLine(items, matchId, categoryName);
      assert HasLine(items, matchId, categoryName) ==> HasLine(items[1..], matchId, categoryName) by {
        if HasLine(items, matchId, categoryName) {
          var i :| 0 <= i < |items| && IsLine(items[i], matchId, categoryName);
          assert items[1..][i - 1] == items[i];
        }
      }
      assert r.Some? ==> exists i :: 0 <= i < |items| && items[i] == r.value
                                     && IsLine(items[i], matchId, categoryName)
                                     && forall k :: 0 <= k < i ==> !IsLine(items[k], matchId, categoryName) by {
        if r.Some? {
          var i :| 0 <= i < |items[1..]| && items[1..][i] == r.value
                   && IsLine(items[1..][i], matchId, categoryName)
                   && forall k :: 0 <= k < i ==> !IsLine(items[1..][k], matchId, categoryName);
          assert items[i + 1] == r.value;
          forall k | 0 <= k < i + 1 ensures !IsLine(items[k], matchId, categoryName) {
            if k > 0 { assert items[k] == items[1..][k - 1]; }
          }
        }
      }
      r
  }

  /** The `.map` of the add reducer: every line of the key gets one more ticket. */
  function IncrementLine(items: seq<CartItem>, matchId: int, categoryName: string): (r: seq<CartItem>)
    ensures |r| == |items|
    ensures forall i :: 0 <= i < |items| ==>
              r[i] == if IsLine(items[i], matchId, categoryName)
                      then items[i].(quantity := items[i].quantity + 1) else items[i]
  {
    if items == [] then []
    else
      var head := if IsLine(items[0], matchId, categoryName)
                  then items[0].(quantity := items[0].quantity + 1) else items[0];
      [head] + IncrementLine(items[1..], matchId, categoryName)
  }

  /** The `.map` of the update reducer: every line of the key gets quantity `n`. */
  function SetLineQuantity(items: seq<CartItem>, matchId: int, categoryName: string, n: int): (r: seq<CartItem>)
    ensures |r| == |items|
    ensures forall i :: 0 <= i < |items| ==>
              r[i] == if IsLine(items[i], matchId, categoryName) then items[i].(quantity := n) else items[i]
  {
    if items == [] then []
    else
      var head := if IsLine(items[0], matchId, categoryName) then items[0].(quantity := n) else items[0];
      [head] + SetLineQuantity(items[1..], matchId, categoryName, n)
  }

  // ---------------------------------------------------------------------
  // The three reducers

  /** addToCart: one more ticket on the existing line of the key, or a new
      line with one ticket appended at the end. */
  function Add(items: seq<CartItem>, m: Match, categoryName: string, details: TicketCategory): (r: seq<CartItem>)
    ensures HasLine(r, m.id, categoryName)
    ensures |r| == if HasLine(items, m.id, categoryName) then |items| else |items| + 1
  {
    if FindLine(items, m.id, categoryName).Some? then
      IncrementLine(items, m.id, categoryName)
    else
      var r := items + [CartItem(m.id, MatchName(m), categoryName, details.price, 1)];
      assert IsLine(r[|items|], m.id, categoryName);
      r
  }

  /** removeFromCart: the `.filter` that drops every line of the key. */
  function Remove(items: seq<CartItem>, matchId: int, categoryName: string): (r: seq<CartItem>)
    ensures |r| <= |items|
    ensures forall x :: x in r ==> x in items && !IsLine(x, matchId, categoryName)
    ensures forall x :: x in items && !IsLine(x, matchId, categoryName) ==> x in r
  {
    if items == [] then []
    else
      var rest := Remove(items[1..], matchId, categoryName);
      assert forall x :: x in items ==> x == items[0] || x in items[1..];
      if IsLine(items[0], matchId, categoryName) then rest else [items[0]] + rest
  }

  /** updateItemQuantity: a value of zero or less drops the line (the same
      filter as removal); any other value becomes the line's quantity. */
  function Update(items: seq<CartItem>, matchId: int, categoryName: string, n: int): (r: seq<CartItem>)
    ensures n <= 0 ==> !HasLine(r, matchId, categoryName)
    ensures n > 0 ==> |r| == |items|
    ensures n > 0 ==> (HasLine(r, matchId, categoryName) <==> HasLine(items, matchId, categoryName))
  {
    if n <= 0 then
      var r := Remove(items, matchId, categoryName);
      assert forall i :: 0 <= i < |r| ==> r[i] in r;
      r
    else
      SetLineQuantity(items, matchId, categoryName, n)
  }

  /** The cart's initial value: the stored list, or the empty list when the
      key is absent or its text does not parse. */
  function LoadCart(saved: StoredCart): (r: seq<CartItem>)
    ensures saved.Serialized? ==> r == saved.items
    ensures !saved.Serialized? ==> r == []
  {
    match saved
    case Serialized(items) => items
    case _ => []
  }

  /** The ticket count shown by the cart page and the navigation bar: the
      left fold `reduce((total, item) => total + item.quantity, 0)`. */
  function TotalTickets(items: seq<CartItem>): (t: int)
    ensures AllPositive(items) ==> t >= |items|
  {
    if items == [] then 0
    else TotalTickets(items[..|items| - 1]) + items[|items| - 1].quantity
  }

  // ---------------------------------------------------------------------
  // Properties of the reducers

  lemma UniqueKeyAt(items: seq<CartItem>, matchId: int, categoryName: string, j: int, i: int)
    requires KeysUnique(items)
    requires 0 <= j < |items| && IsLine(items[j], matchId, categoryName)
    requires 0 <= i < |items| && i != j
    ensures !IsLine(items[i], matchId, categoryName)
  {
  }

  /** Adding a key already present raises only that line by one; every other
      line and the order stay as they were. */
  lemma AddExisting(items: seq<CartItem>, m: Match, categoryName: string, details: TicketCategory, j: int)
    requires KeysUnique(items)
    requires 0 <= j < |items| && IsLine(items[j], m.id, categoryName)
    ensures Add(items, m, categoryName, details) == items[j := items[j].(quantity := items[j].quantity + 1)]
  {
  }

  /** Adding an absent key appends exactly one line, with one ticket, the
      category's price and the "home vs away" label. */
  lemma AddNew(items: seq<CartItem>, m: Match, categoryName: string, details: TicketCategory)
    requires !HasLine(items, m.id, categoryName)
    ensures Add(items, m, categoryName, details)
            == items + [CartItem(m.id, TeamName(m.homeTeam) + " vs " + TeamName(m.awayTeam),
                                 categoryName, details.price, 1)]
  {
  }

  /** Removal keeps a head line of another key in front of the rest. */
  lemma RemoveKeepsHead(items: seq<CartItem>, matchId: int, categoryName: string)
    requires items != [] && !IsLine(items[0], matchId, categoryName)
    ensures Remove(items, matchId, categoryName) == [items[0]] + Remove(items[1..], matchId, categoryName)
  {
  }

  lemma {:induction false} RemoveAbsent(items: seq<CartItem>, matchId: int, categoryName: string)
    requires !HasLine(items, matchId, categoryName)
    ensures Remove(items, matchId, categoryName) == items
  {
    if items != [] {
      var tail := items[1..];
      forall i | 0 <= i < |tail| ensures !IsLine(tail[i], matchId, categoryName) {
        assert tail[i] == items[i + 1];
      }
      RemoveAbsent(tail, matchId, categoryName);
      RemoveKeepsHead(items, matchId, categoryName);
      assert items == [items[0]] + tail;
    }
  }

  lemma TailKeysUnique(items: seq<CartItem>)
    requires KeysUnique(items) && items != []
    ensures KeysUnique(items[1..])
  {
  }

  /** Line `j` is the only line of the key. */
  ghost predicate OnlyLineAt(items: seq<CartItem>, matchId: int, categoryName: string, j: int) {
    0 <= j < |items| && IsLine(items[j], matchId, categoryName)
    && forall i :: 0 <= i < |items| && i != j ==> !IsLine(items[i], matchId, categoryName)
  }

  /** Removing the only line of a key, when it is the head, leaves the tail. */
  lemma RemoveOnlyHead(items: seq<CartItem>, matchId: int, categoryName: string)
    requires OnlyLineAt(items, matchId, categoryName, 0)
    ensures Remove(items, matchId, categoryName) == items[1..]
  {
    var tail := items[1..];
    forall i | 0 <= i < |tail| ensures !IsLine(tail[i], matchId, categoryName) {
      assert tail[i] == items[i + 1];
    }
    RemoveAbsent(tail, matchId, categoryName);
  }

  /** The tail of a list whose only line of the key is `j > 0` has its only
      line at `j - 1`. */
  lemma OnlyLineInTail(items: seq<CartItem>, matchId: int, categoryName: string, j: int)
    requires OnlyLineAt(items, matchId, categoryName, j) && j > 0
    ensures OnlyLineAt(items[1..], matchId, categoryName, j - 1)
  {
    var tail := items[1..];
    forall i | 0 <= i < |tail| && i != j - 1 ensures !IsLine(tail[i], matchId, categoryName) {
      assert tail[i] == items[i + 1];
    }
    assert tail[j - 1] == items[j];
  }

  /** Removing the only line of a key deletes that line and keeps the others in order. */
  lemma {:induction false} RemoveOnlyLine(items: seq<CartItem>, matchId: int, categoryName: string, j: int)
    requires OnlyLineAt(items, matchId, categoryName, j)
    ensures Remove(items, matchId, categoryName) == items[..j] + items[j + 1..]
  {
    if j == 0 {
      RemoveOnlyHead(items, matchId, categoryName);
    } else {
      var tail := items[1..];
      OnlyLineInTail(items, matchId, categoryName, j);
      RemoveOnlyLine(tail, matchId, categoryName, j - 1);
      RemoveKeepsHead(items, matchId, categoryName);
      DropAtSplitsHead(items, j);
    }
  }

  /** Dropping element `j > 0` is keeping the head and dropping `j - 1` of the tail. */
  lemma DropAtSplitsHead(items: seq<CartItem>, j: int)
    requires 0 < j < |items|
    ensures items[..j] + items[j + 1..] == [items[0]] + (items[1..][..j - 1] + items[1..][j..])
  {
    assert items[..j] == [items[0]] + items[1..][..j - 1];
    assert items[j + 1..] == items[1..][j..];
  }

  /** With unique keys, removal deletes exactly the matching line and keeps
      the others in their order. */
  lemma RemoveAt(items: seq<CartItem>, matchId: int, categoryName: string, j: int)
    requires KeysUnique(items)
    requires 0 <= j < |items| && IsLine(items[j], matchId, categoryName)
    ensures Remove(items, matchId, categoryName) == items[..j] + items[j + 1..]
  {
    forall i | 0 <= i < |items| && i != j ensures !IsLine(items[i], matchId, categoryName) {
      UniqueKeyAt(items, matchId, categoryName, j, i);
    }
    RemoveOnlyLine(items, matchId, categoryName, j);
  }

  /** A second removal of the same key changes nothing. */
  lemma RemoveIdempotent(items: seq<CartItem>, matchId: int, categoryName: string)
    ensures Remove(Remove(items, matchId, categoryName), matchId, categoryName)
            == Remove(items, matchId, categoryName)
  {
  }

  /** An update of zero or less is exactly a removal. */
  lemma UpdateNonPositiveRemoves(items: seq<CartItem>, matchId: int, categoryName: string, n: int)
    requires n <= 0
    ensures Update(items, matchId, categoryName, n) == Remove(items, matchId, categoryName)
  {
  }

  /** The minus button on a line holding one ticket asks for quantity 0 and
      so removes that line, and only it. */
  lemma MinusOnSingleTicketRemovesLine(items: seq<CartItem>, j: int)
    requires KeysUnique(items)
    requires 0 <= j < |items| && items[j].quantity == 1
    ensures Update(items, items[j].matchId, items[j].categoryName, items[j].quantity - 1)
            == items[..j] + items[j + 1..]
  {
    RemoveAt(items, items[j].matchId, items[j].categoryName, j);
  }

  /** A positive update sets only the matching line's quantity, with no upper bound. */
  lemma UpdatePositiveAt(items: seq<CartItem>, matchId: int, categoryName: string, n: int, j: int)
    requires n > 0 && KeysUnique(items)
    requires 0 <= j < |items| && IsLine(items[j], matchId, categoryName)
    ensures Update(items, matchId, categoryName, n) == items[j := items[j].(quantity := n)]
  {
  }

  /** An update of a key that has no line leaves the cart as it was, whatever the value. */
  lemma UpdateAbsent(items: seq<CartItem>, matchId: int, categoryName: string, n: int)
    requires !HasLine(items, matchId, categoryName)
    ensures Update(items, matchId, categoryName, n) == items
  {
    if n <= 0 {
      RemoveAbsent(items, matchId, categoryName);
    } else {
      var r := SetLineQuantity(items, matchId, categoryName, n);
      forall i | 0 <= i < |items| ensures r[i] == items[i] {
        assert !IsLine(items[i], matchId, categoryName);
      }
    }
  }

  /** Add keeps keys unique and quantities positive. */
  lemma AddPreservesInvariants(items: seq<CartItem>, m: Match, categoryName: string, details: TicketCategory)
    ensures KeysUnique(items) ==> KeysUnique(Add(items, m, categoryName, details))
    ensures AllPositive(items) ==> AllPositive(Add(items, m, categoryName, details))
  {
  }

  /** Removal keeps keys unique and quantities positive. */
  lemma {:induction false} RemovePreservesInvariants(items: seq<CartItem>, matchId: int, categoryName: string)
    ensures KeysUnique(items) ==> KeysUnique(Remove(items, matchId, categoryName))
    ensures AllPositive(items) ==> AllPositive(Remove(items, matchId, categoryName))
  {
    var r := Remove(items, matchId, categoryName);
    if AllPositive(items) {
      forall i | 0 <= i < |r| ensures r[i].quantity >= 1 {
        assert r[i] in r;
        var k :| 0 <= k < |items| && items[k] == r[i];
      }
    }
    if KeysUnique(items) && items != [] {
      TailKeysUnique(items);
      RemovePreservesInvariants(items[1..], matchId, categoryName);
      var rest := Remove(items[1..], matchId, categoryName);
      if !IsLine(items[0], matchId, categoryName) {
        assert r == [items[0]] + rest;
        forall j | 0 <= j < |rest| ensures !SameKey(items[0], rest[j]) {
          assert rest[j] in rest;
          var k :| 0 <= k < |items[1..]| && items[1..][k] == rest[j];
          assert !SameKey(items[0], items[k + 1]);
        }
        forall i, j | 0 <= i < j < |r| ensures !SameKey(r[i], r[j]) {
          if i > 0 {
            assert r[i] == rest[i - 1] && r[j] == rest[j - 1];
          } else {
            assert r[j] == rest[j - 1];
          }
        }
      }
    }
  }

  /** Update keeps keys unique and quantities positive: a value of zero or
      less removes the line, any other sets a positive quantity. */
  lemma UpdatePreservesInvariants(items: seq<CartItem>, matchId: int, categoryName: string, n: int)
    ensures KeysUnique(items) ==> KeysUnique(Update(items, matchId, categoryName, n))
    ensures AllPositive(items) ==> AllPositive(Update(items, matchId, categoryName, n))
  {
    if n <= 0 {
      RemovePreservesInvariants(items, matchId, categoryName);
    } else {
      var r := Update(items, matchId, categoryName, n);
      assert forall i :: 0 <= i < |r| ==> (r[i].matchId == items[i].matchId
                                           && r[i].categoryName == items[i].categoryName);
    }
  }

  // ---------------------------------------------------------------------
  // Ticket count

  lemma {:induction false} TotalConcat(a: seq<CartItem>, b: seq<CartItem>)
    ensures TotalTickets(a + b) == TotalTickets(a) + TotalTickets(b)
  {
    if b == [] {
      assert a + b == a;
    } else {
      var b' := b[..|b| - 1];
      assert (a + b)[..|a + b| - 1] == a + b';
      TotalConcat(a, b');
    }
  }

  lemma {:induction false} TotalReplaceAt(items: seq<CartItem>, j: int, x: CartItem)
    requires 0 <= j < |items|
    ensures TotalTickets(items[j := x]) == TotalTickets(items) - items[j].quantity + x.quantity
  {
    var n := |items|;
    if j == n - 1 {
      assert items[j := x][..n - 1] == items[..n - 1];
    } else {
      assert items[j := x][..n - 1] == items[..n - 1][j := x];
      TotalReplaceAt(items[..n - 1], j, x);
    }
  }

  /** With unique keys, every add raises the ticket count by exactly one. */
  lemma TotalAfterAdd(items: seq<CartItem>, m: Match, categoryName: string, details: TicketCategory)
    requires KeysUnique(items)
    ensures TotalTickets(Add(items, m, categoryName, details)) == TotalTickets(items) + 1
  {
    if HasLine(items, m.id, categoryName) {
      var j :| 0 <= j < |items| && IsLine(items[j], m.id, categoryName);
      AddExisting(items, m, categoryName, details, j);
      TotalReplaceAt(items, j, items[j].(quantity := items[j].quantity + 1));
    } else {
      var line := CartItem(m.id, MatchName(m), categoryName, details.price, 1);
      assert Add(items, m, categoryName, details) == items + [line];
      assert (items + [line])[..|items|] == items;
    }
  }

  /** With unique keys, removing a line lowers the ticket count by that line's quantity. */
  lemma TotalAfterRemove(items: seq<CartItem>, matchId: int, categoryName: string, j: int)
    requires KeysUnique(items)
    requires 0 <= j < |items| && IsLine(items[j], matchId, categoryName)
    ensures TotalTickets(Remove(items, matchId, categoryName)) == TotalTickets(items) - items[j].quantity
  {
    RemoveAt(items, matchId, categoryName, j);
    assert items == items[..j] + [items[j]] + items[j + 1..];
    TotalConcat(items[..j] + [items[j]], items[j + 1..]);
    TotalConcat(items[..j], [items[j]]);
    TotalConcat(items[..j], items[j + 1..]);
    assert [items[j]][..0] == [];
  }

  // ---------------------------------------------------------------------
  // The provider: a state cell replaced by each reducer, written back to
  // storage after every change

  class CartProvider {
    var cartItems: seq<CartItem>
    /** The value under the cart's storage key. */
    var storage: StoredCart

    /** The stored cart seen through loading equals the cart in memory. */
    ghost predicate Persisted()
      reads this
    {
      LoadCart(storage) == cartItems
    }

    ghost predicate WellFormedCart()
      reads this
    {
      WellFormed(cartItems)
    }

    /** Mounting: load with fallback, then the save effect runs once.
        `saveOk` says whether the storage write succeeds; a failed write
        is caught and leaves storage as it was. */
    constructor (saved: StoredCart, saveOk: bool)
      ensures cartItems == LoadCart(saved)
      ensures storage == if saveOk then Serialized(cartItems) else saved
      ensures saveOk ==> Persisted()
      ensures !saved.Serialized? ==> cartItems == [] && WellFormedCart()
      ensures saved.Serialized? && WellFormed(saved.items) ==> WellFormedCart()
    {
      cartItems := LoadCart(saved);
      storage := if saveOk then Serialized(LoadCart(saved)) else saved;
    }

    /** The save effect that follows every change of the cart. */
    method Save(saveOk: bool)
      modifies this`storage
      ensures storage == if saveOk then Serialized(cartItems) else old(storage)
      ensures saveOk ==> Persisted()
    {
      if saveOk {
        storage := Serialized(cartItems);
      }
    }

    method AddToCart(m: Match, categoryName: string, details: TicketCategory, saveOk: bool)
      modifies this
      ensures cartItems == Add(old(cartItems), m, categoryName, details)
      ensures storage == if saveOk then Serialized(cartItems) else old(storage)
      ensures old(WellFormedCart()) ==> WellFormedCart()
      ensures old(KeysUnique(cartItems)) ==> TotalTickets(cartItems) == old(TotalTickets(cartItems)) + 1
    {
      AddPreservesInvariants(cartItems, m, categoryName, details);
      if KeysUnique(cartItems) {
        TotalAfterAdd(cartItems, m, categoryName, details);
      }
      cartItems := Add(cartItems, m, categoryName, details);
      Save(saveOk);
    }

    method UpdateItemQuantity(matchId: int, categoryName: string, newQuantity: int, saveOk: bool)
      modifies this
      ensures cartItems == Update(old(cartItems), matchId, categoryName, newQuantity)
      ensures storage == if saveOk then Serialized(cartItems) else old(storage)
      ensures old(WellFormedCart()) ==> WellFormedCart()
    {
      UpdatePreservesInvariants(cartItems, matchId, categoryName, newQuantity);
      cartItems := Update(cartItems, matchId, categoryName, newQuantity);
      Save(saveOk);
    }

    method RemoveFromCart(matchId: int, categoryName: string, saveOk: bool)
      modifies this
      ensures cartItems == Remove(old(cartItems), matchId, categoryName)
      ensures storage == if saveOk then Serialized(cartItems) else old(storage)
      ensures old(WellFormedCart()) ==> WellFormedCart()
    {
      RemovePreservesInvariants(cartItems, matchId, categoryName);
      cartItems := Remove(cartItems, matchId, categoryName);
      Save(saveOk);
    }
  }
}
