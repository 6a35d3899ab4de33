/** Order requests: validation, the canonical form that is hashed, and the bounded retry on number collisions. */
module Orders {
  import opened Options
  import opened Decimals

  const MAX_ITEMS := 50
  const MAX_QUANTITY := 999
  const ATTEMPTS := 3

  datatype Item = Item(product: int, quantity: int)

  /** keyBytes is the length of the trimmed idempotency key. */
  datatype Request = Request(userId: int, addressId: int, keyBytes: nat, items: seq<Item>)

  datatype OrderError = InputInvalid | KeyRequired | KeyInvalid | TooManyItems | QuantityInvalid | DuplicateItem
    | NumberCollision | Refused

  // --------------------------------------------------------------- validation

  predicate ItemOk(item: Item) {
    item.product > 0 && 0 < item.quantity <= MAX_QUANTITY
  }

  predicate ItemsOk(items: seq<Item>) {
    && (forall i :: 0 <= i < |items| ==> ItemOk(items[i]))
    && (forall i, j :: 0 <= i < j < |items| ==> items[i].product != items[j].product)
  }

  predicate Valid(q: Request) {
    q.userId > 0 && q.addressId > 0 && 8 <= q.keyBytes <= 64 && 0 < |q.items| <= MAX_ITEMS && ItemsOk(q.items)
  }

  predicate Complete(q: Request) {
    q.userId > 0 && q.addressId > 0 && q.items != []
  }

  /** The first item that is wrong, if there is one, decides the error. */
  predicate FirstBad(items: seq<Item>, i: nat, e: OrderError) {
    && i < |items| && ItemsOk(items[..i])
    && match e
       case InputInvalid => items[i].product <= 0
       case QuantityInvalid => items[i].product > 0 && !ItemOk(items[i])
       case DuplicateItem => ItemOk(items[i]) && exists j :: 0 <= j < i && items[j].product == items[i].product
       case _ => false
  }

  method CheckItems(items: seq<Item>) returns (r: Option<OrderError>)
    ensures r.None? <==> ItemsOk(items)
    ensures r.Some? ==> exists i :: FirstBad(items, i, r.value)
  {
    var seen: set<int> := {};
    for i := 0 to |items|
      invariant ItemsOk(items[..i]) && forall p :: p in seen <==> exists j :: 0 <= j < i && items[j].product == p
    {
      var item := items[i];
      if item.product <= 0 {
        assert FirstBad(items, i, InputInvalid);
        return Some(InputInvalid);
      }
      if item.quantity <= 0 || item.quantity > MAX_QUANTITY {
        assert FirstBad(items, i, QuantityInvalid);
        return Some(QuantityInvalid);
      }
      if item.product in seen {
        assert FirstBad(items, i, DuplicateItem);
        return Some(DuplicateItem);
      }
      seen := seen + {item.product};
    }
    assert items[..|items|] == items;
    return None;
  }

  /** Valid requests pass; every other gets the error of the first check it fails, item by item last. */
  method Validate(q: Request) returns (r: Option<OrderError>)
    ensures r.None? <==> Valid(q)
    ensures q.userId <= 0 || q.addressId <= 0 || q.items == [] ==> r == Some(InputInvalid)
    ensures r == Some(KeyRequired) <==> Complete(q) && q.keyBytes == 0
    ensures r == Some(KeyInvalid) <==> Complete(q) && (0 < q.keyBytes < 8 || q.keyBytes > 64)
    ensures r == Some(TooManyItems) <==> Complete(q) && 8 <= q.keyBytes <= 64 && |q.items| > MAX_ITEMS
    ensures r.Some? && Complete(q) && 8 <= q.keyBytes <= 64 && |q.items| <= MAX_ITEMS ==>
              exists i :: FirstBad(q.items, i, r.value)
  {
    if q.userId <= 0 || q.addressId <= 0 || |q.items| == 0 {
      return Some(InputInvalid);
    }
    if q.keyBytes == 0 {
      return Some(KeyRequired);
    }
    if q.keyBytes < 8 || q.keyBytes > 64 {
      return Some(KeyInvalid);
    }
    if |q.items| > MAX_ITEMS {
      return Some(TooManyItems);
    }
    r := CheckItems(q.items);
  }

  // ----------------------------------------------------------- canonical order

  predicate Increasing(items: seq<Item>) {
    forall i, j :: 0 <= i < j < |items| ==> items[i].product < items[j].product
  }

  /** The items of a valid request in the order of their products. */
  ghost predicate Canonical(items: seq<Item>, s: seq<Item>) {
    multiset(s) == multiset(items) && Increasing(s)
  }

  lemma {:induction false} LastIsGreatest(a: seq<Item>, x: Item)
    requires Increasing(a) && x in a
    ensures x.product <= a[|a| - 1].product && (x.product == a[|a| - 1].product ==> x == a[|a| - 1])
  {
  }

  lemma DropLast(a: seq<Item>, m: multiset<Item>)
    requires a != [] && multiset(a) == m
    ensures multiset(a[..|a| - 1]) == m - multiset{a[|a| - 1]}
  {
    assert a == a[..|a| - 1] + [a[|a| - 1]];
  }

  lemma SameLast(a: seq<Item>, b: seq<Item>)
    requires Increasing(a) && Increasing(b) && multiset(a) == multiset(b) && a != []
    ensures b != [] && a[|a| - 1] == b[|b| - 1]
  {
    assert a[|a| - 1] in multiset(b);
    assert b[|b| - 1] in multiset(a);
    LastIsGreatest(a, b[|b| - 1]);
    LastIsGreatest(b, a[|a| - 1]);
  }

  lemma DropBoth(a: seq<Item>, b: seq<Item>)
    requires Increasing(a) && Increasing(b) && multiset(a) == multiset(b) && a != []
    ensures b != [] && a[|a| - 1] == b[|b| - 1]
    ensures Increasing(a[..|a| - 1]) && Increasing(b[..|b| - 1]) && multiset(a[..|a| - 1]) == multiset(b[..|b| - 1])
  {
    SameLast(a, b);
    DropLast(a, multiset(a));
    DropLast(b, multiset(a));
  }

  /** There is only one such order, so the sort need not be stable. */
  lemma {:induction false} CanonicalUnique(a: seq<Item>, b: seq<Item>)
    requires Increasing(a) && Increasing(b) && multiset(a) == multiset(b)
    ensures a == b
    decreases |a|
  {
    if a == [] {
      assert |multiset(b)| == 0;
    } else {
      DropBoth(a, b);
      var c, d := a[..|a| - 1], b[..|b| - 1];
      CanonicalUnique(c, d);
      assert a == c + [a[|a| - 1]] && b == d + [a[|a| - 1]];
    }
  }

  function InsertItem(s: seq<Item>, x: Item): seq<Item> {
    if s == [] || s[|s| - 1].product < x.product then s + [x] else InsertItem(s[..|s| - 1], x) + [s[|s| - 1]]
  }

  function SortedItems(items: seq<Item>): seq<Item> {
    if items == [] then [] else InsertItem(SortedItems(items[..|items| - 1]), items[|items| - 1])
  }

  lemma {:induction false} InsertItemPermutes(s: seq<Item>, x: Item)
    ensures multiset(InsertItem(s, x)) == multiset(s) + multiset{x}
  {
    if !(s == [] || s[|s| - 1].product < x.product) {
      var t, last := s[..|s| - 1], s[|s| - 1];
      InsertItemPermutes(t, x);
      assert s == t + [last];
      assert InsertItem(s, x) == InsertItem(t, x) + [last];
    }
  }

  lemma InsertedMember(s: seq<Item>, x: Item, y: Item)
    requires y in InsertItem(s, x)
    ensures y in s || y == x
  {
    InsertItemPermutes(s, x);
    assert y in multiset(InsertItem(s, x));
  }

  lemma {:induction false} InsertItemKeeps(s: seq<Item>, x: Item)
    requires Increasing(s) && forall i :: 0 <= i < |s| ==> s[i].product != x.product
    ensures Increasing(InsertItem(s, x))
  {
    if s != [] && x.product < s[|s| - 1].product {
      var t, last := s[..|s| - 1], s[|s| - 1];
      InsertItemKeeps(t, x);
      var r := InsertItem(t, x);
      forall i | 0 <= i < |r| ensures r[i].product < last.product {
        InsertedMember(t, x, r[i]);
      }
    }
  }

  lemma {:induction false} SortedItemsCanonical(items: seq<Item>)
    requires ItemsOk(items)
    ensures Canonical(items, SortedItems(items))
    decreases |items|
  {
    if items != [] {
      var t, x := items[..|items| - 1], items[|items| - 1];
      SortedItemsCanonical(t);
      assert items == t + [x];
      forall i | 0 <= i < |SortedItems(t)| ensures SortedItems(t)[i].product != x.product {
        assert SortedItems(t)[i] in multiset(SortedItems(t));
        assert SortedItems(t)[i] in t;
      }
      InsertItemKeeps(SortedItems(t), x);
      InsertItemPermutes(SortedItems(t), x);
    }
  }

  /** Two valid lists have the same canonical form exactly when one is a permutation of the other. */
  lemma SameCanonicalIff(a: seq<Item>, b: seq<Item>)
    requires ItemsOk(a) && ItemsOk(b)
    ensures SortedItems(a) == SortedItems(b) <==> multiset(a) == multiset(b)
  {
    SortedItemsCanonical(a);
    SortedItemsCanonical(b);
    if multiset(a) == multiset(b) {
      CanonicalUnique(SortedItems(a), SortedItems(b));
    }
  }

  // --------------------------------------------------------------- hash input

  predicate AllPositive(items: seq<Item>) {
    forall i :: 0 <= i < |items| ==> items[i].product > 0 && items[i].quantity > 0
  }

  function EncodeItem(item: Item): string
    requires item.product > 0 && item.quantity > 0
  {
    "{\"product_id\":" + Print(item.product) + ",\"quantity\":" + Print(item.quantity) + "}"
  }

  function EncodeItems(items: seq<Item>): string
    requires AllPositive(items)
  {
    if items == [] then "]}"
    else EncodeItem(items[0]) + (if |items| == 1 then "]}" else "," + EncodeItems(items[1..]))
  }

  /** The JSON text whose digest identifies a request. */
  function Encode(userId: int, addressId: int, items: seq<Item>): string
    requires userId > 0 && addressId > 0 && AllPositive(items)
  {
    "{\"user_id\":" + Print(userId) + ",\"address_id\":" + Print(addressId) + ",\"items\":[" + EncodeItems(items)
  }

  /** A number between two fixed pieces of text can be read back, and so can what follows. */
  lemma FieldPrefix(lead: string, a: nat, x: string, b: nat, y: string)
    requires lead + Print(a) + x == lead + Print(b) + y
    requires (x == "" || !IsDigit(x[0])) && (y == "" || !IsDigit(y[0]))
    ensures a == b && x == y
  {
    assert (lead + Print(a) + x)[|lead|..] == Print(a) + x;
    assert (lead + Print(b) + y)[|lead|..] == Print(b) + y;
    PrintPrefix(a, x, b, y);
  }

  /** Two numbered fields in a row, whatever text follows them. */
  lemma TwoFields(lead: string, a: nat, mid: string, c: nat, x: string, b: nat, d: nat, y: string)
    requires mid != "" && !IsDigit(mid[0]) && x != "" && !IsDigit(x[0]) && y != "" && !IsDigit(y[0])
    requires lead + Print(a) + (mid + Print(c) + x) == lead + Print(b) + (mid + Print(d) + y)
    ensures a == b && c == d && x == y
  {
    FieldPrefix(lead, a, mid + Print(c) + x, b, mid + Print(d) + y);
    FieldPrefix(mid, c, x, d, y);
  }

  lemma ItemPrefix(a: Item, x: string, b: Item, y: string)
    requires a.product > 0 && a.quantity > 0 && b.product > 0 && b.quantity > 0
    requires EncodeItem(a) + x == EncodeItem(b) + y
    ensures a == b && x == y
  {
    var p, q := "}" + x, "}" + y;
    var lead, mid := "{\"product_id\":", ",\"quantity\":";
    ItemShape(a, x, lead, mid);
    ItemShape(b, y, lead, mid);
    TwoFields(lead, a.product, mid, a.quantity, p, b.product, b.quantity, q);
    assert p[1..] == x && q[1..] == y;
  }

  lemma ItemShape(a: Item, x: string, lead: string, mid: string)
    requires a.product > 0 && a.quantity > 0 && lead == "{\"product_id\":" && mid == ",\"quantity\":"
    ensures EncodeItem(a) + x == lead + Print(a.product) + (mid + Print(a.quantity) + ("}" + x))
    ensures mid != "" && !IsDigit(mid[0]) && ("}" + x)[0] == '}'
  {
    Regroup(lead, Print(a.product), mid, Print(a.quantity), "}", x);
    assert mid[0] == ',';
  }

  lemma Regroup(a: string, b: string, c: string, d: string, e: string, f: string)
    ensures a + b + c + d + e + f == a + b + (c + d + (e + f))
  {
  }

  function Tail(items: seq<Item>): string
    requires AllPositive(items) && items != []
  {
    if |items| == 1 then "]}" else "," + EncodeItems(items[1..])
  }

  lemma ItemsLength(items: seq<Item>)
    requires AllPositive(items)
    ensures |EncodeItems(items)| == 2 <==> items == []
  {
    if items != [] { assert |EncodeItem(items[0])| > 10; }
  }

  lemma {:induction false} ItemsInjective(a: seq<Item>, b: seq<Item>)
    requires AllPositive(a) && AllPositive(b) && EncodeItems(a) == EncodeItems(b)
    ensures a == b
    decreases |a|
  {
    ItemsLength(a);
    ItemsLength(b);
    if a != [] {
      ItemPrefix(a[0], Tail(a), b[0], Tail(b));
      TailsAgree(a, b);
      if |a| > 1 {
        ItemsInjective(a[1..], b[1..]);
      }
      assert a == [a[0]] + a[1..] && b == [b[0]] + b[1..];
    }
  }

  lemma TailsAgree(a: seq<Item>, b: seq<Item>)
    requires AllPositive(a) && AllPositive(b) && a != [] && b != [] && Tail(a) == Tail(b)
    ensures |a| == 1 <==> |b| == 1
    ensures |a| > 1 ==> EncodeItems(a[1..]) == EncodeItems(b[1..])
  {
    assert Tail(a)[0] == if |a| == 1 then ']' else ',';
    assert Tail(b)[0] == if |b| == 1 then ']' else ',';
    if |a| > 1 {
      assert Tail(a)[1..] == EncodeItems(a[1..]) && Tail(b)[1..] == EncodeItems(b[1..]);
    }
  }

  lemma EncodeInjective(u: int, a: int, s: seq<Item>, v: int, b: int, t: seq<Item>)
    requires u > 0 && a > 0 && v > 0 && b > 0 && AllPositive(s) && AllPositive(t) && Encode(u, a, s) == Encode(v, b, t)
    ensures u == v && a == b && s == t
  {
    var lead, mid, last := "{\"user_id\":", ",\"address_id\":", ",\"items\":[";
    var p, q := last + EncodeItems(s), last + EncodeItems(t);
    EncodeShape(u, a, s, lead, mid, last);
    EncodeShape(v, b, t, lead, mid, last);
    TwoFields(lead, u, mid, a, p, v, b, q);
    assert p[|last|..] == EncodeItems(s) && q[|last|..] == EncodeItems(t);
    ItemsInjective(s, t);
  }

  lemma EncodeShape(u: int, a: int, s: seq<Item>, lead: string, mid: string, last: string)
    requires u > 0 && a > 0 && AllPositive(s) && lead == "{\"user_id\":" && mid == ",\"address_id\":"
    requires last == ",\"items\":["
    ensures Encode(u, a, s) == lead + Print(u) + (mid + Print(a) + (last + EncodeItems(s)))
    ensures mid != "" && !IsDigit(mid[0]) && (last + EncodeItems(s))[0] == ','
  {
  }

  function HashInput(q: Request): string
    requires Valid(q)
  {
    SortedPositive(q.items);
    Encode(q.userId, q.addressId, SortedItems(q.items))
  }

  lemma SortedPositive(items: seq<Item>)
    requires ItemsOk(items)
    ensures AllPositive(SortedItems(items))
  {
    SortedItemsCanonical(items);
    forall i | 0 <= i < |SortedItems(items)| ensures ItemOk(SortedItems(items)[i]) {
      assert SortedItems(items)[i] in multiset(SortedItems(items));
      assert SortedItems(items)[i] in items;
    }
  }

  /**
   * Two valid requests are hashed alike exactly when user and address agree and the items are permutations of each
   * other.
   */
  lemma SameHashInputIff(q: Request, r: Request)
    requires Valid(q) && Valid(r)
    ensures HashInput(q) == HashInput(r) <==>
            q.userId == r.userId && q.addressId == r.addressId && multiset(q.items) == multiset(r.items)
  {
    SortedPositive(q.items);
    SortedPositive(r.items);
    SameCanonicalIff(q.items, r.items);
    if HashInput(q) == HashInput(r) {
      EncodeInjective(q.userId, q.addressId, SortedItems(q.items), r.userId, r.addressId, SortedItems(r.items));
    }
  }

  // -------------------------------------------------------------------- retry

  /** What the repository answers to one attempt. */
  datatype Reply = Created | Collision | Failed

  datatype Call = Call(number: string, hashInput: string)

  /** Replies 0 to n are collisions. */
  predicate Collide(replies: nat -> Reply, n: nat) {
    forall i :: 0 <= i < n ==> replies(i) == Collision
  }

  /** n attempts with consecutive numbers and one hash input. */
  function Attempts(numbers: nat -> string, first: nat, hashInput: string, n: nat): seq<Call> {
    if n == 0 then [] else Attempts(numbers, first, hashInput, n - 1) + [Call(numbers(first + n - 1), hashInput)]
  }

  class Service {
    /** How many numbers were generated so far, and every repository call. */
    var generated: nat
    var calls: seq<Call>
    const numbers: nat -> string

    constructor (numbers: nat -> string)
      ensures generated == 0 && calls == [] && this.numbers == numbers
    {
      this.numbers, generated, calls := numbers, 0, [];
    }

    method Generate() returns (number: string)
      modifies this`generated
      ensures number == numbers(old(generated)) && generated == old(generated) + 1
    {
      number := numbers(generated);
      generated := generated + 1;
    }

    /**
     * An invalid request reaches nobody. A valid one makes one to three calls with the same hash input, each with a
     * number of its own; a further call follows only a collision, and the last reply is the result.
     */
    method CreateOrder(q: Request, replies: nat -> Reply) returns (r: Option<OrderError>, n: nat)
      modifies this
      ensures !Valid(q) ==> n == 0 && r.Some? && calls == old(calls) && generated == old(generated)
      ensures Valid(q) ==>
                1 <= n <= ATTEMPTS && Collide(replies, n - 1) && (n < ATTEMPTS ==> replies(n - 1) != Collision)
      ensures Valid(q) ==> calls == old(calls) + Attempts(numbers, old(generated), HashInput(q), n)
      ensures Valid(q) ==>
                r == match replies(n - 1)
                     case Created => None
                     case Collision => Some(NumberCollision)
                     case Failed => Some(Refused)
    {
      var problem := Validate(q);
      if problem.Some? {
        return problem, 0;
      }
      var hashInput := HashInput(q);
      var number := Generate();
      n := 0;
      while true
        invariant 0 <= n < ATTEMPTS && Collide(replies, n)
        invariant number == numbers(old(generated) + n) && generated == old(generated) + n + 1
        invariant calls == old(calls) + Attempts(numbers, old(generated), hashInput, n)
        decreases ATTEMPTS - n
      {
        calls := calls + [Call(number, hashInput)];
        var reply := replies(n);
        n := n + 1;
        if reply != Collision {
          return if reply == Created then None else Some(Refused), n;
        }
        number := Generate();
        if n == ATTEMPTS {
          return Some(NumberCollision), n;
        }
      }
    }
  }
}
