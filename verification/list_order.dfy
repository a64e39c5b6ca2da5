/** The order of a resource list: a stable sort by name, namespace or creation time. */
module ListOrder {
  import opened Wrappers
  import opened StringOrder

  /** The zero time.Time, which an item without a creation time sorts by. */
  const ZERO_TIME := 0

  datatype Item = Item(uid: int, name: string, namespace: string, created: Option<int>)
  datatype Key = Name | Namespace | CreatedAt
  datatype Order = Order(key: Key, desc: bool)

  function TsOf(i: Item): int {
    if i.created.Some? then i.created.value else ZERO_TIME
  }

  /** The order a request names, if it names one. */
  function OrderOf(sortBy: string, order: string): Option<Order> {
    if order !in {"", "desc", "asc"} then None
    else if sortBy == "name" then Some(Order(Name, order != "asc"))
    else if sortBy == "namespace" then Some(Order(Namespace, order != "asc"))
    else if sortBy in {"", "createdAt"} then Some(Order(CreatedAt, order != "asc"))
    else None
  }

  predicate LessAs(desc: bool, a: string, b: string) {
    if desc then Less(b, a) else Less(a, b)
  }

  predicate Before(o: Order, a: Item, b: Item) {
    match o.key
    case Name => LessAs(o.desc, a.name, b.name)
    case Namespace =>
      if a.namespace == b.namespace then LessAs(o.desc, a.name, b.name) else LessAs(o.desc, a.namespace, b.namespace)
    case CreatedAt => if o.desc then TsOf(a) > TsOf(b) else TsOf(a) < TsOf(b)
  }

  predicate Tied(o: Order, a: Item, b: Item) {
    !Before(o, a, b) && !Before(o, b, a)
  }

  lemma LessAsCompares(desc: bool, a: string, b: string, c: string)
    ensures !LessAs(desc, a, a) && !(LessAs(desc, a, b) && LessAs(desc, b, a))
    ensures LessAs(desc, a, c) ==> LessAs(desc, a, b) || LessAs(desc, b, c)
  {
    LessIrreflexive(a);
    LessAsymmetric(a, b);
    LessSplits(a, b, c);
    LessSplits(c, b, a);
  }

  lemma LessSplits(a: string, b: string, c: string)
    ensures Less(a, c) ==> Less(a, b) || Less(b, c)
  {
    LessTotal(a, b);
    if Less(b, a) && Less(a, c) {
      LessTransitive(b, a, c);
    }
  }

  /** Every order a request can name is a strict weak order. */
  lemma BeforeCompares(o: Order, a: Item, b: Item, c: Item)
    ensures !Before(o, a, a)
    ensures !(Before(o, a, b) && Before(o, b, a))
    ensures Before(o, a, c) ==> Before(o, a, b) || Before(o, b, c)
  {
    LessAsCompares(o.desc, a.name, b.name, c.name);
    LessAsCompares(o.desc, a.namespace, b.namespace, c.namespace);
    LessTotal(a.namespace, b.namespace);
  }

  /** Ties are transitive, so they split a list into classes. */
  lemma TiedTransitive(o: Order, a: Item, b: Item, c: Item)
    requires Tied(o, a, b) && Tied(o, b, c)
    ensures Tied(o, a, c)
  {
    BeforeCompares(o, a, b, c);
    BeforeCompares(o, c, b, a);
  }

  ghost predicate Sorted(o: Order, s: seq<Item>) {
    forall i, j :: 0 <= i < j < |s| ==> !Before(o, s[j], s[i])
  }

  /** The items of `s` tied with x, in the order they have in `s`. */
  function Ties(o: Order, s: seq<Item>, x: Item): seq<Item> {
    if s == [] then [] else (if Tied(o, s[0], x) then [s[0]] else []) + Ties(o, s[1..], x)
  }

  ghost predicate SameTies(o: Order, s: seq<Item>, t: seq<Item>) {
    forall x :: Ties(o, s, x) == Ties(o, t, x)
  }

  /** What a stable sort promises: `t` is in order, and equal items keep the order they had in `s`. */
  ghost predicate StablySorted(o: Order, s: seq<Item>, t: seq<Item>) {
    Sorted(o, t) && SameTies(o, s, t)
  }

  lemma TiesCons(o: Order, u: Item, s: seq<Item>, x: Item)
    ensures Ties(o, [u] + s, x) == (if Tied(o, u, x) then [u] else []) + Ties(o, s, x)
  {
    assert ([u] + s)[1..] == s;
  }

  lemma {:induction false} TiesConcat(o: Order, s: seq<Item>, t: seq<Item>, x: Item)
    ensures Ties(o, s + t, x) == Ties(o, s, x) + Ties(o, t, x)
  {
    if s == [] {
      assert s + t == t;
    } else {
      var u, rest := s[0], s[1..];
      TiesConcat(o, rest, t, x);
      TiesCons(o, u, rest, x);
      TiesCons(o, u, rest + t, x);
      assert s == [u] + rest && s + t == [u] + (rest + t);
    }
  }

  lemma {:induction false} InTies(o: Order, s: seq<Item>, x: Item)
    ensures multiset(Ties(o, s, x))[x] == multiset(s)[x]
  {
    if s != [] {
      BeforeCompares(o, x, x, x);
      InTies(o, s[1..], x);
      assert s == [s[0]] + s[1..];
    }
  }

  /** A stable sort neither loses nor invents an item. */
  lemma SameTiesPermute(o: Order, s: seq<Item>, t: seq<Item>)
    requires SameTies(o, s, t)
    ensures multiset(s) == multiset(t)
  {
    forall x: Item
      ensures multiset(s)[x] == multiset(t)[x]
    {
      InTies(o, s, x);
      InTies(o, t, x);
      assert Ties(o, s, x) == Ties(o, t, x);
    }
  }

  lemma HeadTies(o: Order, s: seq<Item>, t: seq<Item>)
    requires StablySorted(o, s, t) && Sorted(o, s) && s != []
    ensures t != [] && !Before(o, t[0], s[0])
  {
    SameTiesPermute(o, s, t);
    assert |t| == |multiset(t)| == |multiset(s)| == |s|;
    assert t[0] in multiset(t);
    assert t[0] in s;
    BeforeCompares(o, t[0], t[0], t[0]);
  }

  /** There is only one stably sorted list, so every request for the same items sees the same order. */
  lemma {:induction false} StablySortedUnique(o: Order, s: seq<Item>, t: seq<Item>)
    requires Sorted(o, s) && Sorted(o, t) && SameTies(o, s, t)
    ensures s == t
  {
    if s == [] && t == [] {
    } else {
      SameTiesPermute(o, s, t);
      assert |s| == |multiset(s)| == |multiset(t)| == |t|;
      HeadTies(o, s, t);
      HeadTies(o, t, s);
      BeforeCompares(o, s[0], s[0], s[0]);
      assert Ties(o, s, s[0])[0] == s[0] && Ties(o, t, s[0])[0] == t[0];
      assert Ties(o, s, s[0]) == Ties(o, t, s[0]);
      forall x
        ensures Ties(o, s[1..], x) == Ties(o, t[1..], x)
      {
        var head := if Tied(o, s[0], x) then [s[0]] else [];
        assert head + Ties(o, s[1..], x) == Ties(o, s, x) == Ties(o, t, x) == head + Ties(o, t[1..], x);
        assert Ties(o, s[1..], x) == Ties(o, s, x)[|head|..];
      }
      StablySortedUnique(o, s[1..], t[1..]);
      assert s == [s[0]] + s[1..] && t == [t[0]] + t[1..];
    }
  }

  function Created(i: Item): int {
    match i.created
    case None => 0
    case Some(at) => at
  }

  /** What each request puts first: position p comes before position q only as the field and the direction say. */
  lemma NamedOrders(t: seq<Item>, p: nat, q: nat)
    requires p < q < |t|
    ensures OrderOf("name", "asc").Some? && (Sorted(OrderOf("name", "asc").value, t) ==> !Less(t[q].name, t[p].name))
    ensures OrderOf("name", "desc").Some? && (Sorted(OrderOf("name", "desc").value, t) ==> !Less(t[p].name, t[q].name))
    ensures OrderOf("createdAt", "asc").Some? &&
            (Sorted(OrderOf("createdAt", "asc").value, t) ==> Created(t[p]) <= Created(t[q]))
    ensures OrderOf("createdAt", "desc").Some? &&
            (Sorted(OrderOf("createdAt", "desc").value, t) ==> Created(t[p]) >= Created(t[q]))
    ensures OrderOf("namespace", "asc").Some? &&
            (Sorted(OrderOf("namespace", "asc").value, t) ==>
             if t[p].namespace == t[q].namespace then !Less(t[q].name, t[p].name)
             else !Less(t[q].namespace, t[p].namespace))
    ensures OrderOf("namespace", "desc").Some? &&
            (Sorted(OrderOf("namespace", "desc").value, t) ==>
             if t[p].namespace == t[q].namespace then !Less(t[p].name, t[q].name)
             else !Less(t[p].namespace, t[q].namespace))
  {
    OrderNames();
  }

  /** Which requests name an order; the default is by creation time, newest first. */
  lemma OrderNames()
    ensures OrderOf("name", "asc") == Some(Order(Name, false)) && OrderOf("name", "desc") == Some(Order(Name, true))
    ensures OrderOf("namespace", "asc") == Some(Order(Namespace, false))
    ensures OrderOf("namespace", "desc") == Some(Order(Namespace, true))
    ensures OrderOf("createdAt", "asc") == Some(Order(CreatedAt, false))
    ensures OrderOf("createdAt", "desc") == OrderOf("", "") == Some(Order(CreatedAt, true))
    ensures forall field, order :: OrderOf(field, order).Some? <==>
              order in ["", "asc", "desc"] && field in ["", "name", "namespace", "createdAt"]
    ensures forall field :: OrderOf(field, "") == OrderOf(field, "desc")
    ensures forall order :: OrderOf("", order) == OrderOf("createdAt", order)
  {
  }

  // ---- The sort, in place ----

  function Swap(s: seq<Item>, j: nat): seq<Item>
    requires 0 < j < |s|
  {
    s[j - 1 := s[j]][j := s[j - 1]]
  }

  /** Swapping two neighbours that are out of order moves no item past one it is tied with. */
  lemma SwapKeepsTies(o: Order, s: seq<Item>, j: nat)
    requires 0 < j < |s| && Before(o, s[j], s[j - 1])
    ensures SameTies(o, s, Swap(s, j))
  {
    var front, back := s[..j - 1], s[j + 1..];
    assert s == front + ([s[j - 1]] + ([s[j]] + back));
    assert Swap(s, j) == front + ([s[j]] + ([s[j - 1]] + back));
    forall x
      ensures Ties(o, s, x) == Ties(o, Swap(s, j), x)
    {
      SwapKeepsTiesOf(o, front, s[j - 1], s[j], back, x);
    }
  }

  lemma SwapKeepsTiesOf(o: Order, front: seq<Item>, u: Item, v: Item, back: seq<Item>, x: Item)
    requires Before(o, v, u)
    ensures Ties(o, front + ([u] + ([v] + back)), x) == Ties(o, front + ([v] + ([u] + back)), x)
  {
    TiesConcat(o, front, [u] + ([v] + back), x);
    TiesConcat(o, front, [v] + ([u] + back), x);
    if Tied(o, u, x) && Tied(o, v, x) {
      TiedTransitive(o, u, x, v);
    }
    TiesOfPair(o, u, v, back, x);
    TiesOfPair(o, v, u, back, x);
  }

  lemma TiesOfPair(o: Order, u: Item, v: Item, back: seq<Item>, x: Item)
    ensures Ties(o, [u] + ([v] + back), x) ==
              (if Tied(o, u, x) then [u] else []) + ((if Tied(o, v, x) then [v] else []) + Ties(o, back, x))
  {
    TiesCons(o, u, [v] + back, x);
    TiesCons(o, v, back, x);
  }

  /** `s[..i + 1]` is in order but for item j, which is on its way down. */
  ghost predicate Sinking(o: Order, s: seq<Item>, i: nat, j: nat) {
    && j <= i < |s|
    && (forall p, q :: 0 <= p < q <= i && p != j && q != j ==> !Before(o, s[q], s[p]))
    && (forall q :: j < q <= i ==> !Before(o, s[q], s[j]))
  }

  lemma SwapSinks(o: Order, s: seq<Item>, i: nat, j: nat)
    requires 0 < j && Sinking(o, s, i, j) && Before(o, s[j], s[j - 1])
    ensures Sinking(o, Swap(s, j), i, j - 1)
  {
    var t := Swap(s, j);
    forall p, q | 0 <= p < q <= i && p != j - 1 && q != j - 1
      ensures !Before(o, t[q], t[p])
    {
    }
    forall q | j - 1 < q <= i
      ensures !Before(o, t[q], t[j - 1])
    {
      BeforeCompares(o, s[j], s[j - 1], s[j]);
    }
  }

  lemma SunkSorted(o: Order, s: seq<Item>, i: nat, j: nat)
    requires Sinking(o, s, i, j) && (j == 0 || !Before(o, s[j], s[j - 1]))
    ensures Sorted(o, s[..i + 1])
  {
    var t := s[..i + 1];
    forall p, q | 0 <= p < q < |t|
      ensures !Before(o, t[q], t[p])
    {
      if q == j && p < j - 1 {
        BeforeCompares(o, s[j], s[j - 1], s[p]);
      }
    }
  }

  /** sort.SliceStable, as the insertion sort it applies to short lists. */
  method SortStable(a: array<Item>, o: Order)
    modifies a
    ensures StablySorted(o, old(a[..]), a[..])
  {
    var i := 1;
    while i < a.Length
      invariant 1 <= i && (a.Length > 0 ==> i <= a.Length)
      invariant SameTies(o, old(a[..]), a[..])
      invariant i <= a.Length ==> Sorted(o, a[..i])
    {
      var j := i;
      while j > 0 && Before(o, a[j], a[j - 1])
        invariant 0 <= j <= i
        invariant SameTies(o, old(a[..]), a[..])
        invariant Sinking(o, a[..], i, j)
      {
        ghost var s := a[..];
        SwapKeepsTies(o, s, j);
        SwapSinks(o, s, i, j);
        a[j - 1], a[j] := a[j], a[j - 1];
        assert a[..] == Swap(s, j);
        j := j - 1;
      }
      SunkSorted(o, a[..], i, j);
      assert a[..][..i + 1] == a[..i + 1];
      i := i + 1;
    }
    assert a.Length > 0 ==> a[..i] == a[..];
  }

  method SortItems(a: array<Item>, sortBy: string, order: string) returns (ok: bool)
    modifies a
    ensures ok <==> OrderOf(sortBy, order).Some?
    ensures if ok then StablySorted(OrderOf(sortBy, order).value, old(a[..]), a[..]) else a[..] == old(a[..])
  {
    var field := if sortBy == "" then "createdAt" else sortBy;
    var desc := true;
    if order == "asc" {
      desc := false;
    } else if order != "" && order != "desc" {
      return false;
    }
    if field == "name" {
      SortStable(a, Order(Name, desc));
    } else if field == "namespace" {
      SortStable(a, Order(Namespace, desc));
    } else if field == "createdAt" {
      SortStable(a, Order(CreatedAt, desc));
    } else {
      return false;
    }
    return true;
  }
}
