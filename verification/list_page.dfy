/** The list pipeline: keyword filter, stable sort, paging on 64-bit integers. */
module ListPage {
  import opened Wrappers
  import opened ListOrder

  const MAX_INT := 0x7fff_ffff_ffff_ffff
  const DEFAULT_PAGE := 1
  const DEFAULT_SIZE := 20
  const MIN_SIZE := 1
  const MAX_SIZE := 200

  /** A query value after strconv.Atoi. */
  datatype Param = Absent | Malformed | Number(value: int)

  datatype Pagination = Pagination(page: int, size: int)

  /** Paged(None) is the panic of a slice expression out of range. */
  datatype Listing = Rejected(code: Code) | Paged(items: Option<seq<Item>>, total: int)

  /** The value a 64-bit int holds after an operation whose exact result is n. */
  function Wrap(n: int): int {
    (n + MAX_INT + 1) % (2 * (MAX_INT + 1)) - MAX_INT - 1
  }

  /** Two's complement: the one 64-bit value that differs from n by a multiple of 2^64. */
  lemma WrapMeans(n: int)
    ensures -0x8000_0000_0000_0000 <= Wrap(n) <= 0x7fff_ffff_ffff_ffff
    ensures (n - Wrap(n)) % 0x1_0000_0000_0000_0000 == 0
  {
    var m := n + 0x8000_0000_0000_0000;
    assert Wrap(n) == m % 0x1_0000_0000_0000_0000 - 0x8000_0000_0000_0000;
    assert n - Wrap(n) == m / 0x1_0000_0000_0000_0000 * 0x1_0000_0000_0000_0000;
  }

  /** The limits Parse guarantees, for a list whose items each take up more than a byte of address space. */
  predicate Paging(p: Pagination, total: int) {
    1 <= p.page <= MAX_INT && MIN_SIZE <= p.size <= MAX_SIZE && 0 <= total <= MAX_INT - MAX_SIZE
  }

  method Parse(page: Param, size: Param) returns (r: Result<Pagination>)
    requires page.Number? ==> page.value <= MAX_INT
    requires size.Number? ==> size.value <= MAX_INT
    ensures r.Ok? <==> !page.Malformed? && (page.Number? ==> page.value >= 1) &&
                       !size.Malformed? && (size.Number? ==> size.value >= 1)
    ensures r.Err? ==> r.code == ParamInvalid
    ensures r.Ok? ==>
              && Paging(r.value, 0)
              && r.value.page == (if page.Number? then page.value else 1)
              && (size.Number? && size.value <= 200 ==> r.value.size == size.value)
              && (size.Number? && size.value > 200 ==> r.value.size == 200)
              && (size.Absent? ==> r.value.size == 20)
  {
    var p := Pagination(DEFAULT_PAGE, DEFAULT_SIZE);
    match page {
      case Absent =>
      case Malformed => return Err(ParamInvalid);
      case Number(n) =>
        if n < 1 {
          return Err(ParamInvalid);
        }
        p := p.(page := n);
    }
    match size {
      case Absent =>
      case Malformed => return Err(ParamInvalid);
      case Number(n) =>
        if n < MIN_SIZE {
          return Err(ParamInvalid);
        }
        p := p.(size := if n > MAX_SIZE then MAX_SIZE else n);
    }
    return Ok(p);
  }

  // ---- Keyword filter ----

  /** strings.ToLower: a mapping of single characters, applied throughout. */
  function Lower(s: string, lower: char -> char): (t: string)
    ensures |t| == |s| && forall i :: 0 <= i < |s| ==> t[i] == lower(s[i])
  {
    if s == "" then "" else [lower(s[0])] + Lower(s[1..], lower)
  }

  predicate Contains(s: string, part: string) {
    exists i :: 0 <= i <= |s| - |part| && PartAt(s, part, i)
  }

  predicate PartAt(s: string, part: string, i: nat)
    requires i + |part| <= |s|
  {
    s[i..i + |part|] == part
  }

  predicate Matches(i: Item, keyword: string, lower: char -> char) {
    Contains(Lower(i.name, lower), Lower(keyword, lower))
  }

  /** An item matches when the keyword occurs in its name, both lower-cased. */
  lemma MatchesMeans(i: Item, keyword: string, lower: char -> char)
    ensures Matches(i, keyword, lower) <==>
              exists k :: 0 <= k <= |i.name| - |keyword| && Occurs(i.name, keyword, lower, k)
  {
    var name, part := Lower(i.name, lower), Lower(keyword, lower);
    forall k | 0 <= k <= |i.name| - |keyword|
      ensures PartAt(name, part, k) <==> Occurs(i.name, keyword, lower, k)
    {
      if Occurs(i.name, keyword, lower, k) {
        assert name[k..k + |part|] == part;
      }
      if PartAt(name, part, k) {
        forall j | 0 <= j < |keyword|
          ensures lower(i.name[k + j]) == lower(keyword[j])
        {
          assert name[k..k + |part|][j] == part[j];
        }
      }
    }
  }

  ghost predicate Occurs(name: string, keyword: string, lower: char -> char, k: nat)
    requires k + |keyword| <= |name|
  {
    forall j :: 0 <= j < |keyword| ==> lower(name[k + j]) == lower(keyword[j])
  }

  /** The matching items, in their own order. */
  function Matching(items: seq<Item>, keyword: string, lower: char -> char): seq<Item> {
    if items == [] then []
    else Matching(items[..|items| - 1], keyword, lower) +
         if Matches(items[|items| - 1], keyword, lower) then [items[|items| - 1]] else []
  }

  /** The filter keeps every copy of a matching item and nothing else. */
  lemma {:induction false} MatchingCounts(items: seq<Item>, keyword: string, lower: char -> char, x: Item)
    ensures multiset(Matching(items, keyword, lower))[x] == if Matches(x, keyword, lower) then multiset(items)[x] else 0
  {
    if items != [] {
      MatchingCounts(items[..|items| - 1], keyword, lower, x);
      assert items == items[..|items| - 1] + [items[|items| - 1]];
    }
  }

  lemma {:induction false} EmptyKeywordMatchesAll(items: seq<Item>, lower: char -> char)
    ensures Matching(items, "", lower) == items
  {
    if items != [] {
      assert PartAt(Lower(items[|items| - 1].name, lower), Lower("", lower), 0);
      EmptyKeywordMatchesAll(items[..|items| - 1], lower);
      assert items == items[..|items| - 1] + [items[|items| - 1]];
    }
  }

  method FilterByKeyword(items: seq<Item>, keyword: string, lower: char -> char) returns (out: seq<Item>)
    ensures out == Matching(items, keyword, lower)
  {
    if keyword == "" {
      EmptyKeywordMatchesAll(items, lower);
      return items;
    }
    var kw := Lower(keyword, lower);
    out := [];
    for i := 0 to |items|
      invariant out == Matching(items[..i], keyword, lower)
    {
      assert items[..i + 1][..i] == items[..i];
      if Contains(Lower(items[i].name, lower), kw) {
        out := out + [items[i]];
      }
    }
    assert items[..|items|] == items;
  }

  // ---- Paging ----

  /** Up to `size` items from index `from`, as far as there are any. */
  function ItemsFrom(items: seq<Item>, from: int, size: int): seq<Item>
    requires from >= 0 && size >= 1
  {
    if from >= |items| then [] else items[from..Min(from + size, |items|)]
  }

  /** Index of the first item of a page. */
  function Offset(p: Pagination): int {
    (p.page - 1) * p.size
  }

  /** The page a client means: items (page-1)*size up to page*size. */
  function PageOf(items: seq<Item>, p: Pagination): seq<Item>
    requires p.page >= 1 && p.size >= 1
  {
    OffsetNonnegative(p);
    ItemsFrom(items, Offset(p), p.size)
  }

  lemma OffsetNonnegative(p: Pagination)
    requires p.page >= 1 && p.size >= 1
    ensures Offset(p) >= 0
  {
  }

  /** Slicing at the wrapped offset gives the page exactly when the offset fits in 64 bits or wraps past the end. */
  lemma WrappedSlice(items: seq<Item>, offset: int, size: int)
    requires offset >= 0 && size >= 1 && |items| <= MAX_INT
    ensures var start := Wrap(offset);
            start >= 0 ==>
              (items[Min(start, |items|)..Min(start + size, |items|)] == ItemsFrom(items, offset, size) <==>
               offset <= MAX_INT || start >= |items|)
    ensures offset <= MAX_INT ==> Wrap(offset) >= 0
  {
    WrapIdentity(offset);
    var start := Wrap(offset);
    if 0 <= start < |items| && offset > MAX_INT {
      var slice := items[Min(start, |items|)..Min(start + size, |items|)];
      assert |slice| > 0;
    }
  }

  /** What the handler slices: None is a panic. */
  method Page(items: seq<Item>, p: Pagination) returns (r: Option<seq<Item>>)
    requires Paging(p, |items|)
    ensures r == Some(PageOf(items, p)) <==> Offset(p) <= MAX_INT || Wrap(Offset(p)) >= |items|
    ensures r == None <==> Wrap(Offset(p)) < 0
  {
    OffsetNonnegative(p);
    WrappedSlice(items, Offset(p), p.size);
    WrapIdentity(Offset(p));
    r := Slice(items, Wrap(Offset(p)), p.size);
  }

  /** items[start:start+size], both ends clamped to the length. */
  method Slice(items: seq<Item>, start: int, size: int) returns (r: Option<seq<Item>>)
    requires -MAX_INT - 1 <= start <= MAX_INT && MIN_SIZE <= size <= MAX_SIZE && |items| <= MAX_INT - MAX_SIZE
    ensures r == if start < 0 then None
                 else Some(items[Min(start, |items|)..Min(start + size, |items|)])
  {
    var from := start;
    if from > |items| {
      from := |items|;
    }
    WrapIdentity(if from >= 0 then from + size else 0);
    var end := Wrap(from + size);
    if end > |items| {
      end := |items|;
    }
    if from < 0 || end < from {
      return None;
    }
    return Some(items[from..end]);
  }

  lemma WrapIdentity(n: int)
    requires 0 <= n
    ensures -MAX_INT - 1 <= Wrap(n) <= MAX_INT && (n <= MAX_INT ==> Wrap(n) == n) && (n > MAX_INT ==> Wrap(n) < n)
  {
  }

  /** Pages 1 to k, one after the other. */
  function Pages(items: seq<Item>, size: int, k: nat): seq<Item>
    requires size >= 1
  {
    if k == 0 then [] else Pages(items, size, k - 1) + PageOf(items, Pagination(k, size))
  }

  /** The pages neither overlap nor skip: together they are the list, up to where they reach. */
  lemma {:induction false} PagesPartition(items: seq<Item>, size: int, k: nat)
    requires size >= 1
    ensures k * size >= 0 && Pages(items, size, k) == items[..Min(k * size, |items|)]
  {
    if k > 0 {
      PagesPartition(items, size, k - 1);
      NextPage(items, Pagination(k, size), k * size);
    }
  }

  lemma NextPage(items: seq<Item>, p: Pagination, end: int)
    requires p.page >= 1 && p.size >= 1 && end == p.page * p.size
    ensures Offset(p) >= 0 && end == Offset(p) + p.size
    ensures items[..Min(Offset(p), |items|)] + PageOf(items, p) == items[..Min(end, |items|)]
  {
    OffsetNonnegative(p);
    assert end == Offset(p) + p.size;
  }

  /** A page far beyond the end that shows the first four items again. */
  lemma WrappedPage(items: seq<Item>)
    requires 4 <= |items| <= MAX_INT - MAX_SIZE
    ensures var p := Pagination(0x4000_0000_0000_0001, 4);
            && Paging(p, |items|) && PageOf(items, p) == [] && Wrap(Offset(p)) == 0
            && items[Min(Wrap(Offset(p)), |items|)..Min(Wrap(Offset(p)) + p.size, |items|)] == items[..4]
  {
  }

  /** A page whose offset wraps below zero: the slice expression panics on any list. */
  lemma PanickingPage(items: seq<Item>)
    requires |items| <= MAX_INT - MAX_SIZE
    ensures var p := Pagination(0x4000_0000_0000_0001, 2); Paging(p, |items|) && Wrap(Offset(p)) < 0
  {
  }

  // ---- The whole request ----

  method List(items: seq<Item>, keyword: string, lower: char -> char, sortBy: string, order: string, p: Pagination)
    returns (r: Listing, ghost sorted: seq<Item>)
    requires Paging(p, |items|)
    ensures r.Rejected? <==> OrderOf(sortBy, order).None?
    ensures r.Rejected? ==> r.code == ParamInvalid
    ensures r.Paged? ==>
              && StablySorted(OrderOf(sortBy, order).value, Matching(items, keyword, lower), sorted)
              && r.total == |sorted| == |Matching(items, keyword, lower)|
              && (r.items == Some(PageOf(sorted, p)) <==>
                  Offset(p) <= MAX_INT || Wrap(Offset(p)) >= r.total)
              && (r.items == None <==> Wrap(Offset(p)) < 0)
  {
    var matching := FilterByKeyword(items, keyword, lower);
    MatchingShorter(items, keyword, lower);
    var a := new Item[|matching|](i requires 0 <= i < |matching| => matching[i]);
    assert a[..] == matching;
    var ok := SortItems(a, sortBy, order);
    sorted := a[..];
    if !ok {
      return Rejected(ParamInvalid), sorted;
    }
    var page := Page(a[..], p);
    return Paged(page, a.Length), sorted;
  }

  lemma {:induction false} MatchingShorter(items: seq<Item>, keyword: string, lower: char -> char)
    ensures |Matching(items, keyword, lower)| <= |items|
  {
    if items != [] {
      MatchingShorter(items[..|items| - 1], keyword, lower);
    }
  }

  /** Two requests for the same items in the same order page the same list, so pages 1 to k
      concatenate to a permutation of the matching items once k*size reaches their number. */
  lemma PagesComplete(o: Order, matching: seq<Item>, sorted: seq<Item>, again: seq<Item>, size: int, k: nat)
    requires StablySorted(o, matching, sorted) && StablySorted(o, matching, again)
    requires size >= 1 && k * size >= |matching|
    ensures sorted == again && Pages(again, size, k) == sorted && multiset(Pages(again, size, k)) == multiset(matching)
  {
    forall x
      ensures Ties(o, sorted, x) == Ties(o, again, x)
    {
      assert Ties(o, matching, x) == Ties(o, sorted, x) && Ties(o, matching, x) == Ties(o, again, x);
    }
    StablySortedUnique(o, sorted, again);
    SameTiesPermute(o, matching, sorted);
    assert |sorted| == |multiset(sorted)| == |multiset(matching)| == |matching|;
    PagesPartition(sorted, size, k);
    assert sorted[..|sorted|] == sorted;
  }
}
