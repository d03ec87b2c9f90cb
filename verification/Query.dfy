/** Matching and paging (ops_query.go), with Go's 64-bit integers written out. */
module Query {
  import opened Text
  import opened OpsModel

  predicate OpsMatch(item: OpsRecord, query: OpsQuery) {
    && (query.subject != "" ==> Contains(ToLower(item.subject), ToLower(query.subject)))
    && (query.status != OtherStatus("") ==> item.status == query.status)
    && (query.priority != OtherPriority("") ==> item.priority == query.priority)
    && (query.owner != "" ==> item.owner == query.owner)
  }

  const ANY := OpsQuery("", OtherStatus(""), OtherPriority(""), "", 0, 0)

  /** Every record matches the query made of its own fields and the query that sets none; and a
      query asks for what its fields ask for one by one. */
  lemma MatchByFields(item: OpsRecord, query: OpsQuery)
    ensures OpsMatch(item, ANY)
    ensures OpsMatch(item, OpsQuery(item.subject, item.status, item.priority, item.owner, query.page, query.pageSize))
    ensures OpsMatch(item, query) <==>
      && OpsMatch(item, ANY.(subject := query.subject)) && OpsMatch(item, ANY.(status := query.status))
      && OpsMatch(item, ANY.(priority := query.priority)) && OpsMatch(item, ANY.(owner := query.owner))
    ensures OpsMatch(item, ANY.(owner := query.owner)) ==> query.owner in {"", item.owner}
    ensures OpsMatch(item, ANY.(status := query.status)) ==> query.status in {OtherStatus(""), item.status}
    ensures OpsMatch(item, ANY.(priority := query.priority)) ==> query.priority in {OtherPriority(""), item.priority}
  {
    var subject := ToLower(item.subject);
    assert subject <= subject[0..];
  }

  /** Whether a subject matches: part occurs in it somewhere, letter case aside. */
  predicate OccursIn(part: string, subject: string, low: string, lowPart: string, a: string, b: string) {
    Lowered(subject, low) && Lowered(part, lowPart) && Around(low, a, lowPart, b)
  }

  lemma SubjectMatches(item: OpsRecord, part: string)
    ensures OpsMatch(item, ANY.(subject := part)) <==>
            exists low, lowPart, a, b :: OccursIn(part, item.subject, low, lowPart, a, b)
  {
    var subject, small := ToLower(item.subject), ToLower(part);
    LowerSound(item.subject);
    LowerSound(part);
    ContainsExactly(subject, small);
    if part == "" {
      assert Around(subject, "", small, subject);
      assert OccursIn(part, item.subject, subject, small, "", subject);
    }
    if Contains(subject, small) {
      var a, b :| Around(subject, a, small, b);
      assert OccursIn(part, item.subject, subject, small, a, b);
    }
    if low, lowPart, a, b :| OccursIn(part, item.subject, low, lowPart, a, b) {
      LoweredIsUnique(item.subject, low);
      LoweredIsUnique(part, lowPart);
    }
  }

  const MIN_INT := -0x8000_0000_0000_0000
  const MAX_INT := 0x7fff_ffff_ffff_ffff

  predicate IsInt(x: int) {
    MIN_INT <= x <= MAX_INT
  }

  /** Two's complement wrap-around of Go's int. */
  function Wrap(x: int): (r: int)
    ensures IsInt(r) && (x - r) % 0x1_0000_0000_0000_0000 == 0
    ensures IsInt(x) ==> r == x
  {
    (x - MIN_INT) % 0x1_0000_0000_0000_0000 + MIN_INT
  }

  function DefaultPage(page: int): int {
    if page < 1 then 1 else page
  }

  function DefaultSize(size: int): (r: int)
    ensures 1 <= r <= 200
  {
    var s := if size < 1 then 25 else size;
    if s > 200 then 200 else s
  }

  function QueryDefaults(q: OpsQuery): OpsQuery {
    q.(page := DefaultPage(q.page), pageSize := DefaultSize(q.pageSize))
  }

  /** opsBounds: where a page starts and ends. */
  function Bounds(total: int, page: int, size: int): (int, int) {
    var size' := DefaultSize(size);
    var first := Wrap((DefaultPage(page) - 1) * size');
    var start := if first > total then total else first;
    var last := Wrap(start + size');
    (start, if last > total then total else last)
  }

  /** What the bounds are meant to be. */
  function TrueBounds(total: nat, page: int, size: int): (nat, nat) {
    var offset := (DefaultPage(page) - 1) * DefaultSize(size);
    OffsetIsNatural(page, size);
    var start := if offset > total then total else offset;
    (start, if start + DefaultSize(size) > total then total else start + DefaultSize(size))
  }

  lemma OffsetIsNatural(page: int, size: int)
    ensures (DefaultPage(page) - 1) * DefaultSize(size) >= 0
  {
  }

  /** The offset of the page as the code computes it. */
  function CodeOffset(page: int, size: int): int {
    Wrap((DefaultPage(page) - 1) * DefaultSize(size))
  }

  /** The product does not overflow: what a caller can check. */
  predicate OffsetFits(page: int, size: int) {
    (DefaultPage(page) - 1) * DefaultSize(size) <= MAX_INT
  }

  /** The page number at which the offset first overflows. */
  lemma OffsetFitsUpTo(page: int, size: int)
    ensures OffsetFits(page, size) <==> DefaultPage(page) - 1 <= MAX_INT / DefaultSize(size)
  {
    var a, b, q := DefaultPage(page) - 1, DefaultSize(size), MAX_INT / DefaultSize(size);
    assert MAX_INT == q * b + MAX_INT % b;
    if a <= q {
      Monotone(a, q, b);
    } else {
      Monotone(q + 1, a, b);
      assert (q + 1) * b == q * b + b;
    }
  }

  /** A slice bound out of range is a panic. The bounds are usable, and then and only then, when
      the computed offset is not negative; they are the intended ones exactly when the offset
      fits or its wrapped value lies past the end anyway. In particular both hold on every page
      whose offset fits. A list is far shorter than the integers reach. */
  lemma BoundsExactly(total: nat, page: int, size: int)
    requires total <= MAX_INT - 200 && IsInt(page) && IsInt(size)
    ensures var (start, end) := Bounds(total, page, size);
            && (0 <= start <= end <= total <==> CodeOffset(page, size) >= 0)
            && ((start, end) == TrueBounds(total, page, size) <==>
                  OffsetFits(page, size) || CodeOffset(page, size) >= total)
            && (OffsetFits(page, size) ==> CodeOffset(page, size) >= 0)
  {
  }

  function Least(a: int, b: int): int {
    if a < b then a else b
  }

  /** The bounds of the page that follow from the computed offset, defaults spelled out. */
  lemma BoundsFromOffset(total: nat, query: OpsQuery)
    requires total <= MAX_INT - 200 && IsInt(query.page) && IsInt(query.pageSize)
    ensures var q := QueryDefaults(query);
            && q.page == (if query.page < 1 then 1 else query.page)
            && q.pageSize == (if query.pageSize < 1 then 25 else if query.pageSize > 200 then 200 else query.pageSize)
            && CodeOffset(query.page, query.pageSize) == CodeOffset(q.page, q.pageSize)
            && CodeOffset(q.page, q.pageSize) == Wrap((q.page - 1) * q.pageSize)
            && (OffsetFits(query.page, query.pageSize) <==> OffsetFits(q.page, q.pageSize))
            && var at := CodeOffset(q.page, q.pageSize);
               at >= 0 ==> Bounds(total, q.page, q.pageSize) == (Least(at, total), Least(at + q.pageSize, total))
  {
    hide Wrap;
  }

  /** The guard matters: this page number makes the offset negative. */
  lemma OverflowingPage()
    ensures var page := 0x4000_0000_0000_0001; IsInt(page) && Bounds(10, page, 2).0 < 0
  {
  }

  /** opsPageCount. */
  function PageCount(total: nat, size: int): nat {
    if size < 1 || total == 0 then 0 else (total + size - 1) / size
  }

  /** The items of one page. */
  function Page<T>(items: seq<T>, page: int, size: int): seq<T> {
    var (start, end) := TrueBounds(|items|, page, size);
    items[start..end]
  }

  /** Pages 1 to n, one after the other. */
  function Pages<T>(items: seq<T>, size: int, n: nat): seq<T> {
    if n == 0 then [] else Pages(items, size, n - 1) + Page(items, n, size)
  }

  function HasNext<T>(items: seq<T>, page: int, size: int): bool {
    TrueBounds(|items|, page, size).1 < |items|
  }

  lemma {:induction false} PagesArePrefix<T>(items: seq<T>, size: int, n: nat)
    requires 1 <= size <= 200
    ensures Pages(items, size, n) == items[..if n * size > |items| then |items| else n * size]
  {
    if n > 0 {
      PagesArePrefix(items, size, n - 1);
      assert n * size == (n - 1) * size + size;
    }
  }

  /** The least number of pages that hold everything; none without a size. */
  lemma PageCountCovers(total: nat, size: int)
    ensures 1 <= size ==> PageCount(total, size) * size >= total
    ensures PageCount(total, size) > 0 ==> 1 <= size && (PageCount(total, size) - 1) * size < total
  {
  }

  /** The pages 1 to opsPageCount in order are the whole list, no gap and no repeat; HasNext is
      true on exactly the pages before the last, so following it terminates there; and later
      pages are empty. */
  lemma PagesPartition<T>(items: seq<T>, size: int, page: int)
    requires 1 <= size <= 200 && page >= 1
    ensures var count := PageCount(|items|, size);
            && Pages(items, size, count) == items
            && (HasNext(items, page, size) <==> page < count)
            && (page > count ==> Page(items, page, size) == [])
            && (page <= count ==> Page(items, page, size) != [])
            && (page < count ==> |Page(items, page, size)| == size)
  {
    var count := PageCount(|items|, size);
    PageCountCovers(|items|, size);
    PagesArePrefix(items, size, count);
    assert (page - 1) * size + size == page * size;
    if page < count {
      Monotone(page, count - 1, size);
    } else {
      Monotone(count, page, size);
      if page > count { Monotone(count, page - 1, size); }
    }
  }

  lemma Monotone(a: int, b: int, size: int)
    requires a <= b && size >= 1
    ensures a * size <= b * size
  {
  }
}
