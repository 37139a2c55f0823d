/** app/api/events/route.ts: `GET` lists events from the database, filtered by
    category and cut to one page. The rows are taken in the order the database
    returns them for `orderBy: { date: 'asc' }`. */
module EventsRoute {
  import opened Wrappers
  import opened Js
  import EventsData

  /** A row of the `Event` table, with the fields the route reads. */
  datatype DbEvent = DbEvent(
    id: string, title: string, date: int, location: string, image: string, slug: string,
    category: string, price: int, isFree: bool, featured: bool, upcoming: bool, popular: bool)

  /** The `price` text: 'Free', or the amount in naira (its locale formatting is not modelled). */
  datatype PriceLabel = Free | Naira(amount: int)

  /** An element of the response's `events`; `date` is the stored instant
      (`toLocaleDateString` is not modelled). */
  datatype ListedEvent = ListedEvent(
    id: string, title: string, date: int, location: string, image: string, slug: string,
    category: string, price: PriceLabel, isFree: bool, featured: bool, upcoming: bool, popular: bool)

  datatype EventsReply = EventsReply(events: seq<ListedEvent>, hasMore: bool, total: nat)

  /** The `where` clause: a category to match, or None for `{}`. */
  function Where(category: Option<string>): (w: Option<string>)
    ensures w.Some? <==> Truthy(category) && category.value != "All"
    ensures w.Some? ==> w == category
  {
    if Truthy(category) && category.value != "All" then category else None
  }

  predicate Matches(e: DbEvent, where: Option<string>) {
    where.None? || EqualsIgnoringCase(e.category, where.value)
  }

  /** The rows satisfying `where`, in order. */
  function Matching(rows: seq<DbEvent>, where: Option<string>): (r: seq<DbEvent>)
    ensures |r| <= |rows|
    ensures where.None? ==> r == rows
    ensures forall e :: e in r <==> e in rows && Matches(e, where)
  {
    if rows == [] then []
    else (if Matches(rows[0], where) then [rows[0]] else []) + Matching(rows[1..], where)
  }

  /** Prisma's `skip` and `take` (non-negative). */
  function SkipTake<T>(s: seq<T>, skip: nat, take: nat): (r: seq<T>)
    ensures skip <= |s| ==> r == s[skip..Min(skip + take, |s|)]
    ensures skip >= |s| ==> r == []
    ensures |r| <= take
  {
    if skip >= |s| then [] else s[skip..Min(skip + take, |s|)]
  }

  /** `findMany({ where, skip, take })` over rows already in date order. */
  function FindMany(rows: seq<DbEvent>, where: Option<string>, skip: nat, take: nat): (r: seq<DbEvent>)
    ensures |r| <= take
    ensures forall e :: e in r ==> e in rows && Matches(e, where)
    ensures skip == 0 && take >= |rows| ==> r == Matching(rows, where)
  {
    SkipTake(Matching(rows, where), skip, take)
  }

  /** `count({ where })`. */
  function Count(rows: seq<DbEvent>, where: Option<string>): (n: nat)
    ensures n <= |rows|
    ensures where.None? ==> n == |rows|
    ensures n == 0 <==> forall e :: e in rows ==> !Matches(e, where)
  {
    var matching := Matching(rows, where);
    assert |matching| > 0 ==> matching[0] in matching;
    |matching|
  }

  /** The `events.map` that builds each listed event. */
  function Transform(e: DbEvent): (r: ListedEvent)
    ensures r.price == Free <==> e.isFree
    ensures !e.isFree ==> r.price == Naira(e.price)
    ensures r.id == e.id && r.slug == e.slug && r.category == e.category && r.title == e.title
    ensures r.isFree == e.isFree && r.featured == e.featured && r.upcoming == e.upcoming && r.popular == e.popular
  {
    ListedEvent(e.id, e.title, e.date, e.location, e.image, e.slug, e.category,
                if e.isFree then Free else Naira(e.price),
                e.isFree, e.featured, e.upcoming, e.popular)
  }

  function TransformAll(events: seq<DbEvent>): (r: seq<ListedEvent>)
    ensures |r| == |events|
    ensures forall i :: 0 <= i < |events| ==> r[i] == Transform(events[i])
  {
    if events == [] then [] else [Transform(events[0])] + TransformAll(events[1..])
  }

  /** `searchParams.get(name) || default`, once parsed. */
  function OrDefault(n: Option<int>, default: int): int {
    if n.Some? then n.value else default
  }

  /** `GET`. `page` and `limit` are the parsed query parameters, None when absent or empty. */
  function Get(rows: seq<DbEvent>, category: Option<string>, page: Option<int>, limit: Option<int>)
    : (r: EventsReply)
    requires OrDefault(page, 1) >= 1 && OrDefault(limit, 6) >= 0
    ensures var p, l := OrDefault(page, 1), OrDefault(limit, 6);
      var matching := Matching(rows, Where(category));
      && r.total == |matching|
      && |r.events| <= l
      && (r.hasMore <==> p * l < r.total)
      && r.events == TransformAll(SkipTake(matching, EventsData.StartIndex(p, l), l))
  {
    var p, l := OrDefault(page, 1), OrDefault(limit, 6);
    var where := Where(category);
    var events := FindMany(rows, where, EventsData.StartIndex(p, l), l);
    EventsReply(TransformAll(events), p * l < Count(rows, where), Count(rows, where))
  }

  /** The route lists the `limit` matching rows that follow the first `(page-1)*limit`. */
  lemma {:induction false} GetWindow(rows: seq<DbEvent>, category: Option<string>, page: int, limit: int)
    requires page >= 1 && limit >= 0
    ensures var matching := Matching(rows, Where(category));
      var r := Get(rows, category, Some(page), Some(limit));
      && ((page - 1) * limit <= |matching| ==>
            r.events == TransformAll(matching[(page - 1) * limit .. Min(page * limit, |matching|)]))
      && ((page - 1) * limit >= |matching| ==> r.events == [])
  {
    EventsData.WindowEnds(page, limit);
  }

  /** Prisma's skip/take window is the in-memory helper's slice, and the two
      `hasMore` tests agree: `endIndex < total` is `page * limit < total`. */
  lemma {:induction false} WindowsAgree<T>(s: seq<T>, page: int, limit: int)
    requires page >= 1 && limit >= 0
    ensures var start := EventsData.StartIndex(page, limit);
      SkipTake(s, start, limit) == Slice(s, start, start + limit)
    ensures ((page - 1) * limit + limit < |s|) == (page * limit < |s|)
  {
    EventsData.WindowEnds(page, limit);
  }

  /** `Matches` is the in-memory helper's category test, so both list the same
      events for the same data. */
  lemma {:induction false} SameFilter(rows: seq<DbEvent>, category: Option<string>, e: DbEvent)
    ensures e in Matching(rows, Where(category)) <==>
      e in rows && (EventsData.SelectsAll(category) || EqualsIgnoringCase(e.category, category.value))
  {
  }
}
