/** lib/events-data.ts: the in-memory event list and `getEventsByCategory`,
    a category filter followed by a page window. */
module EventsData {
  import opened Wrappers
  import opened Js

  /** The `Event` record of types/index.ts. */
  datatype Event = Event(
    id: int, title: string, date: string, location: string, image: string, slug: string,
    category: string, price: string, isFree: bool, featured: bool, upcoming: bool, popular: bool)

  /** The `EventsResponse` record of types/index.ts. */
  datatype EventsPage = EventsPage(events: seq<Event>, hasMore: bool, total: nat)

  const DefaultPage: int := 1
  const DefaultLimit: int := 6

  /** The events whose category equals `category` ignoring case, in their order. */
  function FilterCategory(events: seq<Event>, category: string): (r: seq<Event>)
    ensures |r| <= |events|
    ensures forall e :: e in r <==> e in events && EqualsIgnoringCase(e.category, category)
  {
    if events == [] then []
    else (if EqualsIgnoringCase(events[0].category, category) then [events[0]] else [])
         + FilterCategory(events[1..], category)
  }

  /** Filtering commutes with concatenation: together with the one-element case
      this pins the result down as the order-preserving subsequence of matches. */
  lemma {:induction false} FilterCategoryConcat(a: seq<Event>, b: seq<Event>, category: string)
    ensures FilterCategory(a + b, category) == FilterCategory(a, category) + FilterCategory(b, category)
  {
    if a == [] {
      assert a + b == b;
    } else {
      assert (a + b)[0] == a[0];
      assert (a + b)[1..] == a[1..] + b;
      FilterCategoryConcat(a[1..], b, category);
    }
  }

  /** No filter applies when the category is missing, empty or 'All'. */
  predicate SelectsAll(category: Option<string>) {
    !Truthy(category) || category.value == "All"
  }

  function Filtered(events: seq<Event>, category: Option<string>): (r: seq<Event>)
    ensures |r| <= |events|
    ensures forall e :: e in r <==> e in events && (SelectsAll(category) || EqualsIgnoringCase(e.category, category.value))
  {
    if SelectsAll(category) then events else FilterCategory(events, category.value)
  }

  /** Arithmetic helper: the page window's ends in terms of page and limit. */
  lemma WindowEnds(page: int, limit: int)
    requires page >= 1 && limit >= 0
    ensures (page - 1) * limit >= 0
    ensures (page - 1) * limit + limit == page * limit
  {
    var p := page - 1;
    assert p * limit >= 0;
    assert (p + 1) * limit == p * limit + limit;
  }

  /** Arithmetic helper for `startIndex`; the window ends `limit` later, at `page * limit`. */
  function StartIndex(page: int, limit: int): (start: nat)
    requires page >= 1 && limit >= 0
    ensures start == (page - 1) * limit && start + limit == page * limit
  {
    WindowEnds(page, limit);
    (page - 1) * limit
  }

  /** The pagination step: the slice from `(page-1)*limit` to `page*limit` and the flags. */
  function Page(filtered: seq<Event>, page: int, limit: int): (r: EventsPage)
    requires page >= 1 && limit >= 0
    ensures r.total == |filtered|
    ensures |r.events| <= limit
    ensures r.hasMore <==> page * limit < |filtered|
    ensures (page - 1) * limit <= |filtered| ==>
      r.events == filtered[(page - 1) * limit .. Min(page * limit, |filtered|)]
    ensures (page - 1) * limit >= |filtered| ==> r.events == []
    ensures forall e :: e in r.events ==> e in filtered
  {
    var startIndex := StartIndex(page, limit);
    var endIndex := startIndex + limit;
    assert startIndex == (page - 1) * limit && endIndex == page * limit;
    var events := Slice(filtered, startIndex, endIndex);
    EventsPage(events, endIndex < |filtered|, |filtered|)
  }

  /** `getEventsByCategory` over a given list; absent arguments take their defaults. */
  function EventsByCategory(data: seq<Event>, category: Option<string>, page: Option<int>, limit: Option<int>)
    : (r: EventsPage)
    requires page.None? || page.value >= 1
    requires limit.None? || limit.value >= 0
    ensures r.total == |Filtered(data, category)| && r.total <= |data|
    ensures SelectsAll(category) ==> r.total == |data|
    ensures forall e :: e in r.events ==>
      e in data && (SelectsAll(category) || EqualsIgnoringCase(e.category, category.value))
    ensures page.None? && limit.None? ==> r == Page(Filtered(data, category), 1, 6)
  {
    Page(Filtered(data, category),
         if page.Some? then page.value else DefaultPage,
         if limit.Some? then limit.value else DefaultLimit)
  }

  /** `getEventsByCategory` itself, over `allEventsData`. */
  function GetEventsByCategory(category: Option<string>, page: Option<int>, limit: Option<int>): (r: EventsPage)
    requires page.None? || page.value >= 1
    requires limit.None? || limit.value >= 0
    ensures r.total <= |AllEventsData|
    ensures SelectsAll(category) ==> r.total == |AllEventsData|
    ensures forall e :: e in r.events ==>
      e in AllEventsData && (SelectsAll(category) || EqualsIgnoringCase(e.category, category.value))
  {
    EventsByCategory(AllEventsData, category, page, limit)
  }

  /** The page that holds the last event reports that there is no more. */
  lemma LastPageHasNoMore(filtered: seq<Event>, page: int, limit: int)
    requires page >= 1 && limit >= 1
    requires (page - 1) * limit < |filtered| <= page * limit
    ensures !Page(filtered, page, limit).hasMore
    ensures |Page(filtered, page, limit).events| == |filtered| - (page - 1) * limit
  {
  }

  /** Pages 1 to n, one after another. */
  function Pages(filtered: seq<Event>, limit: int, n: nat): seq<Event>
    requires limit >= 0
  {
    if n == 0 then [] else Pages(filtered, limit, n - 1) + Page(filtered, n, limit).events
  }

  /** Page n is the clamped window between the ends of pages n-1 and n. */
  lemma PageWindow(filtered: seq<Event>, n: int, limit: int)
    requires n >= 1 && limit >= 0
    ensures (n - 1) * limit <= n * limit
    ensures Page(filtered, n, limit).events ==
      filtered[Min((n - 1) * limit, |filtered|) .. Min(n * limit, |filtered|)]
  {
    WindowEnds(n, limit);
  }

  /** A clamped prefix followed by the clamped window after it is the longer clamped prefix. */
  lemma PrefixThenWindow<T>(s: seq<T>, a: int, b: int)
    requires 0 <= a <= b
    ensures Min(a, |s|) <= Min(b, |s|)
    ensures s[..Min(a, |s|)] + s[Min(a, |s|) .. Min(b, |s|)] == s[..Min(b, |s|)]
  {
  }

  /** Consecutive pages neither overlap nor leave gaps: the first n pages together
      are the first n*limit filtered events. */
  lemma {:induction false} PagesArePrefix(filtered: seq<Event>, limit: int, n: nat)
    requires limit >= 0
    ensures Pages(filtered, limit, n) == filtered[..Min(n * limit, |filtered|)]
  {
    if n > 0 {
      PagesArePrefix(filtered, limit, n - 1);
      PageWindow(filtered, n, limit);
      WindowEnds(n, limit);
      PrefixThenWindow(filtered, (n - 1) * limit, n * limit);
    }
  }

  /** The simulated database `allEventsData` (lib/events-data.ts:4-174). */
  const AllEventsData: seq<Event> := [
    Event(1, "Tech Summer Summit 2025", "10/20/2025", "The Bridge Hall, Eliozu",
      "https://res.cloudinary.com/dg2et5gsi/image/upload/w_800,h_600,c_fill,q_auto,f_auto/v1763340064/fe-img1_iny63s.jpg",
      "tech-summer-summit-2025", "Technology", "₦8,000", false, false, true, true),
    Event(2, "Local Food Fun Fair", "11/15/2025", "Obi Wali Cultural Centre, Eliozu",
      "https://res.cloudinary.com/dg2et5gsi/image/upload/w_800,h_600,c_fill,q_auto,f_auto/v1763340295/fe-img4_gmuaxk.jpg",
      "local-food-fun-fair", "Food and Drinks", "Free", true, false, true, true),
    Event(3, "Summer Music Festival", "10/20/2025", "Yakubu Gowon Stadium, Elekahia",
      "https://res.cloudinary.com/dg2et5gsi/image/upload/w_800,h_600,c_fill,q_auto,f_auto/v1763340307/fe-img2_oqeukl.jpg",
      "summer-music-festival", "Music", "₦10,000", false, false, true, false),
    Event(4, "Art & Culture Expo", "12/05/2025", "Pleasure Park",
      "https://res.cloudinary.com/dg2et5gsi/image/upload/w_800,h_600,c_fill,q_auto,f_auto/v1763340108/cta-img-7_pln0uu.jpg",
      "art-culture-expo", "Art", "₦5,000", false, false, true, true),
    Event(5, "Comedy Night Live", "10/11/2025", "Presidential Hotel Conference Center",
      "https://res.cloudinary.com/dg2et5gsi/image/upload/w_800,h_600,c_fill,q_auto,f_auto/v1763340140/cta-img-8_wxsp5w.jpg",
      "comedy-night-live", "Entertainment", "₦25,000", false, true, false, true),
    Event(6, "New Year Gala 2026", "11/31/2025", "Presidential Hotel Conference Center",
      "https://res.cloudinary.com/dg2et5gsi/image/upload/w_800,h_600,c_fill,q_auto,f_auto/v1763340295/fe-img4_gmuaxk.jpg",
      "new-year-gala-2026", "Gala", "₦50,000", false, true, false, true),
    Event(7, "Spring Fashion Show", "11/15/2025", "Obi Wall Cultural Centre",
      "https://res.cloudinary.com/dg2et5gsi/image/upload/w_800,h_600,c_fill,q_auto,f_auto/v1763340295/fe-img4_gmuaxk.jpg",
      "spring-fashion-show", "Fashion", "₦12,000", false, true, true, true),
    Event(8, "Jazz Festival Downtown", "11/15/2025", "Yakubu Gowon Stadium",
      "https://res.cloudinary.com/dg2et5gsi/image/upload/w_800,h_600,c_fill,q_auto,f_auto/v1763340295/fe-img4_gmuaxk.jpg",
      "jazz-festival-downtown", "Music", "₦15,000", false, true, true, false),
    Event(9, "Business Leadership Summit", "12/10/2025", "The Bridge Hall, Eliozu",
      "https://res.cloudinary.com/dg2et5gsi/image/upload/w_800,h_600,c_fill,q_auto,f_auto/v1763340064/fe-img1_iny63s.jpg",
      "business-leadership-summit", "Business", "₦20,000", false, false, true, true),
    Event(10, "Health & Wellness Expo", "01/15/2026", "Pleasure Park",
      "https://res.cloudinary.com/dg2et5gsi/image/upload/w_800,h_600,c_fill,q_auto,f_auto/v1763340108/cta-img-7_pln0uu.jpg",
      "health-wellness-expo", "Health", "Free", true, false, true, false),
    Event(11, "Photography Workshop", "12/20/2025", "Art Gallery Downtown",
      "https://res.cloudinary.com/dg2et5gsi/image/upload/w_800,h_600,c_fill,q_auto,f_auto/v1763340108/cta-img-7_pln0uu.jpg",
      "photography-workshop", "Art", "₦7,000", false, false, true, false),
    Event(12, "International Food Festival", "01/10/2026", "Waterfront Park",
      "https://res.cloudinary.com/dg2et5gsi/image/upload/w_800,h_600,c_fill,q_auto,f_auto/v1763340295/fe-img4_gmuaxk.jpg",
      "international-food-festival", "Food and Drinks", "Free", true, false, true, true)
  ]

  /** With the defaults and no category, the first six of the twelve events are
      listed and more remain. */
  lemma DefaultListing()
    ensures GetEventsByCategory(None, None, None) == EventsPage(AllEventsData[..6], true, 12)
  {
  }
}
